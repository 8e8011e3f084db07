// What single real-money steps do, in plain terms: when they take effect and what they leave.
module RealMoneyExact {
  import opened Types
  import opened RealMoney
  import opened RealMoneyLaws
  import opened RealMoneySafety

  // The user's two pots move by these amounts and one ledger row says so; no other wallet or row changes.
  ghost predicate Moves(s: State, s': State, user: UserId, kind: EntryKind, amount: int, available: int, locked: int, key: Key) {
    var w := WalletOf(s, user);
    && s'.wallets == s.wallets[user := Wallet(w.available + available, w.locked + locked, w.version + 1, w.frozen)]
    && s'.ledger == s.ledger + [Row(user, kind, amount, w.available, w.available + available, w.locked, w.locked + locked, key)]
  }

  ghost predicate SameMoney(s: State, s': State) { s'.wallets == s.wallets && s'.ledger == s.ledger }

  // A bet that is taken holds its stake: it leaves the available pot for the locked one.
  ghost predicate BetHeld(s: State, s': State, user: UserId, r: RoundId, choice: Color, stake: int, clientKey: string) {
    && s'.bets == s.bets + [Bet(user, r, choice, stake, clientKey, Pending, 0)]
    && Moves(s, s', user, BetLocked, stake, -stake, stake, BetLock(|s.bets|))
    && s'.withdrawals == s.withdrawals && s'.settlements == s.settlements
  }

  // The pending bets of a round, and those on one colour.
  function PendingBets(bets: seq<Bet>, r: RoundId): set<BetId> {
    set i: BetId | i < |bets| && bets[i].round == r && bets[i].status == Pending
  }

  function PendingBetsOn(bets: seq<Bet>, r: RoundId, color: Color): set<BetId> {
    set i: BetId | i < |bets| && bets[i].round == r && bets[i].status == Pending && bets[i].choice == color
  }

  function StakesOf(bets: seq<Bet>, ids: set<BetId>): int {
    if |bets| == 0 then 0
    else
      var n := |bets| - 1;
      StakesOf(bets[..n], ids) + (if n in ids then bets[n].stake else 0)
  }

  lemma {:induction false} OnlyOwnBetsCount(bets: seq<Bet>, ids: set<BetId>, ids': set<BetId>)
    requires forall i: BetId :: i < |bets| ==> (i in ids <==> i in ids')
    ensures StakesOf(bets, ids) == StakesOf(bets, ids')
  {
    if |bets| > 0 { OnlyOwnBetsCount(bets[..|bets| - 1], ids, ids'); }
  }

  // The exposures the caps bound add up the stakes of exactly these bets.
  lemma {:induction false} ExposuresAreTotals(bets: seq<Bet>, r: RoundId, color: Color)
    ensures Sum(PendingIn(r), bets) == StakesOf(bets, PendingBets(bets, r))
    ensures Sum(PendingOn(r, color), bets) == StakesOf(bets, PendingBetsOn(bets, r, color))
  {
    if |bets| > 0 {
      var before := bets[..|bets| - 1];
      ExposuresAreTotals(before, r, color);
      OnlyOwnBetsCount(before, PendingBets(before, r), PendingBets(bets, r));
      OnlyOwnBetsCount(before, PendingBetsOn(before, r, color), PendingBetsOn(bets, r, color));
    }
  }

  lemma {:induction false} CountIsCardinality(bets: seq<Bet>, r: RoundId)
    ensures Sum(CountPending(r), bets) == |PendingBets(bets, r)|
  {
    if |bets| > 0 {
      var n := |bets| - 1;
      CountIsCardinality(bets[..n], r);
      assert PendingBets(bets, r) ==
             PendingBets(bets[..n], r) + (if bets[n].round == r && bets[n].status == Pending then {n} else {});
    }
  }

  ghost predicate CanBet(c: Config, s: State, user: UserId, r: RoundId, choice: Color, stake: int, clientKey: string, beforeLock: bool) {
    && 0 < stake <= c.betCap && r in s.open && beforeLock
    && StakesOf(s.bets, PendingBets(s.bets, r)) + stake <= c.roundCap
    && StakesOf(s.bets, PendingBetsOn(s.bets, r, choice)) + stake <= c.colorCap
    && !WalletOf(s, user).frozen && stake <= WalletOf(s, user).available
    && forall b :: 0 <= b < |s.bets| ==> s.bets[b].clientKey != clientKey
  }

  lemma BetIsHeldIff(c: Config, s: State, user: UserId, r: RoundId, choice: Color, stake: int, clientKey: string, beforeLock: bool)
    requires Inv(c, s)
    ensures var s' := PlaceBetTx(c, s, user, r, choice, stake, clientKey, beforeLock);
            if CanBet(c, s, user, r, choice, stake, clientKey, beforeLock) then BetHeld(s, s', user, r, choice, stake, clientKey) else s' == s
  {
    ExposuresAreTotals(s.bets, r, choice);
    PlaceBetAddsOrNothing(c, s, user, r, choice, stake, clientKey, beforeLock);
  }

  ghost predicate CanRequest(c: Config, s: State, user: UserId, amount: int, clientKey: string) {
    && 0 < c.minWithdrawal <= amount <= c.maxWithdrawal && amount <= WalletOf(s, user).available
    && forall w :: 0 <= w < |s.withdrawals| ==> s.withdrawals[w].clientKey != clientKey
  }

  ghost predicate WithdrawalHeld(s: State, s': State, user: UserId, amount: int, clientKey: string) {
    && s'.withdrawals == s.withdrawals + [Withdrawal(user, amount, clientKey, Requested)]
    && Moves(s, s', user, WithdrawalLocked, amount, -amount, amount, WithdrawalLock(|s.withdrawals|))
    && s'.bets == s.bets && s'.settlements == s.settlements
  }

  lemma WithdrawalIsHeldIff(c: Config, s: State, user: UserId, amount: int, clientKey: string)
    requires Inv(c, s)
    ensures var s' := RequestTx(c, s, user, amount, clientKey);
            if CanRequest(c, s, user, amount, clientKey) then WithdrawalHeld(s, s', user, amount, clientKey) else s' == s
  {
    RequestAddsOrNothing(c, s, user, amount, clientKey);
  }

  // The decision takes the withdrawal from one status to another. An approval moves no money; a rejection
  // gives the locked amount back; a payment takes it out.
  ghost predicate DecisionDone(s: State, s': State, id: WithdrawalId, decision: Decision, auditKey: string)
    requires id < |s.withdrawals|
  {
    var w := s.withdrawals[id];
    && s'.audit == s.audit + {auditKey} && s'.bets == s.bets && s'.settlements == s.settlements
    && match decision
       case Approve => w.status == Requested && s'.withdrawals == s.withdrawals[id := w.(status := Approved)] && SameMoney(s, s')
       case Reject =>
         && (w.status == Requested || w.status == Approved) && s'.withdrawals == s.withdrawals[id := w.(status := Rejected)]
         && Moves(s, s', w.user, WithdrawalRelease, w.amount, w.amount, -w.amount, WithdrawalReject(id))
       case MarkPaid =>
         && w.status == Approved && s'.withdrawals == s.withdrawals[id := w.(status := Paid)]
         && Moves(s, s', w.user, WithdrawalPaid, w.amount, 0, -w.amount, WithdrawalPay(id))
  }

  // An approval needs a requested withdrawal, a payment an approved one, a rejection either; a decision that
  // is allowed always goes through, and any other changes nothing.
  lemma DecisionIsDoneIff(c: Config, s: State, id: WithdrawalId, decision: Decision, auditKey: string)
    requires Inv(c, s) && id < |s.withdrawals| && auditKey !in s.audit
    ensures var s' := DecideTx(s, id, decision, auditKey);
            var status := s.withdrawals[id].status;
            if (decision == Approve && status == Requested) || (decision == Reject && (status == Requested || status == Approved)) ||
               (decision == MarkPaid && status == Approved)
            then DecisionDone(s, s', id, decision, auditKey)
            else s' == s
  {
    DecisionTakesEffectIff(c, s, id, decision, auditKey);
    var w := s.withdrawals[id];
    if decision == Reject && !Ended(w) { OpenWithdrawalEnds(c, s, id, ReleaseMove(w, id), w.(status := Rejected)); }
    if decision == MarkPaid && !Ended(w) { OpenWithdrawalEnds(c, s, id, PayMove(w, id), w.(status := Paid)); }
  }

  // A deposit is credited exactly when its amount is positive and its event is new.
  lemma DepositIsCreditedIff(c: Config, s: State, user: UserId, amount: int, event: EventId)
    requires Inv(c, s) && ConfigOk(c)
    ensures var s' := Step(c, s, Deposit(user, amount, event));
            if amount > 0 && (forall i :: 0 <= i < |s.ledger| ==> s.ledger[i].key != DepositKey(event))
            then Moves(s, s', user, DepositApproved, amount, amount, 0, DepositKey(event)) && s'.bets == s.bets && s'.withdrawals == s.withdrawals
            else s' == s
  {
    assert Balanced(s, user);
    LockedIsNotNegative(c, s, user);
  }

  // A bet is settled: a winning stake leaves the locked pot and the stake times the multiplier enters the
  // available one; a losing stake just leaves.
  lemma BetIsSettledExactly(c: Config, s: State, id: BetId, result: Color)
    requires Inv(c, s) && ConfigOk(c) && id < |s.bets| && s.bets[id].status == Pending
    ensures SettleOne(c, s, id, result).Some?
    ensures var s' := SettleOne(c, s, id, result).value;
            var bet := s.bets[id];
            if bet.choice == result
            then s'.bets == s.bets[id := bet.(status := Won, payout := bet.stake * c.multiplier)] &&
                 Moves(s, s', bet.user, BetWonPayout, bet.stake * c.multiplier, bet.stake * c.multiplier, -bet.stake, BetSettlement(id))
            else s'.bets == s.bets[id := bet.(status := Lost, payout := 0)] &&
                 Moves(s, s', bet.user, BetLostSettled, bet.stake, 0, -bet.stake, BetSettlement(id))
  {
    SettlingOneWorks(c, s, id, result);
  }

  // A refund takes the stake from the locked pot back to the available one.
  lemma BetIsRefundedExactly(c: Config, s: State, id: BetId)
    requires Inv(c, s) && ConfigOk(c) && id < |s.bets| && s.bets[id].status == Pending
    ensures RefundOne(s, id).Some?
    ensures var s' := RefundOne(s, id).value;
            var bet := s.bets[id];
            s'.bets == s.bets[id := bet.(status := Refunded)] &&
            Moves(s, s', bet.user, BetRefund, bet.stake, bet.stake, -bet.stake, BetRefundKey(id))
  {
    PendingBetCloses(c, s, id, RefundMove(s.bets[id], id), s.bets[id].(status := Refunded));
  }

  // The pending bets of the round are won or lost by their colour, and no other bet changes.
  ghost predicate DecidedRound(c: Config, bets: seq<Bet>, bets': seq<Bet>, r: RoundId, result: Color) {
    && |bets'| == |bets|
    && forall i :: 0 <= i < |bets| ==>
         bets'[i] == if bets[i].round != r || bets[i].status != Pending then bets[i]
                     else if bets[i].choice == result then bets[i].(status := Won, payout := bets[i].stake * c.multiplier)
                     else bets[i].(status := Lost, payout := 0)
  }

  // A settlement that went through: the bets are decided, and the totals are the number of bets that were
  // pending and the multiplier times the stakes of the winners among them.
  ghost predicate SettledExactly(c: Config, bets: seq<Bet>, bets': seq<Bet>, r: RoundId, result: Color, totalBets: int, totalPayout: int) {
    && DecidedRound(c, bets, bets', r, result)
    && totalBets == |PendingBets(bets, r)|
    && totalPayout == c.multiplier * StakesOf(bets, PendingBetsOn(bets, r, result))
  }

  lemma SettlingIsExact(c: Config, bets: seq<Bet>, r: RoundId, result: Color)
    ensures SettledExactly(c, bets, DecidedBelow(c, bets, r, result, |bets|), r, result,
                           Sum(CountPending(r), bets), PayoutOf(c, bets, r, result))
  {
    ExposuresAreTotals(bets, r, result);
    CountIsCardinality(bets, r);
  }

  // The failing branch keeps what the row says besides its status, and makes a row of zeros if there is none.
  lemma FailureIsRecorded(c: Config, s: State, call: CallId, r: RoundId, result: Color)
    requires CallOf(s, call) == Some(Failing(r, result))
    ensures var s' := Step(c, s, RecordFailure(call));
            && s'.settlements.Keys == s.settlements.Keys + {r}
            && s'.settlements[r] ==
               (if r in s.settlements then Settlement(s.settlements[r].result, Failed, s.settlements[r].totalBets, s.settlements[r].totalPayout)
                else Settlement(result, Failed, 0, 0))
            && (forall q :: q in s.settlements && q != r ==> s'.settlements[q] == s.settlements[q])
            && SameMoney(s, s') && s'.bets == s.bets && s'.calls == s.calls - {call}
  {
  }
}
