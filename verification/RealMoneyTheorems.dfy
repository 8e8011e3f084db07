// What holds of the real-money sandbox after every run.
module RealMoneyTheorems {
  import opened Types
  import opened RealMoney
  import opened RealMoneyLaws
  import opened RealMoneySafety

  // The locked pot is exactly the user's pending stakes and open withdrawals, and neither pot is negative.
  lemma LockedPotIsExplained(c: Config, s: State, u: UserId)
    requires ConfigOk(c) && Reachable(c, s)
    ensures var w := WalletOf(s, u);
            && w.locked == Sum(LockedFor(u), s.bets) + WithdrawalSum(HeldFor(u), s.withdrawals)
            && w.locked >= 0 && w.available >= 0
  {
    ReachableHoldsInv(c, s);
    assert Balanced(s, u);
    LockedIsNotNegative(c, s, u);
  }

  // moveWallet never refuses a settlement, a refund, a rejection or a payment.
  lemma ClosingMovesAlwaysApply(c: Config, s: State)
    requires ConfigOk(c) && Reachable(c, s)
    ensures
            && (forall b, result | 0 <= b < |s.bets| && s.bets[b].status == Pending ::
                  Apply(s, SettleMove(c, s.bets[b], b, result)).Moved?)
            && (forall b | 0 <= b < |s.bets| && s.bets[b].status == Pending :: Apply(s, RefundMove(s.bets[b], b)).Moved?)
            && (forall w | 0 <= w < |s.withdrawals| && !Ended(s.withdrawals[w]) ::
                  Apply(s, ReleaseMove(s.withdrawals[w], w)).Moved? && Apply(s, PayMove(s.withdrawals[w], w)).Moved?)
  {
    ReachableHoldsInv(c, s);
    forall b, result | 0 <= b < |s.bets| && s.bets[b].status == Pending ensures Apply(s, SettleMove(c, s.bets[b], b, result)).Moved? {
      PendingBetCloses(c, s, b, SettleMove(c, s.bets[b], b, result), Settled(c, s.bets[b], result));
    }
    forall b | 0 <= b < |s.bets| && s.bets[b].status == Pending ensures Apply(s, RefundMove(s.bets[b], b)).Moved? {
      PendingBetCloses(c, s, b, RefundMove(s.bets[b], b), s.bets[b].(status := Refunded));
    }
    forall w | 0 <= w < |s.withdrawals| && !Ended(s.withdrawals[w])
      ensures Apply(s, ReleaseMove(s.withdrawals[w], w)).Moved? && Apply(s, PayMove(s.withdrawals[w], w)).Moved?
    {
      OpenWithdrawalEnds(c, s, w, ReleaseMove(s.withdrawals[w], w), s.withdrawals[w].(status := Rejected));
      OpenWithdrawalEnds(c, s, w, PayMove(s.withdrawals[w], w), s.withdrawals[w].(status := Paid));
    }
  }

  // One lock row each; one closing row, under whichever key, exactly when it is over.
  lemma OneLockOneClosing(c: Config, s: State)
    requires ConfigOk(c) && Reachable(c, s)
    ensures
            && (forall b :: 0 <= b < |s.bets| ==>
                  RowSum(LockRowsOf(b), s.ledger) == 1 &&
                  RowSum(ClosingRowsOf(b), s.ledger) == (if s.bets[b].status == Pending then 0 else 1))
            && (forall w :: 0 <= w < |s.withdrawals| ==>
                  RowSum(HoldRowsOf(w), s.ledger) == 1 &&
                  RowSum(EndRowsOf(w), s.ledger) == (if Ended(s.withdrawals[w]) then 1 else 0))
  {
    ReachableHoldsInv(c, s);
    forall b: BetId | b < |s.bets|
      ensures RowSum(LockRowsOf(b), s.ledger) == 1 && RowSum(ClosingRowsOf(b), s.ledger) == (if s.bets[b].status == Pending then 0 else 1)
    {
      assert BetReceipts(s, b);
    }
    forall w: WithdrawalId | w < |s.withdrawals|
      ensures RowSum(HoldRowsOf(w), s.ledger) == 1 && RowSum(EndRowsOf(w), s.ledger) == (if Ended(s.withdrawals[w]) then 1 else 0)
    {
      assert WithdrawalReceipts(s, w);
    }
  }

  // Requests that share a key leave one bet or one withdrawal behind.
  lemma OneBetAndOneWithdrawalPerKey(c: Config, s: State)
    requires ConfigOk(c) && Reachable(c, s)
    ensures
            && (forall i, j :: 0 <= i < j < |s.bets| ==> s.bets[i].clientKey != s.bets[j].clientKey)
            && (forall i, j :: 0 <= i < j < |s.withdrawals| ==> s.withdrawals[i].clientKey != s.withdrawals[j].clientKey)
            && (forall i, j :: 0 <= i < j < |s.ledger| ==> s.ledger[i].key != s.ledger[j].key)
  {
    ReachableHoldsInv(c, s);
  }

  // ---------------------------------------------------------------- conservation

  lemma {:induction false} BetsSplit(bets: seq<Bet>, u: UserId)
    ensures Sum(LockedFor(u), bets) - Sum(SpentBy(u), bets) == Sum(WonBy(u), bets) - Sum(LostBy(u), bets)
  {
    if |bets| > 0 { BetsSplit(bets[..|bets| - 1], u); }
  }

  lemma {:induction false} WithdrawalsSplit(ws: seq<Withdrawal>, u: UserId)
    ensures WithdrawalSum(HeldFor(u), ws) - WithdrawalSum(TakenBy(u), ws) == -WithdrawalSum(PaidTo(u), ws)
  {
    if |ws| > 0 { WithdrawalsSplit(ws[..|ws| - 1], u); }
  }

  // A user holds their deposits, less what was paid out to them, plus what they won, less what they lost.
  lemma MoneyOfOneUser(c: Config, s: State, u: UserId)
    requires Inv(c, s)
    ensures WalletOf(s, u).available + WalletOf(s, u).locked ==
            RowSum(DepositedBy(u), s.ledger) - WithdrawalSum(PaidTo(u), s.withdrawals) + Sum(WonBy(u), s.bets) - Sum(LostBy(u), s.bets)
  {
    assert Balanced(s, u);
    BetsSplit(s.bets, u);
    WithdrawalsSplit(s.withdrawals, u);
  }

  function Held(s: State, users: seq<UserId>): int {
    if |users| == 0 then 0
    else Held(s, users[..|users| - 1]) + WalletOf(s, users[|users| - 1]).available + WalletOf(s, users[|users| - 1]).locked
  }

  function Deposits(rows: seq<Row>): int {
    if |rows| == 0 then 0
    else Deposits(rows[..|rows| - 1]) + (if rows[|rows| - 1].kind == DepositApproved then rows[|rows| - 1].amount else 0)
  }

  function PaidOut(ws: seq<Withdrawal>): int {
    if |ws| == 0 then 0 else PaidOut(ws[..|ws| - 1]) + (if ws[|ws| - 1].status == Paid then ws[|ws| - 1].amount else 0)
  }

  // payout - stake over won bets, minus the stakes of lost ones
  function Winnings(bets: seq<Bet>): int {
    if |bets| == 0 then 0
    else
      var b := bets[|bets| - 1];
      Winnings(bets[..|bets| - 1]) + (if b.status == Won then b.payout - b.stake else if b.status == Lost then -b.stake else 0)
  }

  function Over(users: seq<UserId>, f: UserId -> int): int {
    if |users| == 0 then 0 else Over(users[..|users| - 1], f) + f(users[|users| - 1])
  }

  predicate Distinct(users: seq<UserId>) {
    forall i, j :: 0 <= i < j < |users| ==> users[i] != users[j]
  }

  // Two tallies that differ for one listed user only.
  lemma {:induction false} OverShift(users: seq<UserId>, f: UserId -> int, g: UserId -> int, user: UserId, d: int)
    requires Distinct(users) && forall u :: f(u) == g(u) + (if u == user then d else 0)
    ensures Over(users, f) == Over(users, g) + (if user in users then d else 0)
  {
    if |users| > 0 {
      var n := |users| - 1;
      OverShift(users[..n], f, g, user, d);
      assert users == users[..n] + [users[n]];
      assert users[n] !in users[..n];
    }
  }

  lemma {:induction false} OverZero(users: seq<UserId>, f: UserId -> int)
    requires forall u :: f(u) == 0
    ensures Over(users, f) == 0
  {
    if |users| > 0 { OverZero(users[..|users| - 1], f); }
  }

  lemma {:induction false} OverDeposits(users: seq<UserId>, rows: seq<Row>)
    requires Distinct(users) && forall i :: 0 <= i < |rows| ==> rows[i].user in users
    ensures Over(users, (u: UserId) => RowSum(DepositedBy(u), rows)) == Deposits(rows)
  {
    if |rows| == 0 {
      OverZero(users, (u: UserId) => RowSum(DepositedBy(u), rows));
    } else {
      var rest, row := rows[..|rows| - 1], rows[|rows| - 1];
      OverDeposits(users, rest);
      OverShift(users, (u: UserId) => RowSum(DepositedBy(u), rows), (u: UserId) => RowSum(DepositedBy(u), rest), row.user,
                if row.kind == DepositApproved then row.amount else 0);
    }
  }

  lemma {:induction false} OverPaid(users: seq<UserId>, ws: seq<Withdrawal>)
    requires Distinct(users) && forall i :: 0 <= i < |ws| ==> ws[i].user in users
    ensures Over(users, (u: UserId) => WithdrawalSum(PaidTo(u), ws)) == PaidOut(ws)
  {
    if |ws| == 0 {
      OverZero(users, (u: UserId) => WithdrawalSum(PaidTo(u), ws));
    } else {
      var rest, w := ws[..|ws| - 1], ws[|ws| - 1];
      OverPaid(users, rest);
      OverShift(users, (u: UserId) => WithdrawalSum(PaidTo(u), ws), (u: UserId) => WithdrawalSum(PaidTo(u), rest), w.user,
                if w.status == Paid then w.amount else 0);
    }
  }

  lemma {:induction false} OverWinnings(users: seq<UserId>, bets: seq<Bet>)
    requires Distinct(users) && forall i :: 0 <= i < |bets| ==> bets[i].user in users
    ensures Over(users, (u: UserId) => Sum(WonBy(u), bets) - Sum(LostBy(u), bets)) == Winnings(bets)
  {
    if |bets| == 0 {
      OverZero(users, (u: UserId) => Sum(WonBy(u), bets) - Sum(LostBy(u), bets));
    } else {
      var rest, b := bets[..|bets| - 1], bets[|bets| - 1];
      OverWinnings(users, rest);
      OverShift(users, (u: UserId) => Sum(WonBy(u), bets) - Sum(LostBy(u), bets), (u: UserId) => Sum(WonBy(u), rest) - Sum(LostBy(u), rest), b.user,
                if b.status == Won then b.payout - b.stake else if b.status == Lost then -b.stake else 0);
    }
  }

  lemma {:induction false} HeldIsOver(c: Config, s: State, users: seq<UserId>)
    requires Inv(c, s)
    ensures Held(s, users) ==
            Over(users, (u: UserId) => RowSum(DepositedBy(u), s.ledger)) - Over(users, (u: UserId) => WithdrawalSum(PaidTo(u), s.withdrawals))
            + Over(users, (u: UserId) => Sum(WonBy(u), s.bets) - Sum(LostBy(u), s.bets))
  {
    if |users| > 0 {
      HeldIsOver(c, s, users[..|users| - 1]);
      MoneyOfOneUser(c, s, users[|users| - 1]);
    }
  }

  // The list names everybody who has a ledger row, a bet or a withdrawal, once each.
  ghost predicate NamesEveryone(s: State, users: seq<UserId>) {
    && Distinct(users)
    && (forall i :: 0 <= i < |s.ledger| ==> s.ledger[i].user in users)
    && (forall i :: 0 <= i < |s.bets| ==> s.bets[i].user in users)
    && (forall i :: 0 <= i < |s.withdrawals| ==> s.withdrawals[i].user in users)
  }

  lemma MoneyOfEveryone(c: Config, s: State, users: seq<UserId>)
    requires Inv(c, s) && NamesEveryone(s, users)
    ensures Held(s, users) == Deposits(s.ledger) - PaidOut(s.withdrawals) + Winnings(s.bets)
  {
    HeldIsOver(c, s, users);
    OverDeposits(users, s.ledger);
    OverPaid(users, s.withdrawals);
    OverWinnings(users, s.bets);
  }

  // All the money in all wallets: deposits minus paid withdrawals plus what bets won and lost. Locking,
  // refunding, approving and rejecting create and destroy nothing.
  lemma MoneyIsConserved(c: Config, s: State, users: seq<UserId>)
    requires ConfigOk(c) && Reachable(c, s) && NamesEveryone(s, users)
    ensures Held(s, users) == Deposits(s.ledger) - PaidOut(s.withdrawals) + Winnings(s.bets)
  {
    ReachableHoldsInv(c, s);
    MoneyOfEveryone(c, s, users);
  }

  // ---------------------------------------------------------------- settlements

  // A round never pays more than the multiplier times the colour cap, unless some call settled it before it
  // was closed.
  lemma PayoutIsBounded(c: Config, s: State, r: RoundId)
    requires ConfigOk(c) && Reachable(c, s) && r !in s.early
    ensures Sum(PaidIn(r), s.bets) <= c.multiplier * c.colorCap
  {
    ReachableHoldsInv(c, s);
    var k := if r in s.settlements then s.settlements[r].result else Red;
    forall i | 0 <= i < |s.bets| ensures Weight(PaidIn(r), s.bets[i]) <= c.multiplier * Weight(LiveOn(r, k), s.bets[i]) {
      assert BetPlaced(s, s.bets[i]) && BetOk(c, s.bets[i]);
    }
    SumBelow(PaidIn(r), LiveOn(r, k), s.bets, c.multiplier);
    FactorKeepsOrder(c.multiplier, Sum(LiveOn(r, k), s.bets), c.colorCap);
  }

  // What the engine and the forced result do: they call settleRound for rounds that take no more bets.
  ghost predicate SettlesClosedOnly(c: Config, actions: seq<Action>) {
    forall k :: 0 <= k < |actions| && actions[k].StartSettling? ==> actions[k].round in Run(c, EMPTY, actions[..k]).closed
  }

  ghost predicate CallsOnClosed(s: State) {
    s.early == {} && forall call :: call in s.calls && s.calls[call].Running? ==> s.calls[call].round in s.closed
  }

  lemma StepKeepsCallsOnClosed(c: Config, s: State, a: Action)
    requires Inv(c, s) && ConfigOk(c) && CallsOnClosed(s) && (a.StartSettling? ==> a.round in s.closed)
    ensures CallsOnClosed(Step(c, s, a))
  {
    match a
    case SettleRound(call) => SettlingKeepsCallsOnClosed(c, s, call);
    case RefundRound(r, order) => if ListsPending(s, r, order) { RefundingWorks(c, s, order); }
    case _ =>
  }

  lemma SettlingKeepsCallsOnClosed(c: Config, s: State, call: CallId)
    requires Inv(c, s) && ConfigOk(c) && CallsOnClosed(s)
    ensures CallsOnClosed(SettleStep(c, s, call))
  {
    match CallOf(s, call)
    case Some(Running(r, result)) => SettlementSucceedsIff(c, s, r, result);
    case _ =>
  }

  // As long as they do, no round is settled early, and every round's payout is bounded.
  lemma {:induction false} NobodySettlesEarly(c: Config, actions: seq<Action>)
    requires ConfigOk(c) && SettlesClosedOnly(c, actions)
    ensures CallsOnClosed(Run(c, EMPTY, actions))
    ensures forall r: RoundId :: Sum(PaidIn(r), Run(c, EMPTY, actions).bets) <= c.multiplier * c.colorCap
  {
    if |actions| > 0 {
      var n := |actions| - 1;
      var earlier := actions[..n];
      forall k | 0 <= k < n && earlier[k].StartSettling? ensures earlier[k].round in Run(c, EMPTY, earlier[..k]).closed {
        assert earlier[..k] == actions[..k];
      }
      NobodySettlesEarly(c, earlier);
      RunKeepsInv(c, earlier);
      StepKeepsCallsOnClosed(c, Run(c, EMPTY, earlier), actions[n]);
    }
    forall r: RoundId ensures Sum(PaidIn(r), Run(c, EMPTY, actions).bets) <= c.multiplier * c.colorCap {
      PayoutIsBounded(c, Run(c, EMPTY, actions), r);
    }
  }

  lemma FactorKeepsOrder(factor: int, a: int, b: int)
    requires factor >= 0 && a <= b
    ensures factor * a <= factor * b
  {
  }

  lemma {:induction false} DecidedTotals(c: Config, bets: seq<Bet>, r: RoundId, result: Color, n: nat)
    requires n <= |bets|
    ensures var bets' := DecidedBelow(c, bets, r, result, |bets|);
            && Sum(CountDecided(r), bets'[..n]) == Sum(CountDecided(r), bets[..n]) + Sum(CountPending(r), bets[..n])
            && Sum(PaidIn(r), bets'[..n]) == Sum(PaidIn(r), bets[..n]) + c.multiplier * Sum(PendingOn(r, result), bets[..n])
  {
    if n > 0 {
      var bets' := DecidedBelow(c, bets, r, result, |bets|);
      DecidedTotals(c, bets, r, result, n - 1);
      assert bets'[..n][..n - 1] == bets'[..n - 1] && bets[..n][..n - 1] == bets[..n - 1];
      var earlier, weight := Sum(PendingOn(r, result), bets[..n - 1]), Weight(PendingOn(r, result), bets[n - 1]);
      assert c.multiplier * (earlier + weight) == c.multiplier * earlier + c.multiplier * weight;
    }
  }

  lemma {:induction false} NothingPaidYet(c: Config, bets: seq<Bet>, r: RoundId)
    requires ConfigOk(c) && forall i :: 0 <= i < |bets| ==> BetOk(c, bets[i])
    ensures Sum(PaidIn(r), bets) >= 0
    ensures Sum(PaidIn(r), bets) == 0 <==> forall i :: 0 <= i < |bets| && bets[i].round == r ==> bets[i].status != Won
  {
    if |bets| > 0 {
      var n := |bets| - 1;
      NothingPaidYet(c, bets[..n], r);
      assert BetOk(c, bets[n]);
      assert forall i :: 0 <= i < n ==> bets[..n][i] == bets[i];
    }
  }

  // A settlement that commits records its own bets only. The recorded count is that of the round exactly
  // when no bet of the round had been settled before, the recorded payout when none of them had won.
  lemma RecordedTotalIsExactIff(c: Config, s: State, r: RoundId, result: Color)
    requires Inv(c, s) && ConfigOk(c) && SettleTx(c, s, r, result).Some?
    requires !(r in s.settlements && s.settlements[r].status == Success)
    ensures var t := SettleTx(c, s, r, result).value;
            && (t.settlements[r].totalBets == Sum(CountDecided(r), t.bets) <==> Sum(CountDecided(r), s.bets) == 0)
            && (t.settlements[r].totalPayout == Sum(PaidIn(r), t.bets) <==>
                forall i :: 0 <= i < |s.bets| && s.bets[i].round == r ==> s.bets[i].status != Won)
  {
    SettlementSucceedsIff(c, s, r, result);
    DecidedTotals(c, s.bets, r, result, |s.bets|);
    NothingPaidYet(c, s.bets, r);
    var t := SettleTx(c, s, r, result).value;
    assert s.bets[..|s.bets|] == s.bets && t.bets[..|t.bets|] == t.bets;
  }

  // SUCCESS is not final: a call whose own transaction failed records that failure over it. No other step
  // of anybody does.
  lemma SuccessIsLostIff(c: Config, s: State, a: Action, r: RoundId)
    requires Inv(c, s) && ConfigOk(c) && r in s.settlements && s.settlements[r].status == Success
    ensures var t := Step(c, s, a);
            r in t.settlements &&
            (t.settlements[r].status != Success <==>
             a.RecordFailure? && exists result :: CallOf(s, a.call) == Some(Failing(r, result)))
  {
    match a
    case SettleRound(call) => SettlingKeepsSuccess(c, s, call, r);
    case RecordFailure(call) => FailingOverwrites(s, call, r);
    case RefundRound(q, order) =>
      if ListsPending(s, q, order) { RefundingWorks(c, s, order); }
    case _ =>
  }

  lemma SettlingKeepsSuccess(c: Config, s: State, call: CallId, r: RoundId)
    requires Inv(c, s) && ConfigOk(c) && r in s.settlements && s.settlements[r].status == Success
    ensures r in SettleStep(c, s, call).settlements && SettleStep(c, s, call).settlements[r].status == Success
  {
    match CallOf(s, call)
    case Some(Running(q, result)) => SettlementSucceedsIff(c, s, q, result);
    case _ =>
  }

  lemma FailingOverwrites(s: State, call: CallId, r: RoundId)
    requires r in s.settlements && s.settlements[r].status == Success
    ensures r in FailStep(s, call).settlements
    ensures FailStep(s, call).settlements[r].status != Success <==> exists result :: CallOf(s, call) == Some(Failing(r, result))
  {
    match CallOf(s, call)
    case Some(Failing(q, result)) => assert q == r ==> CallOf(s, call) == Some(Failing(r, result));
    case _ =>
  }

  // And the retry that follows records that it settled nothing, although the bets are decided and paid.
  lemma RetryForgetsTotals(c: Config, s: State, r: RoundId, calls: map<CallId, Call>)
    requires Inv(c, s) && ConfigOk(c) && r in s.settlements && s.settlements[r].status == Success && r !in s.early
    ensures var result := s.settlements[r].result;
            var t := SettleTx(c, FailTx(s, r, result).(calls := calls), r, result);
            t.Some? && t.value.bets == s.bets && t.value.settlements[r] == Settlement(result, Success, 0, 0)
  {
    var result := s.settlements[r].result;
    var f := FailTx(s, r, result).(calls := calls);
    FailingKeepsInv(c, s, r, result);
    SameCallsAside(c, FailTx(s, r, result), f);
    SettlementSucceedsIff(c, f, r, result);
    BetsArePositive(c, f);
    NothingPendingNothingDue(f.bets, r, result);
    assert DecidedBelow(c, f.bets, r, result, |f.bets|) == f.bets;
  }

  lemma {:induction false} NothingPendingNothingDue(bets: seq<Bet>, r: RoundId, k: Color)
    requires Positive(bets) && Sum(CountPending(r), bets) == 0
    ensures Sum(PendingOn(r, k), bets) == 0
    ensures forall i :: 0 <= i < |bets| && bets[i].round == r ==> bets[i].status != Pending
  {
    if |bets| > 0 {
      SumCovers(CountPending(r), bets[..|bets| - 1], 0);
      NothingPendingNothingDue(bets[..|bets| - 1], r, k);
    }
  }

  // Such a run: two engines settle one red round, the second one's transaction is aborted, the first commits,
  // the second records its failure, and a third call settles once more.
  const SANDBOX: Config := Config(2, 1000, 1000, 1000, 1000, 1000000)

  const RED_BET: Bet := Bet(7, 0, Red, 100, "red", Pending, 0)

  function TwoSettlers(): seq<Action> {
    [OpenRound(0), Deposit(7, 500, 0), PlaceBet(7, 0, Red, 100, "red", true), CloseRound(0),
     StartSettling(1, 0, Red), StartSettling(2, 0, Red), AbortSettling(2), SettleRound(1),
     RecordFailure(2), StartSettling(3, 0, Red), SettleRound(3)]
  }

  lemma RunPrefix(c: Config, actions: seq<Action>, n: nat)
    requires n < |actions|
    ensures Run(c, EMPTY, actions[..n + 1]) == Step(c, Run(c, EMPTY, actions[..n]), actions[n])
  {
    assert actions[..n + 1] == actions[..n] + [actions[n]];
    RunOneMore(c, EMPTY, actions[..n], actions[n]);
  }

  lemma RedBetIsPlaced()
    ensures var s := Run(SANDBOX, EMPTY, TwoSettlers()[..3]);
            s.bets == [RED_BET] && s.settlements == map[] && s.calls == map[] && s.early == {}
  {
    RunPrefix(SANDBOX, TwoSettlers(), 0);
    RunPrefix(SANDBOX, TwoSettlers(), 1);
    var s := Run(SANDBOX, EMPTY, TwoSettlers()[..2]);
    assert s.bets == [] && WalletOf(s, 7) == Wallet(500, 0, 1, false) && 0 in s.open && s.settlements == map[];
    RunPrefix(SANDBOX, TwoSettlers(), 2);
    assert s.ledger[0].key == DepositKey(0);
  }

  // A closed round with the red bet that nobody has settled yet, and these calls under way.
  ghost predicate Unsettled(s: State, calls: map<CallId, Call>) {
    s.bets == [RED_BET] && s.settlements == map[] && 0 in s.closed && s.early == {} && s.calls == calls
  }

  lemma RedRoundCloses()
    ensures Unsettled(Run(SANDBOX, EMPTY, TwoSettlers()[..4]), map[])
  {
    RedBetIsPlaced();
    RunPrefix(SANDBOX, TwoSettlers(), 3);
  }

  lemma OneSettlerStarts()
    ensures Unsettled(Run(SANDBOX, EMPTY, TwoSettlers()[..5]), map[1 := Running(0, Red)])
  {
    RedRoundCloses();
    RunPrefix(SANDBOX, TwoSettlers(), 4);
  }

  lemma AnotherSettlerStarts()
    ensures Unsettled(Run(SANDBOX, EMPTY, TwoSettlers()[..6]), map[1 := Running(0, Red), 2 := Running(0, Red)])
  {
    OneSettlerStarts();
    RunPrefix(SANDBOX, TwoSettlers(), 5);
  }

  lemma OneSettlerFails()
    ensures Unsettled(Run(SANDBOX, EMPTY, TwoSettlers()[..7]), map[1 := Running(0, Red), 2 := Failing(0, Red)])
  {
    AnotherSettlerStarts();
    RunPrefix(SANDBOX, TwoSettlers(), 6);
  }

  lemma OtherSettlerCommits()
    ensures var s := Run(SANDBOX, EMPTY, TwoSettlers()[..8]);
            && 0 in s.settlements && s.settlements[0] == Settlement(Red, Success, 1, 200) && s.early == {}
            && |s.bets| == 1 && s.bets[0].status == Won && s.bets[0].payout == 200
            && s.calls == map[2 := Failing(0, Red)]
  {
    OneSettlerFails();
    RunPrefix(SANDBOX, TwoSettlers(), 7);
    var before := Run(SANDBOX, EMPTY, TwoSettlers()[..7]);
    RunKeepsInv(SANDBOX, TwoSettlers()[..7]);
    SettlementSucceedsIff(SANDBOX, before, 0, Red);
    OneBetSums(before.bets);
  }

  lemma FailureIsRecorded()
    ensures var s, t := Run(SANDBOX, EMPTY, TwoSettlers()[..8]), Run(SANDBOX, EMPTY, TwoSettlers()[..9]);
            t == FailTx(s, 0, Red).(calls := map[])
  {
    OtherSettlerCommits();
    RunPrefix(SANDBOX, TwoSettlers(), 8);
    LastCallFails(Run(SANDBOX, EMPTY, TwoSettlers()[..8]), 2, 0, Red);
  }

  lemma LastCallFails(s: State, call: CallId, r: RoundId, result: Color)
    requires s.calls == map[call := Failing(r, result)]
    ensures FailStep(s, call) == FailTx(s, r, result).(calls := map[])
  {
    assert s.calls - {call} == map[];
  }

  lemma ThirdSettlerStarts()
    ensures var s, t := Run(SANDBOX, EMPTY, TwoSettlers()[..8]), Run(SANDBOX, EMPTY, TwoSettlers()[..10]);
            t == FailTx(s, 0, Red).(calls := map[3 := Running(0, Red)])
  {
    FailureIsRecorded();
    RunPrefix(SANDBOX, TwoSettlers(), 9);
  }

  lemma ThirdSettlerCommits(s: State)
    requires Inv(SANDBOX, s) && 0 in s.settlements && s.settlements[0] == Settlement(Red, Success, 1, 200) && 0 !in s.early
    ensures var t := SettleStep(SANDBOX, FailTx(s, 0, Red).(calls := map[3 := Running(0, Red)]), 3);
            0 in t.settlements && t.settlements[0] == Settlement(Red, Success, 0, 0) && t.bets == s.bets
  {
    RetryForgetsTotals(SANDBOX, s, 0, map[3 := Running(0, Red)]);
  }

  // The recorded totals of a settled and paid round can end as zero.
  lemma SettledTotalsCanBeForgotten()
    ensures var s, t := Run(SANDBOX, EMPTY, TwoSettlers()[..8]), Run(SANDBOX, EMPTY, TwoSettlers());
            && 0 in s.settlements && s.settlements[0] == Settlement(Red, Success, 1, 200)
            && 0 in t.settlements && t.settlements[0] == Settlement(Red, Success, 0, 0)
            && t.bets == s.bets && |t.bets| == 1 && t.bets[0].status == Won && t.bets[0].payout == 200
  {
    OtherSettlerCommits();
    RunKeepsInv(SANDBOX, TwoSettlers()[..8]);
    ThirdSettlerStarts();
    RunPrefix(SANDBOX, TwoSettlers(), 10);
    assert TwoSettlers()[..11] == TwoSettlers();
    ThirdSettlerCommits(Run(SANDBOX, EMPTY, TwoSettlers()[..8]));
  }

  lemma OneBetSums(bets: seq<Bet>)
    requires bets == [RED_BET]
    ensures Sum(CountPending(0), bets) == 1 && Sum(PendingOn(0, Red), bets) == 100
  {
    assert bets[..0] == [];
  }

  // ---------------------------------------------------------------- what is final

  lemma SettlingEndsOnly(c: Config, s: State, call: CallId)
    requires Inv(c, s) && ConfigOk(c)
    ensures OnlyPendingEnd(s.bets, SettleStep(c, s, call).bets)
    ensures SettleStep(c, s, call).withdrawals == s.withdrawals
  {
    match CallOf(s, call)
    case Some(Running(r, result)) =>
      SettlementSucceedsIff(c, s, r, result);
      BetsArePositive(c, s);
      DecidingEndsPending(c, s.bets, r, result);
    case _ =>
  }

  lemma RefundingEndsOnly(c: Config, s: State, r: RoundId, order: seq<BetId>)
    requires Inv(c, s) && ConfigOk(c)
    ensures OnlyPendingEnd(s.bets, Step(c, s, RefundRound(r, order)).bets)
  {
    if ListsPending(s, r, order) {
      RefundingWorks(c, s, order);
      RefundingEndsPending(s.bets, RefundTx(s, r, order).bets, order);
    }
  }

  lemma StepEndsOnly(c: Config, s: State, a: Action)
    requires Inv(c, s) && ConfigOk(c)
    ensures var t := Step(c, s, a); |s.bets| <= |t.bets| && OnlyPendingEnd(s.bets, t.bets[..|s.bets|])
  {
    match a
    case PlaceBet(user, r, choice, stake, clientKey, beforeLock) =>
      PlaceBetAddsOrNothing(c, s, user, r, choice, stake, clientKey, beforeLock);
      assert Step(c, s, a).bets[..|s.bets|] == s.bets;
    case SettleRound(call) =>
      SettlingEndsOnly(c, s, call);
      assert Step(c, s, a).bets[..|s.bets|] == Step(c, s, a).bets;
    case RefundRound(r, order) =>
      RefundingEndsOnly(c, s, r, order);
      assert Step(c, s, a).bets[..|s.bets|] == Step(c, s, a).bets;
    case _ => assert Step(c, s, a).bets[..|s.bets|] == s.bets;
  }

  // A withdrawal moves only along its state machine; paid and rejected ones stay as they are.
  lemma StepDecidesOnly(c: Config, s: State, a: Action, id: WithdrawalId)
    requires Inv(c, s) && ConfigOk(c) && id < |s.withdrawals|
    ensures var t := Step(c, s, a);
            && id < |t.withdrawals|
            && (t.withdrawals[id] == s.withdrawals[id] ||
                (a.Decide? && a.withdrawal == id &&
                 t.withdrawals[id] == s.withdrawals[id].(status := t.withdrawals[id].status) &&
                 match a.decision
                 case Approve => s.withdrawals[id].status == Requested && t.withdrawals[id].status == Approved
                 case Reject => s.withdrawals[id].status in {Requested, Approved} && t.withdrawals[id].status == Rejected
                 case MarkPaid => s.withdrawals[id].status == Approved && t.withdrawals[id].status == Paid))
  {
    match a
    case Decide(w, decision, auditKey) =>
      if auditKey !in s.audit && w < |s.withdrawals| { DecisionTakesEffectIff(c, s, w, decision, auditKey); }
    case RequestWithdrawal(user, amount, clientKey) => RequestAddsOrNothing(c, s, user, amount, clientKey);
    case SettleRound(call) => SettlingEndsOnly(c, s, call);
    case RefundRound(r, order) =>
      if ListsPending(s, r, order) { RefundingWorks(c, s, order); }
    case _ =>
  }

  // The bet, if it is over, and the withdrawal, if it has ended, are the same in the later state.
  predicate EndedStay(s: State, t: State, b: BetId, w: WithdrawalId) {
    && (b < |s.bets| && s.bets[b].status != Pending ==> b < |t.bets| && t.bets[b] == s.bets[b])
    && (w < |s.withdrawals| && Ended(s.withdrawals[w]) ==> w < |t.withdrawals| && t.withdrawals[w] == s.withdrawals[w])
  }

  lemma StepKeepsEnded(c: Config, s: State, a: Action, b: BetId, w: WithdrawalId)
    requires Inv(c, s) && ConfigOk(c)
    ensures EndedStay(s, Step(c, s, a), b, w)
  {
    var t := Step(c, s, a);
    StepEndsOnly(c, s, a);
    if w < |s.withdrawals| { StepDecidesOnly(c, s, a, w); }
    assert b < |s.bets| ==> t.bets[..|s.bets|][b] == t.bets[b];
  }

  lemma {:induction false} EndedBetsAndWithdrawalsAreFixed(c: Config, actions: seq<Action>, more: seq<Action>, b: BetId, w: WithdrawalId)
    requires ConfigOk(c)
    ensures EndedStay(Run(c, EMPTY, actions), Run(c, EMPTY, actions + more), b, w)
  {
    if |more| == 0 {
      assert actions + more == actions;
    } else {
      var n := |more| - 1;
      var earlier := actions + more[..n];
      assert actions + more == earlier + [more[n]];
      EndedBetsAndWithdrawalsAreFixed(c, actions, more[..n], b, w);
      RunKeepsInv(c, earlier);
      StepKeepsEnded(c, Run(c, EMPTY, earlier), more[n], b, w);
      RunOneMore(c, EMPTY, earlier, more[n]);
    }
  }
}
