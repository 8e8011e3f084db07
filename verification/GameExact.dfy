// What single steps do, in plain terms: when they take effect and what they leave.
module GameExact {
  import opened Types
  import opened Ledger
  import opened LedgerLaws
  import opened Bets
  import opened Results
  import opened Game
  import opened GameMoney
  import opened GameRounds
  import opened GameSafety
  import opened GameTheorems

  // ---------------------------------------------------------------- wallet adjustments

  // A row an administrator asked for: this user, this direction and amount, under this key; the balance
  // rises by a credit and falls by a debit.
  predicate IsAdjustmentOf(row: Row, user: UserId, amount: int, direction: Direction, reference: nat, key: Key) {
    && row.user == user
    && row.kind == AdminAdjustment
    && row.direction == direction
    && row.amount == amount
    && row.referenceType == AdminAction
    && row.reference == reference
    && row.key == key
    && row.status == Success
    && row.after == row.before + (if direction == Credit then amount else -amount)
  }

  // When an adjustment goes through: a usable amount, a free key that fits, an active wallet, or none yet
  // and a free opening key, and coins enough if it takes any.
  ghost predicate CanAdjust(bank: Bank, user: UserId, amount: int, direction: Direction, key: Key) {
    && 0 < amount <= 9_007_199_254_740_991
    && FindRow(bank.ledger, key).None?
    && KeyLength(key) <= 160
    && (if user in bank.wallets then bank.wallets[user].active
        else FindRow(bank.ledger, InitialCoins(user)).None? && key != InitialCoins(user))
    && (direction == Debit ==> amount <= Balance(bank, user))
  }

  // An adjustment takes effect exactly when it can. A credit then raises the deposit pot by the amount; a
  // debit lowers the total by it, deposit pot first; and the last ledger row says what was asked for.
  lemma AdjustmentTakesEffectIff(c: Config, s: State, user: UserId, amount: int, direction: Direction, reference: nat, key: Key)
    requires Inv(c, s)
    ensures var s' := Step(c, s, AdjustWallet(user, amount, direction, reference, key));
            && (s' != s <==> CanAdjust(s.bank, user, amount, direction, key))
            && (s' != s ==> Adjusted(s.bank, s'.bank, user, amount, direction, reference, key) && s' == s.(bank := s'.bank))
  {
    MovesIffItCan(s.bank, user, amount, direction, reference, key);
    if Post(s.bank, AdjustmentMovement(user, amount, direction, reference, key)).Moved? {
      PostAppendsOneRow(s.bank, AdjustmentMovement(user, amount, direction, reference, key));
    }
  }

  lemma MovesIffItCan(bank: Bank, user: UserId, amount: int, direction: Direction, reference: nat, key: Key)
    requires BankOk(bank)
    ensures var result := Post(bank, AdjustmentMovement(user, amount, direction, reference, key));
            && (result.Moved? <==> CanAdjust(bank, user, amount, direction, key))
            && (result.Moved? ==> Adjusted(bank, result.bank, user, amount, direction, reference, key))
  {
    var m := Movement(user, AdminAdjustment, direction, AdminAction, reference, amount, key);
    assert Agrees(bank, user);
    MovementAnswers(bank, m);
    if Post(bank, m).Moved? { AdjustingIsExact(bank, user, amount, direction, reference, key); }
  }

  lemma AdjustingIsExact(bank: Bank, user: UserId, amount: int, direction: Direction, reference: nat, key: Key)
    requires Agrees(bank, user) && Post(bank, Movement(user, AdminAdjustment, direction, AdminAction, reference, amount, key)).Moved?
    ensures var after := Post(bank, Movement(user, AdminAdjustment, direction, AdminAction, reference, amount, key)).bank;
            Adjusted(bank, after, user, amount, direction, reference, key)
  {
    var m := Movement(user, AdminAdjustment, direction, AdminAction, reference, amount, key);
    MovementEffect(bank, m);
    PostAppendsOneRow(bank, m);
  }

  // What the caller of an adjustment is told: moved, with the row written; replayed, with the row under the
  // key, exactly when that is the same adjustment; refused otherwise.
  lemma AdjustmentIsReported(bank: Bank, user: UserId, amount: int, direction: Direction, reference: nat, key: Key)
    requires BankOk(bank)
    ensures var result := Post(bank, AdjustmentMovement(user, amount, direction, reference, key));
            var found := FindRow(bank.ledger, key);
            && (result.Moved? <==> CanAdjust(bank, user, amount, direction, key))
            && (result.Moved? ==> Adjusted(bank, result.bank, user, amount, direction, reference, key) &&
                                  FindRow(result.bank.ledger, key) == Some(result.row) &&
                                  IsAdjustmentOf(result.row, user, amount, direction, reference, key))
            && (result.Replayed? <==> 0 < amount <= 9_007_199_254_740_991 && found.Some? &&
                                      IsAdjustmentOf(found.value, user, amount, direction, reference, key))
            && (result.Replayed? ==> result.earlier == found.value)
  {
    assert Agrees(bank, user);
    MovesIffItCan(bank, user, amount, direction, reference, key);
    WritesWhatItReports(bank, user, amount, direction, reference, key);
    ReplaysWhatItFinds(bank, user, amount, direction, reference, key);
  }

  lemma WritesWhatItReports(bank: Bank, user: UserId, amount: int, direction: Direction, reference: nat, key: Key)
    requires Agrees(bank, user)
    ensures var result := Post(bank, AdjustmentMovement(user, amount, direction, reference, key));
            result.Moved? ==> |result.bank.ledger| > 0 && result.bank.ledger[|result.bank.ledger| - 1] == result.row &&
                              FindRow(result.bank.ledger, key) == Some(result.row) &&
                              IsAdjustmentOf(result.row, user, amount, direction, reference, key)
  {
    var m := AdjustmentMovement(user, amount, direction, reference, key);
    if Post(bank, m).Moved? {
      PostAppendsOneRow(bank, m);
      MovementEffect(bank, m);
    }
  }

  lemma ReplaysWhatItFinds(bank: Bank, user: UserId, amount: int, direction: Direction, reference: nat, key: Key)
    requires BankOk(bank)
    ensures var result := Post(bank, AdjustmentMovement(user, amount, direction, reference, key));
            var found := FindRow(bank.ledger, key);
            && (result.Replayed? <==> 0 < amount <= 9_007_199_254_740_991 && found.Some? &&
                                      IsAdjustmentOf(found.value, user, amount, direction, reference, key))
            && (result.Replayed? ==> result.earlier == found.value)
  {
    assert Agrees(bank, user);
    MovementAnswers(bank, Movement(user, AdminAdjustment, direction, AdminAction, reference, amount, key));
    var found := FindRow(bank.ledger, key);
    if found.Some? {
      var i :| 0 <= i < |bank.ledger| && bank.ledger[i] == found.value;
      assert RowAdds(bank.ledger[i]);
    }
  }

  ghost predicate Adjusted(bank: Bank, bank': Bank, user: UserId, amount: int, direction: Direction, reference: nat, key: Key) {
    && user in bank'.wallets
    && Balance(bank', user) == Balance(bank, user) + (if direction == Credit then amount else -amount)
    && (user in bank.wallets ==>
          var w, w' := bank.wallets[user], bank'.wallets[user];
          && (direction == Credit ==> w'.winning == w.winning)
          && (direction == Debit ==> w'.winning == w.winning || w'.deposit == 0))
    && (forall u :: u in bank.wallets && u != user ==> u in bank'.wallets && bank'.wallets[u] == bank.wallets[u])
    && |bank'.ledger| > |bank.ledger|
    && IsAdjustmentOf(bank'.ledger[|bank'.ledger| - 1], user, amount, direction, reference, key)
  }

  // ---------------------------------------------------------------- placing a bet

  datatype BetError = RoundNotOpen | UserCapExceeded | ColorCapExceeded | UniqueConflict | KeyReused | WalletError(error: Error)

  datatype BetAnswer = Placed(bet: BetId) | AlreadyPlaced(bet: BetId) | Rejected(reason: BetError)

  // Why a bet is turned down, if it is: the first of these that holds.
  ghost function Objection(c: Config, s: State, user: UserId, r: RoundId, choice: Color, stake: int, clientKey: string,
                           beforeLock: bool): Option<BetError>
  {
    if !(r < |s.rounds| && s.rounds[r].status == Open && beforeLock && !s.paused) then Some(RoundNotOpen)
    else if StakesOf(s.bets, LiveBetsOfUser(s.bets, r, user)) + stake > c.userCap then Some(UserCapExceeded)
    else if StakesOf(s.bets, LiveBetsOnColor(s.bets, r, choice)) + stake > c.colorCap then Some(ColorCapExceeded)
    else if exists b :: 0 <= b < |s.bets| && s.bets[b].clientKey == clientKey then Some(UniqueConflict)
    else WalletObjection(s.bank, user, |s.bets|, stake, clientKey)
  }

  // Why the debit of a stake is refused, if it is.
  ghost function WalletObjection(bank: Bank, user: UserId, id: BetId, stake: int, clientKey: string): Option<BetError> {
    var held := FindRow(bank.ledger, StakeDebit(id, clientKey));
    if held.Some? then
      Some(WalletError(if SameOperation(held.value, StakeMovement(user, id, stake, clientKey)) then PreviousOperationFailed else KeyConflict))
    else if user !in bank.wallets && FindRow(bank.ledger, InitialCoins(user)).Some? then Some(UniqueConflict)
    else if user in bank.wallets && !bank.wallets[user].active then Some(WalletError(WalletNotActive))
    else if |clientKey| > 113 then Some(WalletError(KeyTooLong))
    else if stake > Balance(bank, user) then Some(WalletError(InsufficientFunds))
    else None
  }

  lemma ReuseIsNoObjection(c: Config, s: State, user: UserId, r: RoundId, choice: Color, stake: int, clientKey: string, beforeLock: bool)
    ensures Objection(c, s, user, r, choice, stake, clientKey, beforeLock) != Some(KeyReused)
  {
  }

  function StakeMovement(user: UserId, id: BetId, stake: int, clientKey: string): Movement {
    Movement(user, BetDebit, Debit, BetReference, id, stake, StakeDebit(id, clientKey))
  }

  // The bet is in the table, pending, and its stake is charged.
  ghost predicate BetTaken(s: State, s': State, user: UserId, r: RoundId, choice: Color, stake: int, clientKey: string) {
    && s'.bets == s.bets + [Bet(user, r, choice, stake, clientKey, Pending, 0)]
    && Charged(s.bank, s'.bank, user, |s.bets|, stake, clientKey)
    && s'.rounds == s.rounds && s'.settlements == s.settlements
  }

  // The stake left the bettor's pots, deposit pot first, and is on record; no other wallet changed.
  ghost predicate Charged(bank: Bank, bank': Bank, user: UserId, id: BetId, stake: int, clientKey: string) {
    && user in bank'.wallets
    && Balance(bank', user) == Balance(bank, user) - stake
    && (user in bank.wallets ==> bank'.wallets[user].winning == bank.wallets[user].winning || bank'.wallets[user].deposit == 0)
    && (forall u :: u in bank.wallets && u != user ==> u in bank'.wallets && bank'.wallets[u] == bank.wallets[u])
    && |bank'.ledger| > |bank.ledger|
    && bank'.ledger[|bank'.ledger| - 1] ==
       Row(user, BetDebit, Debit, stake, Balance(bank, user), Balance(bank, user) - stake, StakeDebit(id, clientKey), BetReference, id, Success)
  }

  // What the debit of a stake answers.
  lemma DebitAnswers(bank: Bank, user: UserId, id: BetId, stake: int, clientKey: string)
    requires Agrees(bank, user) && ValidAmount(stake) && !Post(bank, StakeMovement(user, id, stake, clientKey)).Replayed?
    ensures var posted := Post(bank, StakeMovement(user, id, stake, clientKey));
            match WalletObjection(bank, user, id, stake, clientKey)
            case None => posted.Moved?
            case Some(reason) => posted.Refused? && posted.error == (if reason.WalletError? then reason.error else UniqueViolation) &&
                                 reason == (if posted.error == UniqueViolation then UniqueConflict else WalletError(posted.error))
  {
    MovementAnswers(bank, StakeMovement(user, id, stake, clientKey));
  }

  lemma StakeIsNew(c: Config, s: State, user: UserId, stake: int, clientKey: string)
    requires Inv(c, s)
    ensures Agrees(s.bank, user) && !Post(s.bank, StakeMovement(user, |s.bets|, stake, clientKey)).Replayed?
  {
    NewDebitIsNeverReplayed(s.bank, s.bets, Bet(user, 0, Red, stake, clientKey, Pending, 0));
  }

  // A bet is taken exactly when there is no objection; then its stake is charged, and otherwise nothing happens.
  lemma BetIsTakenIff(c: Config, s: State, user: UserId, r: RoundId, choice: Color, stake: int, clientKey: string, beforeLock: bool)
    requires Inv(c, s) && ValidAmount(stake)
    ensures var s' := PlaceBetTx(c, s, user, r, choice, stake, clientKey, beforeLock);
            if Objection(c, s, user, r, choice, stake, clientKey, beforeLock).None?
            then BetTaken(s, s', user, r, choice, stake, clientKey)
            else s' == s
  {
    StakeIsNew(c, s, user, stake, clientKey);
    NewStakeIsTakenIff(c, s, user, r, choice, stake, clientKey, beforeLock);
  }

  lemma NewStakeIsTakenIff(c: Config, s: State, user: UserId, r: RoundId, choice: Color, stake: int, clientKey: string, beforeLock: bool)
    requires Agrees(s.bank, user) && ValidAmount(stake) && !Post(s.bank, StakeMovement(user, |s.bets|, stake, clientKey)).Replayed?
    ensures var s' := PlaceBetTx(c, s, user, r, choice, stake, clientKey, beforeLock);
            if Objection(c, s, user, r, choice, stake, clientKey, beforeLock).None?
            then BetTaken(s, s', user, r, choice, stake, clientKey)
            else s' == s
  {
    TransactionFollowsObjection(c, s, user, r, choice, stake, clientKey, beforeLock);
    DebitAnswers(s.bank, user, |s.bets|, stake, clientKey);
    if Objection(c, s, user, r, choice, stake, clientKey, beforeLock).None? { StakeIsCharged(s.bank, user, |s.bets|, stake, clientKey); }
  }

  lemma TransactionFollowsObjection(c: Config, s: State, user: UserId, r: RoundId, choice: Color, stake: int, clientKey: string,
                                    beforeLock: bool)
    requires Agrees(s.bank, user) && ValidAmount(stake) && !Post(s.bank, StakeMovement(user, |s.bets|, stake, clientKey)).Replayed?
    ensures var posted := Post(s.bank, StakeMovement(user, |s.bets|, stake, clientKey));
            PlaceBetTx(c, s, user, r, choice, stake, clientKey, beforeLock) ==
              if Objection(c, s, user, r, choice, stake, clientKey, beforeLock).Some? || !posted.Moved? then s
              else s.(bank := posted.bank, bets := s.bets + [Bet(user, r, choice, stake, clientKey, Pending, 0)])
  {
    MeasuresAreTotals(s.bets, r, user, choice);
    DebitAnswers(s.bank, user, |s.bets|, stake, clientKey);
  }

  lemma StakeIsCharged(bank: Bank, user: UserId, id: BetId, stake: int, clientKey: string)
    requires Agrees(bank, user) && Post(bank, StakeMovement(user, id, stake, clientKey)).Moved?
    ensures Charged(bank, Post(bank, StakeMovement(user, id, stake, clientKey)).bank, user, id, stake, clientKey)
  {
    MovementEffect(bank, StakeMovement(user, id, stake, clientKey));
    PostAppendsOneRow(bank, StakeMovement(user, id, stake, clientKey));
  }

  // ---------------------------------------------------------------- refunds and cancellations

  // The refund of a bet goes through: its wallet is active and nobody used its refund key.
  ghost predicate Refundable(bank: Bank, bet: Bet, id: BetId, recovery: bool) {
    && bet.user in bank.wallets
    && bank.wallets[bet.user].active
    && FindRow(bank.ledger, if recovery then RecoveryRefund(bet.round, id) else CancelRefund(bet.round, id)).None?
  }

  lemma RefundGoesThroughIff(bank: Bank, bets: seq<Bet>, id: BetId, recovery: bool)
    requires BooksOk(bank, bets) && id < |bets| && bets[id].status == Pending
    ensures RefundOne(Books(bank, bets), id, recovery).Some? <==> Refundable(bank, bets[id], id, recovery)
  {
    assert BetOk(bank, bets[id]) && Agrees(bank, bets[id].user);
    PendingRefundIsNeverReplayed(bank, bets, id, recovery);
    MovementAnswers(bank, RefundMovement(bets[id], id, recovery));
  }

  // What the refund of one bet means for the refunds of others: nothing.
  lemma RefundKeepsOthersRefundable(bank: Bank, bets: seq<Bet>, id: BetId, recovery: bool, other: BetId)
    requires BooksOk(bank, bets) && id < |bets| && bets[id].status == Pending && other < |bets| && other != id
    requires RefundOne(Books(bank, bets), id, recovery).Some?
    ensures var after := RefundOne(Books(bank, bets), id, recovery).value;
            Refundable(after.bank, bets[other], other, recovery) <==> Refundable(bank, bets[other], other, recovery)
  {
    var m := RefundMovement(bets[id], id, recovery);
    PendingRefundIsNeverReplayed(bank, bets, id, recovery);
    assert BetOk(bank, bets[id]) && Agrees(bank, bets[id].user);
    PostAppendsOneRow(bank, m);
    MovementEffect(bank, m);
    KeyStaysFree(bank.ledger, Post(bank, m).row,
                 if recovery then RecoveryRefund(bets[other].round, other) else CancelRefund(bets[other].round, other));
  }

  lemma KeyStaysFree(ledger: seq<Row>, row: Row, key: Key)
    requires row.key != key
    ensures FindRow(ledger + [row], key) == FindRow(ledger, key)
  {
  }

  lemma {:induction false} RefundsKeepOthersRefundable(bank: Bank, bets: seq<Bet>, order: seq<BetId>, recovery: bool, other: BetId)
    requires BooksOk(bank, bets) && DistinctPending(bets, order) && other !in order && other < |bets|
    requires RefundEach(Books(bank, bets), order, recovery).Some?
    ensures var after := RefundEach(Books(bank, bets), order, recovery).value;
            && BooksOk(after.bank, after.bets) && |after.bets| == |bets| && after.bets[other] == bets[other]
            && (Refundable(after.bank, bets[other], other, recovery) <==> Refundable(bank, bets[other], other, recovery))
  {
    RefundingEachKeepsBooks(Books(bank, bets), order, recovery);
    if |order| > 0 {
      var prefix, last := order[..|order| - 1], order[|order| - 1];
      PrefixIsDistinctPending(bets, order);
      RefundsKeepOthersRefundable(bank, bets, prefix, recovery, other);
      RefundsKeepOthersRefundable(bank, bets, prefix, recovery, last);
      var earlier := RefundEach(Books(bank, bets), prefix, recovery).value;
      RefundKeepsOthersRefundable(earlier.bank, earlier.bets, last, recovery, other);
    }
  }

  ghost predicate AllListedRefundable(bank: Bank, bets: seq<Bet>, order: seq<BetId>, recovery: bool)
    requires forall i :: 0 <= i < |order| ==> order[i] < |bets|
  {
    forall i :: 0 <= i < |order| ==> Refundable(bank, bets[order[i]], order[i], recovery)
  }

  lemma LastRefundGoesThroughIff(bank: Bank, bets: seq<Bet>, order: seq<BetId>, recovery: bool)
    requires BooksOk(bank, bets) && DistinctPending(bets, order) && |order| > 0
    requires RefundEach(Books(bank, bets), order[..|order| - 1], recovery).Some?
    ensures var last := order[|order| - 1];
            RefundEach(Books(bank, bets), order, recovery).Some? <==> Refundable(bank, bets[last], last, recovery)
  {
    var prefix, last := order[..|order| - 1], order[|order| - 1];
    PrefixIsDistinctPending(bets, order);
    RefundsKeepOthersRefundable(bank, bets, prefix, recovery, last);
    var earlier := RefundEach(Books(bank, bets), prefix, recovery).value;
    RefundGoesThroughIff(earlier.bank, earlier.bets, last, recovery);
  }

  // The refund loop commits exactly when every listed refund goes through by itself.
  lemma {:induction false} RefundingGoesThroughIff(bank: Bank, bets: seq<Bet>, order: seq<BetId>, recovery: bool)
    requires BooksOk(bank, bets) && DistinctPending(bets, order)
    ensures RefundEach(Books(bank, bets), order, recovery).Some? <==> AllListedRefundable(bank, bets, order, recovery)
  {
    if |order| > 0 {
      var prefix := order[..|order| - 1];
      PrefixIsDistinctPending(bets, order);
      RefundingGoesThroughIff(bank, bets, prefix, recovery);
      if RefundEach(Books(bank, bets), prefix, recovery).Some? { LastRefundGoesThroughIff(bank, bets, order, recovery); }
      AllListedButLast(bank, bets, order, recovery);
    }
  }

  lemma AllListedButLast(bank: Bank, bets: seq<Bet>, order: seq<BetId>, recovery: bool)
    requires |order| > 0 && forall i :: 0 <= i < |order| ==> order[i] < |bets|
    ensures var n := |order| - 1;
            AllListedRefundable(bank, bets, order, recovery) <==>
              AllListedRefundable(bank, bets, order[..n], recovery) && Refundable(bank, bets[order[n]], order[n], recovery)
  {
    var n := |order| - 1;
    if AllListedRefundable(bank, bets, order[..n], recovery) {
      assert forall i :: 0 <= i < n ==> order[..n][i] == order[i];
    }
  }

  // Every pending bet of these rounds can be refunded.
  ghost predicate AllRefundable(s: State, targets: set<RoundId>, recovery: bool) {
    forall b: BetId :: b < |s.bets| && s.bets[b].status == Pending && s.bets[b].round in targets ==>
      Refundable(s.bank, s.bets[b], b, recovery)
  }

  // The pending bets of these rounds are cancelled and no other bet changes.
  ghost predicate CancelledIn(bets: seq<Bet>, bets': seq<Bet>, targets: set<RoundId>) {
    && |bets'| == |bets|
    && forall b: BetId :: b < |bets| ==>
         bets'[b] == if bets[b].status == Pending && bets[b].round in targets then bets[b].(status := Cancelled, payout := 0) else bets[b]
  }

  // A cancelling transaction commits exactly when every pending bet of its rounds can be refunded, and then
  // cancels exactly those bets.
  lemma CancellingCommitsIff(s: State, targets: set<RoundId>, order: seq<BetId>, recovery: bool, rounds: seq<Round>)
    requires BooksOk(s.bank, s.bets) && ListsPending(s, targets, order)
    ensures RefundEach(Books(s.bank, s.bets), order, recovery).Some? <==> AllRefundable(s, targets, recovery)
    ensures if AllRefundable(s, targets, recovery)
            then CancelTx(s, targets, order, recovery, rounds).rounds == rounds && CancelledIn(s.bets, CancelTx(s, targets, order, recovery, rounds).bets, targets)
            else CancelTx(s, targets, order, recovery, rounds) == s
  {
    ListedBetsArePending(s, targets, order);
    RefundingGoesThroughIff(s.bank, s.bets, order, recovery);
    assert AllListedRefundable(s.bank, s.bets, order, recovery) <==> AllRefundable(s, targets, recovery) by {
      assert forall i :: 0 <= i < |order| ==> order[i] in order;
    }
    if AllRefundable(s, targets, recovery) { RefundingEachKeepsBooks(Books(s.bank, s.bets), order, recovery); }
  }

  // forceStopRound stops the active round exactly when there is one and all its stakes can go back.
  lemma ForceStopTakesEffectIff(c: Config, s: State, order: seq<BetId>)
    requires Inv(c, s)
    requires FindActive(s.rounds).Some? ==> ListsPending(s, {FindActive(s.rounds).value}, order)
    ensures Stopped(s, Step(c, s, ForceStop(order)))
  {
    if FindActive(s.rounds).Some? { StoppingIsExact(s, order); }
  }

  ghost predicate Stopped(s: State, s': State) {
    if FindActive(s.rounds).Some? && AllRefundable(s, {FindActive(s.rounds).value}, false) then
      var r := FindActive(s.rounds).value;
      s'.rounds == s.rounds[r := s.rounds[r].(status := CancelledRound)] && CancelledIn(s.bets, s'.bets, {r})
    else s' == s
  }

  lemma StoppingIsExact(s: State, order: seq<BetId>)
    requires BooksOk(s.bank, s.bets) && FindActive(s.rounds).Some? && ListsPending(s, {FindActive(s.rounds).value}, order)
    ensures Stopped(s, ForceStopTx(s, order))
  {
    var r := FindActive(s.rounds).value;
    CancellingCommitsIff(s, {r}, order, false, s.rounds[r := s.rounds[r].(status := CancelledRound)]);
  }

  // forceStartRound cancels what is active and opens the next round, exactly when all stakes can go back.
  lemma ForceStartTakesEffectIff(c: Config, s: State, seed: Seed, order: seq<BetId>)
    requires Inv(c, s) && ListsPending(s, ActiveRounds(s.rounds), order)
    ensures var s' := Step(c, s, ForceStart(seed, order));
            if AllRefundable(s, ActiveRounds(s.rounds), false) then
              && |s'.rounds| == |s.rounds| + 1
              && s'.rounds[|s.rounds|] == Round(|s.rounds| + 1, Open, None, c.hash(seed), None, seed, None, false)
              && (forall r: RoundId :: r < |s.rounds| ==>
                    s'.rounds[r] == if Active(s.rounds[r].status) then s.rounds[r].(status := CancelledRound) else s.rounds[r])
              && CancelledIn(s.bets, s'.bets, ActiveRounds(s.rounds))
            else s' == s
  {
    forall i | 0 <= i < |s.rounds| ensures s.rounds[i].number == i + 1 { assert RoundOk(c, s.rounds, i); }
    LatestIsCount(s.rounds);
    CancellingCommitsIff(s, ActiveRounds(s.rounds), order, false,
                         CancelActive(s.rounds) + [NewRound(c, LatestNumber(s.rounds) + 1, Open, seed)]);
  }

  // recoverUnresolvableRound cancels its round, and forgets its result, exactly when the round is still
  // active and all its stakes can go back; a refused refund ends the call.
  lemma RecoveryTakesEffectIff(c: Config, s: State, pid: ProcessId, order: seq<BetId>)
    requires Inv(c, s) && ProcessOf(s, pid).Recovering? && ListsPending(s, {ProcessOf(s, pid).round}, order)
    ensures var s' := Step(c, s, RecoverRound(pid, order));
            var r := ProcessOf(s, pid).round;
            && r < |s.rounds|
            && (if !Active(s.rounds[r].status) then s' == s.(processes := s.processes[pid := Numbering])
                else if AllRefundable(s, {r}, true) then
                  && s'.rounds == s.rounds[r := s.rounds[r].(status := CancelledRound, result := None)]
                  && CancelledIn(s.bets, s'.bets, {r}) && ProcessOf(s', pid) == Numbering
                else s' == s.(processes := s.processes[pid := Idle]))
  {
    assert ProcessOk(c, s, ProcessOf(s, pid));
    var r := ProcessOf(s, pid).round;
    CancellingCommitsIff(s, {r}, order, true, s.rounds[r := s.rounds[r].(status := CancelledRound, result := None)]);
  }

  // ---------------------------------------------------------------- resolving

  // With the committed seed, resolving never recovers: it settles with the recorded result, or else the
  // colour the seed draws, and stops only when another call has resolved or cancelled the round meanwhile.
  lemma GoodSeedSettles(c: Config, s: State, pid: ProcessId)
    requires ControlOk(c, s) && ProcessOf(s, pid).Driving?
    requires var copy := ProcessOf(s, pid).copy; copy.status == Locked || copy.status == Resolving
    ensures var copy := ProcessOf(s, pid).copy;
            copy.round < |s.rounds| &&
            var round := s.rounds[copy.round];
            var s' := Step(c, s, ResolveRound(pid, Some(round.secret)));
            var p := ProcessOf(s', pid);
            && (p.Settling? || p == Idle)
            && (p == Idle <==> copy.status == Locked && round.status != Locked)
            && (p.Settling? ==>
                  && p == Settling(copy.round, p.result, round.secret, false, Beginning)
                  && (copy.result.Some? ==> p.result == copy.result.value)
                  && (copy.result.None? ==> Draws(round.hash, p.result)))
            && (p.Settling? && copy.status == Locked ==>
                  s'.rounds == s.rounds[copy.round := round.(status := Resolving, result := Some(p.result), decided := Some(p.result))])
            && (p == Idle || copy.status == Resolving ==> s'.rounds == s.rounds)
  {
    var copy := ProcessOf(s, pid).copy;
    assert ProcessOk(c, s, ProcessOf(s, pid));
    assert RoundOk(c, s.rounds, copy.round);
    ResultIsDrawn(s.rounds[copy.round].hash, ResultOf(s.rounds[copy.round].hash));
  }

  // A forced result is accepted exactly when a round is active and has no other result; the round then is
  // resolving with it.
  lemma ForceResultTakesEffectIff(c: Config, s: State, pid: ProcessId, result: Color)
    requires ProcessOf(s, pid) == Idle
    ensures var s' := Step(c, s, ForceResult(pid, result));
            var active := FindActive(s.rounds);
            if active.Some? && (s.rounds[active.value].result.None? || s.rounds[active.value].result == Some(result)) then
              && |s'.rounds| == |s.rounds|
              && s'.rounds[active.value].status == Resolving && s'.rounds[active.value].result == Some(result)
              && ProcessOf(s', pid) == CheckingSeed(active.value, result, s.rounds[active.value].hash)
            else s' == s
  {
  }
}
