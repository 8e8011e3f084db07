// What every real-money transaction keeps: each pot is explained by bets, withdrawals and deposits, and
// every bet and withdrawal by its ledger rows.
module RealMoneyLaws {
  import opened Types
  import opened RealMoney

  // ---------------------------------------------------------------- sums

  lemma SumAppend(m: Measure, bets: seq<Bet>, bet: Bet)
    ensures Sum(m, bets + [bet]) == Sum(m, bets) + Weight(m, bet)
  {
    assert (bets + [bet])[..|bets|] == bets;
  }

  lemma {:induction false} SumUpdate(m: Measure, bets: seq<Bet>, i: nat, bet: Bet)
    requires i < |bets|
    ensures Sum(m, bets[i := bet]) == Sum(m, bets) - Weight(m, bets[i]) + Weight(m, bet)
  {
    var n := |bets| - 1;
    if i == n {
      assert bets[i := bet][..n] == bets[..n];
    } else {
      assert bets[i := bet][..n] == bets[..n][i := bet];
      SumUpdate(m, bets[..n], i, bet);
    }
  }

  predicate Positive(bets: seq<Bet>) {
    forall i :: 0 <= i < |bets| ==> bets[i].stake > 0 && bets[i].payout >= 0
  }

  predicate Counts(m: Measure) { !m.SpentBy? && !m.WonBy? }

  lemma {:induction false} SumCovers(m: Measure, bets: seq<Bet>, i: nat)
    requires Positive(bets) && Counts(m)
    ensures Sum(m, bets) >= 0
    ensures i < |bets| ==> Sum(m, bets) >= Weight(m, bets[i])
  {
    var n := |bets| - 1;
    if n >= 0 { SumCovers(m, bets[..n], i); }
  }

  lemma {:induction false} SumBelow(m: Measure, m': Measure, bets: seq<Bet>, factor: int)
    requires forall i :: 0 <= i < |bets| ==> Weight(m, bets[i]) <= factor * Weight(m', bets[i])
    ensures Sum(m, bets) <= factor * Sum(m', bets)
  {
    var n := |bets| - 1;
    if n >= 0 {
      SumBelow(m, m', bets[..n], factor);
      assert factor * (Sum(m', bets[..n]) + Weight(m', bets[n])) == factor * Sum(m', bets[..n]) + factor * Weight(m', bets[n]);
    }
  }

  lemma WithdrawalSumAppend(m: WithdrawalMeasure, ws: seq<Withdrawal>, w: Withdrawal)
    ensures WithdrawalSum(m, ws + [w]) == WithdrawalSum(m, ws) + WithdrawalWeight(m, w)
  {
    assert (ws + [w])[..|ws|] == ws;
  }

  lemma {:induction false} WithdrawalSumUpdate(m: WithdrawalMeasure, ws: seq<Withdrawal>, i: nat, w: Withdrawal)
    requires i < |ws|
    ensures WithdrawalSum(m, ws[i := w]) == WithdrawalSum(m, ws) - WithdrawalWeight(m, ws[i]) + WithdrawalWeight(m, w)
  {
    var n := |ws| - 1;
    if i == n {
      assert ws[i := w][..n] == ws[..n];
    } else {
      assert ws[i := w][..n] == ws[..n][i := w];
      WithdrawalSumUpdate(m, ws[..n], i, w);
    }
  }

  lemma {:induction false} WithdrawalSumCovers(m: WithdrawalMeasure, ws: seq<Withdrawal>, i: nat)
    requires forall k :: 0 <= k < |ws| ==> ws[k].amount > 0
    ensures WithdrawalSum(m, ws) >= 0
    ensures i < |ws| ==> WithdrawalSum(m, ws) >= WithdrawalWeight(m, ws[i])
  {
    var n := |ws| - 1;
    if n >= 0 { WithdrawalSumCovers(m, ws[..n], i); }
  }

  lemma RowSumAppend(m: RowMeasure, rows: seq<Row>, row: Row)
    ensures RowSum(m, rows + [row]) == RowSum(m, rows) + RowWeight(m, row)
  {
    assert (rows + [row])[..|rows|] == rows;
  }

  predicate CountsRows(m: RowMeasure) { !m.DepositedBy? }

  lemma {:induction false} RowSumCovers(m: RowMeasure, rows: seq<Row>, i: nat)
    requires CountsRows(m)
    ensures RowSum(m, rows) >= 0
    ensures i < |rows| ==> RowSum(m, rows) >= RowWeight(m, rows[i])
  {
    var n := |rows| - 1;
    if n >= 0 { RowSumCovers(m, rows[..n], i); }
  }

  // A key that one of the counted rows would carry is free while the count is zero.
  lemma FreeWhileUncounted(m: RowMeasure, rows: seq<Row>, key: Key)
    requires CountsRows(m) && RowSum(m, rows) == 0
    requires forall row: Row :: row.key == key ==> RowWeight(m, row) == 1
    ensures !KeyTaken(rows, key)
  {
    if i :| 0 <= i < |rows| && rows[i].key == key { RowSumCovers(m, rows, i); }
  }

  // ---------------------------------------------------------------- the invariant of the books

  // The locked pot is the pending stakes and the open withdrawals; the available pot is the deposits less
  // what bets and withdrawals took.
  ghost predicate Balanced(s: State, u: UserId) {
    var w := WalletOf(s, u);
    && w.locked == Sum(LockedFor(u), s.bets) + WithdrawalSum(HeldFor(u), s.withdrawals)
    && w.available == RowSum(DepositedBy(u), s.ledger) - Sum(SpentBy(u), s.bets) - WithdrawalSum(TakenBy(u), s.withdrawals)
    && w.available >= 0
    && w.version == RowSum(RowsOf(u), s.ledger)
  }

  // One lock row per bet, and one closing row exactly when it is no longer pending.
  ghost predicate BetReceipts(s: State, b: BetId) {
    && RowSum(LockRowsOf(b), s.ledger) == (if b < |s.bets| then 1 else 0)
    && RowSum(ClosingRowsOf(b), s.ledger) == (if b < |s.bets| && s.bets[b].status != Pending then 1 else 0)
  }

  predicate Ended(w: Withdrawal) { w.status == Rejected || w.status == Paid }

  ghost predicate WithdrawalReceipts(s: State, w: WithdrawalId) {
    && RowSum(HoldRowsOf(w), s.ledger) == (if w < |s.withdrawals| then 1 else 0)
    && RowSum(EndRowsOf(w), s.ledger) == (if w < |s.withdrawals| && Ended(s.withdrawals[w]) then 1 else 0)
  }

  predicate BetOk(c: Config, b: Bet) {
    b.stake > 0 && b.payout == if b.status == Won then b.stake * c.multiplier else 0
  }

  ghost predicate BooksOk(c: Config, s: State) {
    && (forall u: UserId :: Balanced(s, u))
    && (forall b: BetId :: BetReceipts(s, b))
    && (forall w: WithdrawalId :: WithdrawalReceipts(s, w))
    && (forall i :: 0 <= i < |s.bets| ==> BetOk(c, s.bets[i]))
    && (forall i :: 0 <= i < |s.withdrawals| ==> s.withdrawals[i].amount > 0)
  }

  predicate ConfigOk(c: Config) { c.multiplier >= 1 && c.roundCap > 0 && c.colorCap > 0 }

  lemma BetsArePositive(c: Config, s: State)
    requires BooksOk(c, s) && ConfigOk(c)
    ensures Positive(s.bets)
  {
    forall i | 0 <= i < |s.bets| ensures s.bets[i].stake > 0 && s.bets[i].payout >= 0 { assert BetOk(c, s.bets[i]); }
  }

  // ---------------------------------------------------------------- one movement

  // What one applied movement does to a user's balance equations, given what the tables did.
  lemma BalancedAfter(s: State, m: Move, bets: seq<Bet>, ws: seq<Withdrawal>, u: UserId)
    requires Apply(s, m).Moved? && Balanced(s, u)
    requires var mine := u == m.user;
             && Sum(LockedFor(u), bets) - Sum(LockedFor(u), s.bets)
                + WithdrawalSum(HeldFor(u), ws) - WithdrawalSum(HeldFor(u), s.withdrawals) == (if mine then m.lockedDelta else 0)
             && Sum(SpentBy(u), s.bets) - Sum(SpentBy(u), bets)
                + WithdrawalSum(TakenBy(u), s.withdrawals) - WithdrawalSum(TakenBy(u), ws)
                + RowWeight(DepositedBy(u), Apply(s, m).row) == (if mine then m.availableDelta else 0)
    ensures Balanced(Apply(s, m).state.(bets := bets, withdrawals := ws), u)
  {
    RowSumAppend(DepositedBy(u), s.ledger, Apply(s, m).row);
    RowSumAppend(RowsOf(u), s.ledger, Apply(s, m).row);
  }

  lemma BetReceiptsAfter(s: State, m: Move, bets: seq<Bet>, ws: seq<Withdrawal>, b: BetId)
    requires Apply(s, m).Moved? && BetReceipts(s, b)
    requires RowWeight(LockRowsOf(b), Apply(s, m).row) == (if b < |bets| then 1 else 0) - (if b < |s.bets| then 1 else 0)
    requires RowWeight(ClosingRowsOf(b), Apply(s, m).row) ==
             (if b < |bets| && bets[b].status != Pending then 1 else 0) - (if b < |s.bets| && s.bets[b].status != Pending then 1 else 0)
    ensures BetReceipts(Apply(s, m).state.(bets := bets, withdrawals := ws), b)
  {
    RowSumAppend(LockRowsOf(b), s.ledger, Apply(s, m).row);
    RowSumAppend(ClosingRowsOf(b), s.ledger, Apply(s, m).row);
  }

  lemma WithdrawalReceiptsAfter(s: State, m: Move, bets: seq<Bet>, ws: seq<Withdrawal>, w: WithdrawalId)
    requires Apply(s, m).Moved? && WithdrawalReceipts(s, w)
    requires RowWeight(HoldRowsOf(w), Apply(s, m).row) == (if w < |ws| then 1 else 0) - (if w < |s.withdrawals| then 1 else 0)
    requires RowWeight(EndRowsOf(w), Apply(s, m).row) ==
             (if w < |ws| && Ended(ws[w]) then 1 else 0) - (if w < |s.withdrawals| && Ended(s.withdrawals[w]) then 1 else 0)
    ensures WithdrawalReceipts(Apply(s, m).state.(bets := bets, withdrawals := ws), w)
  {
    RowSumAppend(HoldRowsOf(w), s.ledger, Apply(s, m).row);
    RowSumAppend(EndRowsOf(w), s.ledger, Apply(s, m).row);
  }

  // ---------------------------------------------------------------- a new bet

  lemma NewBetIsLocked(c: Config, s: State, bet: Bet)
    requires BooksOk(c, s) && bet.stake > 0 && bet.stake <= WalletOf(s, bet.user).available
    ensures Apply(s, LockMove(bet, |s.bets|)).Moved?
  {
    assert BetReceipts(s, |s.bets|) && Balanced(s, bet.user);
    FreeWhileUncounted(LockRowsOf(|s.bets|), s.ledger, BetLock(|s.bets|));
    LockedIsNotNegative(c, s, bet.user);
  }

  lemma LockedIsNotNegative(c: Config, s: State, u: UserId)
    requires BooksOk(c, s)
    ensures Sum(LockedFor(u), s.bets) >= 0 && WithdrawalSum(HeldFor(u), s.withdrawals) >= 0
    ensures WalletOf(s, u).locked >= 0
  {
    StakesAreNotNegative(c, s.bets, u);
    WithdrawalSumCovers(HeldFor(u), s.withdrawals, 0);
    assert Balanced(s, u);
  }

  lemma {:induction false} StakesAreNotNegative(c: Config, bets: seq<Bet>, u: UserId)
    requires forall i :: 0 <= i < |bets| ==> BetOk(c, bets[i])
    ensures Sum(LockedFor(u), bets) >= 0
    ensures forall i :: 0 <= i < |bets| && bets[i].user == u && bets[i].status == Pending ==> Sum(LockedFor(u), bets) >= bets[i].stake
  {
    var n := |bets| - 1;
    if n >= 0 {
      StakesAreNotNegative(c, bets[..n], u);
      assert BetOk(c, bets[n]);
      assert forall i :: 0 <= i < n ==> bets[..n][i] == bets[i];
    }
  }

  lemma NewBetBalances(s: State, bet: Bet, u: UserId)
    requires bet.status == Pending && Balanced(s, u) && Apply(s, LockMove(bet, |s.bets|)).Moved?
    ensures Balanced(Apply(s, LockMove(bet, |s.bets|)).state.(bets := s.bets + [bet]), u)
  {
    SumAppend(LockedFor(u), s.bets, bet);
    SumAppend(SpentBy(u), s.bets, bet);
    BalancedAfter(s, LockMove(bet, |s.bets|), s.bets + [bet], s.withdrawals, u);
  }

  lemma NewBetKeepsBooks(c: Config, s: State, bet: Bet)
    requires BooksOk(c, s) && bet.status == Pending && bet.payout == 0 && bet.stake > 0
    requires Apply(s, LockMove(bet, |s.bets|)).Moved?
    ensures BooksOk(c, Apply(s, LockMove(bet, |s.bets|)).state.(bets := s.bets + [bet]))
  {
    var m := LockMove(bet, |s.bets|);
    var s' := Apply(s, m).state.(bets := s.bets + [bet]);
    forall u: UserId ensures Balanced(s', u) { NewBetBalances(s, bet, u); }
    forall b: BetId ensures BetReceipts(s', b) { BetReceiptsAfter(s, m, s.bets + [bet], s.withdrawals, b); }
    forall w: WithdrawalId ensures WithdrawalReceipts(s', w) { WithdrawalReceiptsAfter(s, m, s.bets + [bet], s.withdrawals, w); }
  }

  // ---------------------------------------------------------------- closing a bet

  // The three ways a pending bet ends.
  predicate Closes(c: Config, bet: Bet, id: BetId, m: Move, after: Bet) {
    || (m == RefundMove(bet, id) && after == bet.(status := Refunded))
    || (exists result :: m == SettleMove(c, bet, id, result) && after == Settled(c, bet, result))
  }

  // A pending bet can always be closed: the balance conflict and the key conflict cannot happen.
  lemma PendingBetCloses(c: Config, s: State, id: BetId, m: Move, after: Bet)
    requires BooksOk(c, s) && ConfigOk(c) && id < |s.bets| && s.bets[id].status == Pending
    requires Closes(c, s.bets[id], id, m, after)
    ensures Apply(s, m).Moved?
  {
    assert BetReceipts(s, id) && Balanced(s, s.bets[id].user) && BetOk(c, s.bets[id]);
    FreeWhileUncounted(ClosingRowsOf(id), s.ledger, m.key);
    LockedIsNotNegative(c, s, s.bets[id].user);
    StakesAreNotNegative(c, s.bets, s.bets[id].user);
    assert m.availableDelta >= 0 && m.lockedDelta == -s.bets[id].stake;
  }

  lemma ClosingBalances(c: Config, s: State, id: BetId, m: Move, after: Bet, u: UserId)
    requires id < |s.bets| && s.bets[id].status == Pending && Closes(c, s.bets[id], id, m, after)
    requires Balanced(s, u) && Apply(s, m).Moved?
    ensures Balanced(Apply(s, m).state.(bets := s.bets[id := after]), u)
  {
    SumUpdate(LockedFor(u), s.bets, id, after);
    SumUpdate(SpentBy(u), s.bets, id, after);
    BalancedAfter(s, m, s.bets[id := after], s.withdrawals, u);
  }

  lemma ClosingKeepsBooks(c: Config, s: State, id: BetId, m: Move, after: Bet)
    requires BooksOk(c, s) && id < |s.bets| && s.bets[id].status == Pending
    requires Closes(c, s.bets[id], id, m, after) && Apply(s, m).Moved?
    ensures BooksOk(c, Apply(s, m).state.(bets := s.bets[id := after]))
  {
    var bets := s.bets[id := after];
    var s' := Apply(s, m).state.(bets := bets);
    assert BetOk(c, s.bets[id]);
    forall u: UserId ensures Balanced(s', u) { ClosingBalances(c, s, id, m, after, u); }
    forall b: BetId ensures BetReceipts(s', b) { BetReceiptsAfter(s, m, bets, s.withdrawals, b); }
    forall w: WithdrawalId ensures WithdrawalReceipts(s', w) { WithdrawalReceiptsAfter(s, m, bets, s.withdrawals, w); }
  }

  // ---------------------------------------------------------------- withdrawals

  lemma RequestIsHeld(c: Config, s: State, w: Withdrawal)
    requires BooksOk(c, s) && w.amount > 0 && w.amount <= WalletOf(s, w.user).available
    ensures Apply(s, HoldMove(w, |s.withdrawals|)).Moved?
  {
    assert WithdrawalReceipts(s, |s.withdrawals|) && Balanced(s, w.user);
    FreeWhileUncounted(HoldRowsOf(|s.withdrawals|), s.ledger, WithdrawalLock(|s.withdrawals|));
    LockedIsNotNegative(c, s, w.user);
  }

  lemma RequestKeepsBooks(c: Config, s: State, w: Withdrawal)
    requires BooksOk(c, s) && w.status == Requested && w.amount > 0
    requires Apply(s, HoldMove(w, |s.withdrawals|)).Moved?
    ensures BooksOk(c, Apply(s, HoldMove(w, |s.withdrawals|)).state.(withdrawals := s.withdrawals + [w]))
  {
    var m, ws := HoldMove(w, |s.withdrawals|), s.withdrawals + [w];
    var s' := Apply(s, m).state.(withdrawals := ws);
    forall u: UserId ensures Balanced(s', u) {
      WithdrawalSumAppend(HeldFor(u), s.withdrawals, w);
      WithdrawalSumAppend(TakenBy(u), s.withdrawals, w);
      BalancedAfter(s, m, s.bets, ws, u);
    }
    forall b: BetId ensures BetReceipts(s', b) { BetReceiptsAfter(s, m, s.bets, ws, b); }
    forall x: WithdrawalId ensures WithdrawalReceipts(s', x) { WithdrawalReceiptsAfter(s, m, s.bets, ws, x); }
  }

  // A decision that moves money: the status and the movement belong together.
  predicate Ends(w: Withdrawal, id: WithdrawalId, m: Move, after: Withdrawal) {
    || (m == ReleaseMove(w, id) && after == w.(status := Rejected))
    || (m == PayMove(w, id) && after == w.(status := Paid))
  }

  lemma OpenWithdrawalEnds(c: Config, s: State, id: WithdrawalId, m: Move, after: Withdrawal)
    requires BooksOk(c, s) && id < |s.withdrawals| && !Ended(s.withdrawals[id])
    requires Ends(s.withdrawals[id], id, m, after)
    ensures Apply(s, m).Moved?
  {
    assert WithdrawalReceipts(s, id) && Balanced(s, s.withdrawals[id].user);
    FreeWhileUncounted(EndRowsOf(id), s.ledger, m.key);
    LockedIsNotNegative(c, s, s.withdrawals[id].user);
    WithdrawalSumCovers(HeldFor(s.withdrawals[id].user), s.withdrawals, id);
  }

  lemma EndingBalances(s: State, id: WithdrawalId, m: Move, after: Withdrawal, u: UserId)
    requires id < |s.withdrawals| && !Ended(s.withdrawals[id]) && Ends(s.withdrawals[id], id, m, after)
    requires Balanced(s, u) && Apply(s, m).Moved?
    ensures Balanced(Apply(s, m).state.(withdrawals := s.withdrawals[id := after]), u)
  {
    WithdrawalSumUpdate(HeldFor(u), s.withdrawals, id, after);
    WithdrawalSumUpdate(TakenBy(u), s.withdrawals, id, after);
    BalancedAfter(s, m, s.bets, s.withdrawals[id := after], u);
  }

  lemma EndingKeepsBooks(c: Config, s: State, id: WithdrawalId, m: Move, after: Withdrawal)
    requires BooksOk(c, s) && id < |s.withdrawals| && !Ended(s.withdrawals[id])
    requires Ends(s.withdrawals[id], id, m, after) && Apply(s, m).Moved?
    ensures BooksOk(c, Apply(s, m).state.(withdrawals := s.withdrawals[id := after]))
  {
    var ws := s.withdrawals[id := after];
    var s' := Apply(s, m).state.(withdrawals := ws);
    forall u: UserId ensures Balanced(s', u) { EndingBalances(s, id, m, after, u); }
    forall b: BetId ensures BetReceipts(s', b) { BetReceiptsAfter(s, m, s.bets, ws, b); }
    forall x: WithdrawalId ensures WithdrawalReceipts(s', x) { WithdrawalReceiptsAfter(s, m, s.bets, ws, x); }
  }

  lemma ApprovingKeepsBooks(c: Config, s: State, id: WithdrawalId)
    requires BooksOk(c, s) && id < |s.withdrawals| && s.withdrawals[id].status == Requested
    ensures BooksOk(c, s.(withdrawals := s.withdrawals[id := s.withdrawals[id].(status := Approved)]))
  {
    var after := s.withdrawals[id].(status := Approved);
    var s' := s.(withdrawals := s.withdrawals[id := after]);
    forall u: UserId ensures Balanced(s', u) {
      assert Balanced(s, u);
      WithdrawalSumUpdate(HeldFor(u), s.withdrawals, id, after);
      WithdrawalSumUpdate(TakenBy(u), s.withdrawals, id, after);
    }
    forall b: BetId ensures BetReceipts(s', b) { assert BetReceipts(s, b); }
    forall x: WithdrawalId ensures WithdrawalReceipts(s', x) { assert WithdrawalReceipts(s, x); }
  }

  // ---------------------------------------------------------------- deposits and the rest

  lemma DepositKeepsBooks(c: Config, s: State, user: UserId, amount: int, event: EventId)
    requires BooksOk(c, s) && Apply(s, DepositMove(user, amount, event)).Moved?
    ensures BooksOk(c, Apply(s, DepositMove(user, amount, event)).state)
  {
    var m := DepositMove(user, amount, event);
    var s' := Apply(s, m).state;
    assert s' == s'.(bets := s.bets, withdrawals := s.withdrawals);
    forall u: UserId ensures Balanced(s', u) { BalancedAfter(s, m, s.bets, s.withdrawals, u); }
    forall b: BetId ensures BetReceipts(s', b) { BetReceiptsAfter(s, m, s.bets, s.withdrawals, b); }
    forall w: WithdrawalId ensures WithdrawalReceipts(s', w) { WithdrawalReceiptsAfter(s, m, s.bets, s.withdrawals, w); }
  }

  lemma SameMoneySameBooks(c: Config, s: State, s': State)
    requires BooksOk(c, s) && s'.ledger == s.ledger && s'.bets == s.bets && s'.withdrawals == s.withdrawals
    requires forall u: UserId :: WalletOf(s', u) == WalletOf(s, u).(frozen := WalletOf(s', u).frozen)
    ensures BooksOk(c, s')
  {
    forall u: UserId ensures Balanced(s', u) { assert Balanced(s, u); }
    forall b: BetId ensures BetReceipts(s', b) { assert BetReceipts(s, b); }
    forall w: WithdrawalId ensures WithdrawalReceipts(s', w) { assert WithdrawalReceipts(s, w); }
  }
}
