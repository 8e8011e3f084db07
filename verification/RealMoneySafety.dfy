// The invariant of the real-money sandbox and what it means for every run.
module RealMoneySafety {
  import opened Types
  import opened RealMoney
  import opened RealMoneyLaws

  // ---------------------------------------------------------------- rounds and caps

  ghost predicate BetPlaced(s: State, b: Bet) {
    && (b.round in s.open || b.round in s.closed)
    && (b.round in s.open && b.round !in s.early ==> b.status == Pending || b.status == Refunded)
    && (b.status == Won ==> b.round in s.settlements && b.choice == s.settlements[b.round].result)
    && (b.status == Lost ==> b.round in s.settlements && b.choice != s.settlements[b.round].result)
  }

  // The caps count what is pending; they bound what a round pays unless it was settled while it took bets.
  ghost predicate CapsOk(c: Config, bets: seq<Bet>, early: set<RoundId>) {
    && (forall r: RoundId :: Sum(PendingIn(r), bets) <= c.roundCap)
    && (forall r: RoundId, k: Color :: r !in early ==> Sum(LiveOn(r, k), bets) <= c.colorCap)
  }

  ghost predicate RoundsOk(c: Config, s: State) {
    && s.open !! s.closed
    && (forall i :: 0 <= i < |s.bets| ==> BetPlaced(s, s.bets[i]))
    && (forall r :: r in s.settlements && s.settlements[r].status == Success && r !in s.early ==>
          r in s.closed && Sum(CountPending(r), s.bets) == 0)
    && CapsOk(c, s.bets, s.early)
  }

  ghost predicate KeysUnique(s: State) {
    && (forall i, j :: 0 <= i < j < |s.bets| ==> s.bets[i].clientKey != s.bets[j].clientKey)
    && (forall i, j :: 0 <= i < j < |s.withdrawals| ==> s.withdrawals[i].clientKey != s.withdrawals[j].clientKey)
    && (forall i, j :: 0 <= i < j < |s.ledger| ==> s.ledger[i].key != s.ledger[j].key)
  }

  ghost predicate Inv(c: Config, s: State) { BooksOk(c, s) && RoundsOk(c, s) && KeysUnique(s) }

  lemma {:induction false} SumLe(m: Measure, bets: seq<Bet>, bets': seq<Bet>)
    requires |bets'| == |bets| && forall i :: 0 <= i < |bets| ==> Weight(m, bets'[i]) <= Weight(m, bets[i])
    ensures Sum(m, bets') <= Sum(m, bets)
  {
    var n := |bets| - 1;
    if n >= 0 { SumLe(m, bets[..n], bets'[..n]); }
  }

  // Bets that changed went from pending to an end, and kept what was bet.
  ghost predicate OnlyPendingEnd(bets: seq<Bet>, bets': seq<Bet>) {
    && |bets'| == |bets|
    && forall i :: 0 <= i < |bets| ==>
         bets'[i] == bets[i] ||
         (bets[i].status == Pending && bets'[i].status != Pending &&
          bets'[i] == bets[i].(status := bets'[i].status, payout := bets'[i].payout))
  }

  lemma CapsSurvive(c: Config, bets: seq<Bet>, early: set<RoundId>, bets': seq<Bet>, early': set<RoundId>)
    requires CapsOk(c, bets, early) && OnlyPendingEnd(bets, bets') && Positive(bets) && early <= early'
    ensures CapsOk(c, bets', early')
  {
    forall r: RoundId ensures Sum(PendingIn(r), bets') <= c.roundCap { SumLe(PendingIn(r), bets, bets'); }
    forall r: RoundId, k: Color | r !in early' ensures Sum(LiveOn(r, k), bets') <= c.colorCap { SumLe(LiveOn(r, k), bets, bets'); }
  }

  lemma PendingCountFalls(bets: seq<Bet>, bets': seq<Bet>, r: RoundId)
    requires OnlyPendingEnd(bets, bets') && Positive(bets) && Positive(bets') && Sum(CountPending(r), bets) == 0
    ensures Sum(CountPending(r), bets') == 0
  {
    SumLe(CountPending(r), bets, bets');
    SumCovers(CountPending(r), bets', 0);
  }

  // ---------------------------------------------------------------- the settlement loop

  // What the loop leaves of the bets below n.
  function DecidedBelow(c: Config, bets: seq<Bet>, r: RoundId, result: Color, n: nat): seq<Bet> {
    seq(|bets|, i requires 0 <= i < |bets| =>
      if i < n && bets[i].round == r && bets[i].status == Pending then Settled(c, bets[i], result) else bets[i])
  }

  ghost predicate SameElse(s: State, t: State) {
    && t.withdrawals == s.withdrawals && t.settlements == s.settlements && t.audit == s.audit
    && t.open == s.open && t.closed == s.closed && t.early == s.early && t.calls == s.calls
  }

  lemma SettlingOneWorks(c: Config, s: State, id: BetId, result: Color)
    requires BooksOk(c, s) && ConfigOk(c) && id < |s.bets| && s.bets[id].status == Pending
    ensures var t := SettleOne(c, s, id, result);
            t.Some? && BooksOk(c, t.value) && SameElse(s, t.value) && t.value.bets == s.bets[id := Settled(c, s.bets[id], result)]
  {
    var m, after := SettleMove(c, s.bets[id], id, result), Settled(c, s.bets[id], result);
    assert Closes(c, s.bets[id], id, m, after);
    PendingBetCloses(c, s, id, m, after);
    ClosingKeepsBooks(c, s, id, m, after);
  }

  // The loop never stops on an error: no balance conflict, no key conflict.
  lemma {:induction false} SettlingWorks(c: Config, s: State, r: RoundId, result: Color, n: nat)
    requires BooksOk(c, s) && ConfigOk(c) && n <= |s.bets|
    ensures var t := SettleBelow(c, s, r, result, n);
            t.Some? && BooksOk(c, t.value) && SameElse(s, t.value) && t.value.bets == DecidedBelow(c, s.bets, r, result, n)
  {
    if n > 0 {
      SettlingWorks(c, s, r, result, n - 1);
      var earlier := SettleBelow(c, s, r, result, n - 1).value;
      if s.bets[n - 1].round == r && s.bets[n - 1].status == Pending {
        SettlingOneWorks(c, earlier, n - 1, result);
      }
    }
  }

  lemma SettlementSucceedsIff(c: Config, s: State, r: RoundId, result: Color)
    requires BooksOk(c, s) && ConfigOk(c)
    ensures SettleTx(c, s, r, result).None? <==>
              r in s.settlements && s.settlements[r].status == Failed && s.settlements[r].result != result
    ensures SettleTx(c, s, r, result).Some? && !(r in s.settlements && s.settlements[r].status == Success) ==>
              var t := SettleTx(c, s, r, result).value;
              && BooksOk(c, t)
              && t.bets == DecidedBelow(c, s.bets, r, result, |s.bets|)
              && t.settlements == s.settlements[r := Settlement(result, Success, Sum(CountPending(r), s.bets), PayoutOf(c, s.bets, r, result))]
              && t.withdrawals == s.withdrawals && t.audit == s.audit
              && t.open == s.open && t.closed == s.closed && t.early == s.early && t.calls == s.calls
  {
    SettlingWorks(c, s, r, result, |s.bets|);
    if SettleTx(c, s, r, result).Some? && !(r in s.settlements && s.settlements[r].status == Success) {
      var settled := SettleBelow(c, s, r, result, |s.bets|).value;
      SameMoneySameBooks(c, settled, SettleTx(c, s, r, result).value);
    }
  }

  lemma DecidingEndsPending(c: Config, bets: seq<Bet>, r: RoundId, result: Color)
    requires ConfigOk(c) && Positive(bets)
    ensures var bets' := DecidedBelow(c, bets, r, result, |bets|);
            OnlyPendingEnd(bets, bets') && Positive(bets') && Sum(CountPending(r), bets') == 0
  {
    var bets' := DecidedBelow(c, bets, r, result, |bets|);
    forall i | 0 <= i < |bets'| ensures bets'[i].stake > 0 && bets'[i].payout >= 0 {}
    NoneCounted(CountPending(r), bets');
  }

  lemma {:induction false} NoneCounted(m: Measure, bets: seq<Bet>)
    requires forall i :: 0 <= i < |bets| ==> Weight(m, bets[i]) == 0
    ensures Sum(m, bets) == 0
  {
    if |bets| > 0 { NoneCounted(m, bets[..|bets| - 1]); }
  }

  lemma SettlingKeepsRounds(c: Config, s: State, t: State, r: RoundId, result: Color)
    requires RoundsOk(c, s) && ConfigOk(c) && Positive(s.bets)
    requires t.early == (if r in s.closed then s.early else s.early + {r})
    requires r in s.settlements ==> s.settlements[r].result == result
    requires t.bets == DecidedBelow(c, s.bets, r, result, |s.bets|) && t.open == s.open && t.closed == s.closed
    requires r in t.settlements && t.settlements == s.settlements[r := t.settlements[r]] && t.settlements[r].result == result
    ensures RoundsOk(c, t)
  {
    DecidingEndsPending(c, s.bets, r, result);
    CapsSurvive(c, s.bets, s.early, t.bets, t.early);
    forall i | 0 <= i < |t.bets| ensures BetPlaced(t, t.bets[i]) { assert BetPlaced(s, s.bets[i]); }
    forall q | q in t.settlements && t.settlements[q].status == Success && q !in t.early
      ensures q in t.closed && Sum(CountPending(q), t.bets) == 0
    {
      if q != r { PendingCountFalls(s.bets, t.bets, q); }
    }
  }

  lemma EndingKeepsKeys(s: State, t: State)
    requires KeysUnique(s) && OnlyPendingEnd(s.bets, t.bets) && t.withdrawals == s.withdrawals
    requires forall i, j :: 0 <= i < j < |t.ledger| ==> t.ledger[i].key != t.ledger[j].key
    ensures KeysUnique(t)
  {
  }

  ghost predicate LedgerUnique(ledger: seq<Row>) {
    forall i, j :: 0 <= i < j < |ledger| ==> ledger[i].key != ledger[j].key
  }

  lemma ApplyKeepsUnique(s: State, m: Move)
    requires LedgerUnique(s.ledger) && Apply(s, m).Moved?
    ensures LedgerUnique(Apply(s, m).state.ledger)
  {
  }

  lemma {:induction false} SettlingKeepsUnique(c: Config, s: State, r: RoundId, result: Color, n: nat)
    requires LedgerUnique(s.ledger) && n <= |s.bets| && SettleBelow(c, s, r, result, n).Some?
    ensures LedgerUnique(SettleBelow(c, s, r, result, n).value.ledger)
  {
    if n > 0 {
      SettlingKeepsUnique(c, s, r, result, n - 1);
      var earlier := SettleBelow(c, s, r, result, n - 1).value;
      if s.bets[n - 1].round == r && s.bets[n - 1].status == Pending {
        ApplyKeepsUnique(earlier, SettleMove(c, earlier.bets[n - 1], n - 1, result));
      }
    }
  }

  lemma SameCallsAside(c: Config, s: State, t: State)
    requires Inv(c, s) && t == s.(calls := t.calls)
    ensures Inv(c, t)
  {
    SameMoneySameBooks(c, s, t);
    RoundsUntouched(c, s, t);
  }

  lemma FailingKeepsInv(c: Config, s: State, r: RoundId, result: Color)
    requires Inv(c, s) && ConfigOk(c)
    ensures Inv(c, FailTx(s, r, result))
  {
    var t := FailTx(s, r, result);
    SameMoneySameBooks(c, s, t);
    forall i | 0 <= i < |t.bets| ensures BetPlaced(t, t.bets[i]) { assert BetPlaced(s, s.bets[i]); }
  }

  lemma SettleKeepsInv(c: Config, s: State, r: RoundId, result: Color)
    requires Inv(c, s) && ConfigOk(c)
    ensures SettleTx(c, s, r, result).Some? ==>
              Inv(c, SettleTx(c, s, r, result).value.(early := if r in s.closed then s.early else s.early + {r}))
  {
    SettlementSucceedsIff(c, s, r, result);
    if SettleTx(c, s, r, result).Some? {
      var early := if r in s.closed then s.early else s.early + {r};
      if r in s.settlements && s.settlements[r].status == Success {
        MarkingEarlyKeepsInv(c, s, early);
      } else {
        var t := SettleTx(c, s, r, result).value;
        BetsArePositive(c, s);
        SettlingKeepsRounds(c, s, t.(early := early), r, result);
        SettlingKeepsUnique(c, s, r, result, |s.bets|);
        DecidingEndsPending(c, s.bets, r, result);
        EndingKeepsKeys(s, t);
        SameMoneySameBooks(c, t, t.(early := early));
      }
    }
  }

  lemma MarkingEarlyKeepsInv(c: Config, s: State, early: set<RoundId>)
    requires Inv(c, s) && s.early <= early
    ensures Inv(c, s.(early := early))
  {
    var t := s.(early := early);
    SameMoneySameBooks(c, s, t);
    forall i | 0 <= i < |t.bets| ensures BetPlaced(t, t.bets[i]) { assert BetPlaced(s, s.bets[i]); }
  }

  lemma SettleStepKeepsInv(c: Config, s: State, call: CallId)
    requires Inv(c, s) && ConfigOk(c)
    ensures Inv(c, SettleStep(c, s, call))
  {
    match CallOf(s, call)
    case Some(Running(r, result)) =>
      SettleKeepsInv(c, s, r, result);
      var t := SettleTx(c, s, r, result);
      if t.None? {
        SameCallsAside(c, s, SettleStep(c, s, call));
      } else {
        SameCallsAside(c, t.value.(early := if r in s.closed then s.early else s.early + {r}), SettleStep(c, s, call));
      }
    case _ =>
  }

  lemma FailStepKeepsInv(c: Config, s: State, call: CallId)
    requires Inv(c, s) && ConfigOk(c)
    ensures Inv(c, FailStep(s, call))
  {
    match CallOf(s, call)
    case Some(Failing(r, result)) =>
      FailingKeepsInv(c, s, r, result);
      SameCallsAside(c, FailTx(s, r, result), FailStep(s, call));
    case _ =>
  }

  // ---------------------------------------------------------------- refunds

  ghost predicate DistinctPending(bets: seq<Bet>, order: seq<BetId>) {
    && (forall i, j :: 0 <= i < j < |order| ==> order[i] != order[j])
    && (forall i :: 0 <= i < |order| ==> order[i] < |bets| && bets[order[i]].status == Pending)
  }

  ghost predicate RefundsExactly(bets: seq<Bet>, bets': seq<Bet>, order: seq<BetId>) {
    && |bets'| == |bets|
    && forall b: BetId :: b < |bets| ==> bets'[b] == (if b in order then bets[b].(status := Refunded) else bets[b])
  }

  lemma RefundingOneWorks(c: Config, s: State, id: BetId)
    requires BooksOk(c, s) && ConfigOk(c) && id < |s.bets| && s.bets[id].status == Pending
    ensures var t := RefundOne(s, id);
            t.Some? && BooksOk(c, t.value) && SameElse(s, t.value) && t.value.bets == s.bets[id := s.bets[id].(status := Refunded)]
    ensures LedgerUnique(s.ledger) ==> LedgerUnique(RefundOne(s, id).value.ledger)
  {
    var m, after := RefundMove(s.bets[id], id), s.bets[id].(status := Refunded);
    assert Closes(c, s.bets[id], id, m, after);
    PendingBetCloses(c, s, id, m, after);
    ClosingKeepsBooks(c, s, id, m, after);
    if LedgerUnique(s.ledger) { ApplyKeepsUnique(s, m); }
  }

  lemma RefundOneMore(bets: seq<Bet>, earlier: seq<Bet>, order: seq<BetId>, id: BetId)
    requires RefundsExactly(bets, earlier, order) && id < |bets| && DistinctPending(bets, order + [id])
    ensures earlier[id] == bets[id]
    ensures RefundsExactly(bets, earlier[id := bets[id].(status := Refunded)], order + [id])
  {
    var all := order + [id];
    assert all[|order|] == id;
    forall i | 0 <= i < |order| ensures order[i] != id { assert all[i] == order[i]; }
  }

  lemma {:induction false} RefundingWorks(c: Config, s: State, order: seq<BetId>)
    requires BooksOk(c, s) && ConfigOk(c) && LedgerUnique(s.ledger) && DistinctPending(s.bets, order)
    ensures var t := RefundEach(s, order);
            && t.Some? && BooksOk(c, t.value) && SameElse(s, t.value) && LedgerUnique(t.value.ledger)
            && RefundsExactly(s.bets, t.value.bets, order)
  {
    if |order| > 0 {
      var prefix, last := order[..|order| - 1], order[|order| - 1];
      assert order == prefix + [last];
      assert DistinctPending(s.bets, prefix);
      RefundingWorks(c, s, prefix);
      var earlier := RefundEach(s, prefix).value;
      RefundOneMore(s.bets, earlier.bets, prefix, last);
      RefundingOneWorks(c, earlier, last);
    }
  }

  lemma RefundingEndsPending(bets: seq<Bet>, bets': seq<Bet>, order: seq<BetId>)
    requires RefundsExactly(bets, bets', order) && DistinctPending(bets, order)
    ensures OnlyPendingEnd(bets, bets')
  {
    forall i | 0 <= i < |bets| && bets'[i] != bets[i]
      ensures bets[i].status == Pending && bets'[i] == bets[i].(status := Refunded)
    {
      assert i in order;
      var k :| 0 <= k < |order| && order[k] == i;
    }
  }

  lemma RefundKeepsRounds(c: Config, s: State, t: State, order: seq<BetId>)
    requires RoundsOk(c, s) && Positive(s.bets) && Positive(t.bets) && SameElse(s, t)
    requires OnlyPendingEnd(s.bets, t.bets) && RefundsExactly(s.bets, t.bets, order)
    ensures RoundsOk(c, t)
  {
    CapsSurvive(c, s.bets, s.early, t.bets, t.early);
    forall i | 0 <= i < |t.bets| ensures BetPlaced(t, t.bets[i]) { assert BetPlaced(s, s.bets[i]); }
    forall q | q in t.settlements && t.settlements[q].status == Success && q !in t.early
      ensures q in t.closed && Sum(CountPending(q), t.bets) == 0
    {
      PendingCountFalls(s.bets, t.bets, q);
    }
  }

  lemma RefundKeepsInv(c: Config, s: State, r: RoundId, order: seq<BetId>)
    requires Inv(c, s) && ConfigOk(c)
    ensures Inv(c, RefundTx(s, r, order))
    ensures ListsPending(s, r, order) ==> RefundEach(s, order).Some?
  {
    if ListsPending(s, r, order) {
      RefundingWorks(c, s, order);
      var t := RefundTx(s, r, order);
      RefundingEndsPending(s.bets, t.bets, order);
      BetsArePositive(c, s);
      BetsArePositive(c, t);
      RefundKeepsRounds(c, s, t, order);
      EndingKeepsKeys(s, t);
    }
  }

  // ---------------------------------------------------------------- bets, withdrawals, deposits

  lemma PlaceBetAddsOrNothing(c: Config, s: State, user: UserId, r: RoundId, choice: Color, stake: int, clientKey: string, beforeLock: bool)
    requires Inv(c, s)
    ensures var s' := PlaceBetTx(c, s, user, r, choice, stake, clientKey, beforeLock);
            var bet := Bet(user, r, choice, stake, clientKey, Pending, 0);
            s' != s <==>
              && 0 < stake <= c.betCap && r in s.open && beforeLock
              && Sum(PendingIn(r), s.bets) + stake <= c.roundCap && Sum(PendingOn(r, choice), s.bets) + stake <= c.colorCap
              && !WalletOf(s, user).frozen && stake <= WalletOf(s, user).available && !BetKeyUsed(s.bets, clientKey)
    ensures var s' := PlaceBetTx(c, s, user, r, choice, stake, clientKey, beforeLock);
            var bet := Bet(user, r, choice, stake, clientKey, Pending, 0);
            s' != s ==> Apply(s, LockMove(bet, |s.bets|)).Moved? && s' == Apply(s, LockMove(bet, |s.bets|)).state.(bets := s.bets + [bet])
  {
    var bet := Bet(user, r, choice, stake, clientKey, Pending, 0);
    if 0 < stake <= WalletOf(s, user).available { NewBetIsLocked(c, s, bet); }
    assert |s.bets + [bet]| != |s.bets|;
  }

  // While a round is open and nobody settled it, all its stakes are still pending, so the cap on pending
  // stakes caps them all.
  lemma OpenRoundIsAllPending(c: Config, s: State, r: RoundId, k: Color)
    requires RoundsOk(c, s) && r in s.open && r !in s.early
    ensures Sum(LiveOn(r, k), s.bets) == Sum(PendingOn(r, k), s.bets)
  {
    forall i | 0 <= i < |s.bets| ensures Weight(LiveOn(r, k), s.bets[i]) == Weight(PendingOn(r, k), s.bets[i]) {
      assert BetPlaced(s, s.bets[i]);
    }
    SumBelow(LiveOn(r, k), PendingOn(r, k), s.bets, 1);
    SumBelow(PendingOn(r, k), LiveOn(r, k), s.bets, 1);
  }

  lemma NewBetKeepsRounds(c: Config, s: State, t: State, bet: Bet)
    requires RoundsOk(c, s) && bet.status == Pending && bet.round in s.open
    requires Sum(PendingIn(bet.round), s.bets) + bet.stake <= c.roundCap
    requires Sum(PendingOn(bet.round, bet.choice), s.bets) + bet.stake <= c.colorCap
    requires t.bets == s.bets + [bet] && t.open == s.open && t.closed == s.closed && t.settlements == s.settlements && t.early == s.early
    ensures RoundsOk(c, t)
  {
    if bet.round !in s.early { OpenRoundIsAllPending(c, s, bet.round, bet.choice); }
    forall r: RoundId ensures Sum(PendingIn(r), t.bets) <= c.roundCap { SumAppend(PendingIn(r), s.bets, bet); }
    forall r: RoundId, k: Color | r !in t.early ensures Sum(LiveOn(r, k), t.bets) <= c.colorCap { SumAppend(LiveOn(r, k), s.bets, bet); }
    forall i | 0 <= i < |t.bets| ensures BetPlaced(t, t.bets[i]) { if i < |s.bets| { assert BetPlaced(s, s.bets[i]); } }
    forall r | r in t.settlements && t.settlements[r].status == Success && r !in t.early
      ensures r in t.closed && Sum(CountPending(r), t.bets) == 0
    {
      SumAppend(CountPending(r), s.bets, bet);
    }
  }

  lemma PlaceBetKeepsInv(c: Config, s: State, user: UserId, r: RoundId, choice: Color, stake: int, clientKey: string, beforeLock: bool)
    requires Inv(c, s)
    ensures Inv(c, PlaceBetTx(c, s, user, r, choice, stake, clientKey, beforeLock))
  {
    var s' := PlaceBetTx(c, s, user, r, choice, stake, clientKey, beforeLock);
    PlaceBetAddsOrNothing(c, s, user, r, choice, stake, clientKey, beforeLock);
    if s' != s {
      var bet := Bet(user, r, choice, stake, clientKey, Pending, 0);
      NewBetKeepsBooks(c, s, bet);
      NewBetKeepsRounds(c, s, s', bet);
      ApplyKeepsUnique(s, LockMove(bet, |s.bets|));
    }
  }

  lemma RequestAddsOrNothing(c: Config, s: State, user: UserId, amount: int, clientKey: string)
    requires Inv(c, s)
    ensures var s' := RequestTx(c, s, user, amount, clientKey);
            s' != s <==> 0 < c.minWithdrawal <= amount <= c.maxWithdrawal && amount <= WalletOf(s, user).available &&
                         !WithdrawalKeyUsed(s.withdrawals, clientKey)
    ensures var s' := RequestTx(c, s, user, amount, clientKey);
            var w := Withdrawal(user, amount, clientKey, Requested);
            s' != s ==> Apply(s, HoldMove(w, |s.withdrawals|)).Moved? &&
                        s' == Apply(s, HoldMove(w, |s.withdrawals|)).state.(withdrawals := s.withdrawals + [w])
  {
    var w := Withdrawal(user, amount, clientKey, Requested);
    if 0 < amount <= WalletOf(s, user).available { RequestIsHeld(c, s, w); }
    assert |s.withdrawals + [w]| != |s.withdrawals|;
  }

  lemma RoundsUntouched(c: Config, s: State, t: State)
    requires RoundsOk(c, s) && t.bets == s.bets && t.open == s.open && t.closed == s.closed
    requires t.settlements == s.settlements && t.early == s.early
    ensures RoundsOk(c, t)
  {
    forall i | 0 <= i < |t.bets| ensures BetPlaced(t, t.bets[i]) { assert BetPlaced(s, s.bets[i]); }
  }

  lemma RequestKeepsInv(c: Config, s: State, user: UserId, amount: int, clientKey: string)
    requires Inv(c, s)
    ensures Inv(c, RequestTx(c, s, user, amount, clientKey))
  {
    var s' := RequestTx(c, s, user, amount, clientKey);
    RequestAddsOrNothing(c, s, user, amount, clientKey);
    if s' != s {
      var w := Withdrawal(user, amount, clientKey, Requested);
      RequestKeepsBooks(c, s, w);
      RoundsUntouched(c, s, s');
      ApplyKeepsUnique(s, HoldMove(w, |s.withdrawals|));
    }
  }

  // A decision that is a valid transition always goes through: its movement cannot be refused.
  lemma DecisionTakesEffectIff(c: Config, s: State, id: WithdrawalId, decision: Decision, auditKey: string)
    requires Inv(c, s) && id < |s.withdrawals| && auditKey !in s.audit
    ensures var s' := DecideTx(s, id, decision, auditKey);
            var next := NextStatus(s.withdrawals[id].status, decision);
            && (next.Invalid? ==> s' == s)
            && (next.Goes? ==> s'.withdrawals == s.withdrawals[id := s.withdrawals[id].(status := next.status)] && s'.audit == s.audit + {auditKey})
  {
    var w := s.withdrawals[id];
    if NextStatus(w.status, decision).Goes? {
      if decision == Reject { OpenWithdrawalEnds(c, s, id, ReleaseMove(w, id), w.(status := Rejected)); }
      if decision == MarkPaid { OpenWithdrawalEnds(c, s, id, PayMove(w, id), w.(status := Paid)); }
    }
  }

  lemma EndKeepsInv(c: Config, s: State, id: WithdrawalId, m: Move, after: Withdrawal, auditKey: string)
    requires Inv(c, s) && id < |s.withdrawals| && !Ended(s.withdrawals[id]) && Ends(s.withdrawals[id], id, m, after)
    ensures Apply(s, m).Moved?
    ensures var t := Apply(s, m).state;
            Inv(c, s.(wallets := t.wallets, ledger := t.ledger, withdrawals := s.withdrawals[id := after], audit := s.audit + {auditKey}))
  {
    OpenWithdrawalEnds(c, s, id, m, after);
    EndingKeepsBooks(c, s, id, m, after);
    var t := Apply(s, m).state.(withdrawals := s.withdrawals[id := after]);
    var s' := s.(wallets := t.wallets, ledger := t.ledger, withdrawals := t.withdrawals, audit := s.audit + {auditKey});
    SameMoneySameBooks(c, t, s');
    RoundsUntouched(c, s, s');
    ApplyKeepsUnique(s, m);
  }

  lemma DecideKeepsInv(c: Config, s: State, id: WithdrawalId, decision: Decision, auditKey: string)
    requires Inv(c, s)
    ensures Inv(c, DecideTx(s, id, decision, auditKey))
  {
    if auditKey !in s.audit && id < |s.withdrawals| && NextStatus(s.withdrawals[id].status, decision).Goes? {
      var w := s.withdrawals[id];
      match decision
      case Reject => EndKeepsInv(c, s, id, ReleaseMove(w, id), w.(status := Rejected), auditKey);
      case MarkPaid => EndKeepsInv(c, s, id, PayMove(w, id), w.(status := Paid), auditKey);
      case Approve =>
        ApprovingKeepsBooks(c, s, id);
        var t := s.(withdrawals := s.withdrawals[id := w.(status := Approved)]);
        SameMoneySameBooks(c, t, DecideTx(s, id, decision, auditKey));
        RoundsUntouched(c, s, DecideTx(s, id, decision, auditKey));
    }
  }

  lemma DepositKeepsInv(c: Config, s: State, user: UserId, amount: int, event: EventId)
    requires Inv(c, s) && Apply(s, DepositMove(user, amount, event)).Moved?
    ensures Inv(c, Apply(s, DepositMove(user, amount, event)).state)
  {
    DepositKeepsBooks(c, s, user, amount, event);
    RoundsUntouched(c, s, Apply(s, DepositMove(user, amount, event)).state);
    ApplyKeepsUnique(s, DepositMove(user, amount, event));
  }

  lemma PhaseKeepsInv(c: Config, s: State, r: RoundId, opens: bool)
    requires Inv(c, s)
    ensures Inv(c, Step(c, s, if opens then OpenRound(r) else CloseRound(r)))
  {
    var s' := Step(c, s, if opens then OpenRound(r) else CloseRound(r));
    SameMoneySameBooks(c, s, s');
    forall i | 0 <= i < |s'.bets| ensures BetPlaced(s', s'.bets[i]) { assert BetPlaced(s, s.bets[i]); }
    if opens && r !in s.closed { NothingBetYet(c, s, s', r); }
  }

  lemma NothingBetYet(c: Config, s: State, s': State, r: RoundId)
    requires RoundsOk(c, s) && r !in s.closed && s' == s.(open := s.open + {r})
    ensures RoundsOk(c, s')
  {
    forall i | 0 <= i < |s'.bets| ensures BetPlaced(s', s'.bets[i]) { assert BetPlaced(s, s.bets[i]); }
  }

  lemma StepKeepsInv(c: Config, s: State, a: Action)
    requires Inv(c, s) && ConfigOk(c)
    ensures Inv(c, Step(c, s, a))
  {
    match a
    case OpenRound(r) => PhaseKeepsInv(c, s, r, true);
    case CloseRound(r) => PhaseKeepsInv(c, s, r, false);
    case SetFrozen(user, frozen) =>
      SameMoneySameBooks(c, s, Step(c, s, a));
      RoundsUntouched(c, s, Step(c, s, a));
    case Deposit(user, amount, event) =>
      if amount > 0 && Apply(s, DepositMove(user, amount, event)).Moved? { DepositKeepsInv(c, s, user, amount, event); }
    case PlaceBet(user, r, choice, stake, clientKey, beforeLock) => PlaceBetKeepsInv(c, s, user, r, choice, stake, clientKey, beforeLock);
    case RequestWithdrawal(user, amount, clientKey) => RequestKeepsInv(c, s, user, amount, clientKey);
    case Decide(id, decision, auditKey) => DecideKeepsInv(c, s, id, decision, auditKey);
    case AuditElsewhere(auditKey) =>
      SameMoneySameBooks(c, s, Step(c, s, a));
      RoundsUntouched(c, s, Step(c, s, a));
    case StartSettling(call, r, result) => SameCallsAside(c, s, Step(c, s, a));
    case SettleRound(call) => SettleStepKeepsInv(c, s, call);
    case AbortSettling(call) => SameCallsAside(c, s, Step(c, s, a));
    case RecordFailure(call) => FailStepKeepsInv(c, s, call);
    case Forget(call) => SameCallsAside(c, s, Step(c, s, a));
    case RefundRound(r, order) => RefundKeepsInv(c, s, r, order);
  }

  lemma {:induction false} RunKeepsInv(c: Config, actions: seq<Action>)
    requires ConfigOk(c)
    ensures Inv(c, Run(c, EMPTY, actions))
  {
    if |actions| > 0 {
      RunKeepsInv(c, actions[..|actions| - 1]);
      StepKeepsInv(c, Run(c, EMPTY, actions[..|actions| - 1]), actions[|actions| - 1]);
    }
  }

  lemma RunOneMore(c: Config, s: State, actions: seq<Action>, a: Action)
    ensures Run(c, s, actions + [a]) == Step(c, Run(c, s, actions), a)
  {
    assert (actions + [a])[..|actions|] == actions;
  }

  // Some run from empty tables leads to s.
  ghost predicate Reachable(c: Config, s: State) {
    exists actions :: Run(c, EMPTY, actions) == s
  }

  lemma ReachableHoldsInv(c: Config, s: State)
    requires ConfigOk(c) && Reachable(c, s)
    ensures Inv(c, s)
  {
    var actions :| Run(c, EMPTY, actions) == s;
    RunKeepsInv(c, actions);
  }
}
