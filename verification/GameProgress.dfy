// What a run of any steps leaves of a round that no longer takes bets.
module GameProgress {
  import opened Types
  import opened Ledger
  import opened LedgerLaws
  import opened Bets
  import opened Game
  import opened GameMoney
  import opened GameRounds
  import opened GameSafety
  import opened GameTheorems

  // Pending bets may be decided, once; nothing else about a bet changes, and round r gets no new one.
  ghost predicate OnlyDecides(bets: seq<Bet>, bets': seq<Bet>, r: RoundId) {
    && |bets| <= |bets'|
    && (forall i :: 0 <= i < |bets| ==> Same(bets[i], bets'[i]) || Decides(bets[i], bets'[i]))
    && (forall i :: |bets| <= i < |bets'| ==> bets'[i].round != r)
  }

  predicate Same(bet: Bet, bet': Bet) { bet' == bet }

  predicate Decides(bet: Bet, bet': Bet) {
    && bet.status == Pending
    && bet'.status != Pending
    && bet' == bet.(status := bet'.status, payout := bet'.payout)
  }

  predicate Closed(s: State, r: RoundId) { r < |s.rounds| && Rank(s.rounds[r].status) > Rank(Open) }

  lemma StepOnlyDecides(c: Config, s: State, a: Action, r: RoundId)
    requires Inv(c, s) && ConfigOk(c) && Closed(s, r)
    ensures OnlyDecides(s.bets, Step(c, s, a).bets, r)
  {
    StepOnBets(c, s, a);
    ChangeOnlyDecides(s, Step(c, s, a), r);
  }

  lemma ChangeOnlyDecides(s: State, s': State, r: RoundId)
    requires OnlyPendingChange(s.bets, s'.bets) || OneMoreBet(s, s')
    requires Closed(s, r)
    ensures OnlyDecides(s.bets, s'.bets, r)
  {
    if !OnlyPendingChange(s.bets, s'.bets) {
      forall i | 0 <= i < |s.bets| ensures s'.bets[i] == s.bets[i] { assert s'.bets[..|s.bets|][i] == s.bets[i]; }
    }
  }

  lemma OnlyDecidesIsTransitive(one: seq<Bet>, two: seq<Bet>, three: seq<Bet>, r: RoundId)
    requires OnlyDecides(one, two, r) && OnlyDecides(two, three, r)
    ensures OnlyDecides(one, three, r)
  {
    forall i | 0 <= i < |one| ensures Same(one[i], three[i]) || Decides(one[i], three[i]) {
      assert Same(one[i], two[i]) || Decides(one[i], two[i]);
      assert Same(two[i], three[i]) || Decides(two[i], three[i]);
    }
    forall i | |one| <= i < |three| ensures three[i].round != r {
      if i < |two| { assert Same(two[i], three[i]) || Decides(two[i], three[i]); }
    }
  }

  lemma StepKeepsSettlement(c: Config, s: State, a: Action, r: RoundId, result: Color)
    requires ControlOk(c, s) && Injective(c.hash) && Positive(s.bets) && SettlementAllows(s, r, result)
    ensures SettlementAllows(Step(c, s, a), r, result)
  {
    if IsControl(a) { ControlActionIsGood(c, s, a); }
  }

  lemma {:induction false} RunOnlyDecides(c: Config, s: State, actions: seq<Action>, r: RoundId)
    requires Inv(c, s) && ConfigOk(c) && Closed(s, r)
    ensures Closed(Run(c, s, actions), r) && OnlyDecides(s.bets, Run(c, s, actions).bets, r)
  {
    if |actions| > 0 {
      var earlier := actions[..|actions| - 1];
      RunOnlyDecides(c, s, earlier, r);
      RunKeepsInv(c, s, earlier);
      StatusNeverGoesBack(c, s, actions, r);
      StepOnlyDecides(c, Run(c, s, earlier), actions[|actions| - 1], r);
      OnlyDecidesIsTransitive(s.bets, Run(c, s, earlier).bets, Run(c, s, actions).bets, r);
    }
  }

  lemma {:induction false} RunKeepsSettlement(c: Config, s: State, actions: seq<Action>, r: RoundId, result: Color)
    requires Inv(c, s) && ConfigOk(c) && SettlementAllows(s, r, result)
    ensures SettlementAllows(Run(c, s, actions), r, result)
  {
    if |actions| > 0 {
      var earlier := actions[..|actions| - 1];
      RunKeepsSettlement(c, s, earlier, r, result);
      RunKeepsInv(c, s, earlier);
      var m := Run(c, s, earlier);
      BetsArePositive(m.bank, m.bets);
      StepKeepsSettlement(c, m, actions[|actions| - 1], r, result);
    }
  }

  // The pending winners of a closed round can only become fewer, and they do when one of them is decided.
  lemma {:induction false} WinnersBecomeFewer(bets: seq<Bet>, bets': seq<Bet>, r: RoundId, result: Color)
    requires OnlyDecides(bets, bets', r)
    ensures 0 <= Sum(WinnersIn(r, result), bets') <= Sum(WinnersIn(r, result), bets)
    ensures (exists i :: 0 <= i < |bets| && PendingWinner(bets[i], r, result, bets[i].user) && bets'[i].status != Pending) ==>
              Sum(WinnersIn(r, result), bets') < Sum(WinnersIn(r, result), bets)
    decreases |bets'|
  {
    var n := |bets'| - 1;
    if n >= 0 {
      if |bets'| > |bets| {
        WinnersBecomeFewer(bets, bets'[..n], r, result);
      } else {
        assert Same(bets[n], bets'[n]) || Decides(bets[n], bets'[n]);
        WinnersBecomeFewer(bets[..n], bets'[..n], r, result);
        if i :| 0 <= i < |bets| && PendingWinner(bets[i], r, result, bets[i].user) && bets'[i].status != Pending {
          assert i < n ==> bets[..n][i] == bets[i] && bets'[..n][i] == bets'[i];
        }
      }
    }
  }

  // Bets are never dropped, and what was bet never changes.
  ghost predicate BetsKept(bets: seq<Bet>, bets': seq<Bet>) {
    && |bets| <= |bets'|
    && forall i :: 0 <= i < |bets| ==> SameOffer(bets[i], bets'[i])
  }

  predicate SameOffer(bet: Bet, bet': Bet) {
    bet'.user == bet.user && bet'.round == bet.round && bet'.choice == bet.choice &&
    bet'.stake == bet.stake && bet'.clientKey == bet.clientKey
  }

  lemma StepKeepsBets(c: Config, s: State, a: Action)
    requires Inv(c, s) && ConfigOk(c)
    ensures BetsKept(s.bets, Step(c, s, a).bets)
  {
    StepOnBets(c, s, a);
    ChangeKeepsBets(s, Step(c, s, a));
  }

  lemma ChangeKeepsBets(s: State, s': State)
    requires OnlyPendingChange(s.bets, s'.bets) || OneMoreBet(s, s')
    ensures BetsKept(s.bets, s'.bets)
  {
    if !OnlyPendingChange(s.bets, s'.bets) {
      forall i | 0 <= i < |s.bets| ensures s'.bets[i] == s.bets[i] { assert s'.bets[..|s.bets|][i] == s.bets[i]; }
    }
  }

  lemma BetsKeptIsTransitive(one: seq<Bet>, two: seq<Bet>, three: seq<Bet>)
    requires BetsKept(one, two) && BetsKept(two, three)
    ensures BetsKept(one, three)
  {
    forall i | 0 <= i < |one| ensures SameOffer(one[i], three[i]) {
      assert SameOffer(one[i], two[i]) && SameOffer(two[i], three[i]);
    }
  }

  lemma {:induction false} RunKeepsBets(c: Config, s: State, actions: seq<Action>)
    requires Inv(c, s) && ConfigOk(c)
    ensures BetsKept(s.bets, Run(c, s, actions).bets)
  {
    if |actions| > 0 {
      var earlier := actions[..|actions| - 1];
      RunKeepsBets(c, s, earlier);
      RunKeepsInv(c, s, earlier);
      StepKeepsBets(c, Run(c, s, earlier), actions[|actions| - 1]);
      BetsKeptIsTransitive(s.bets, Run(c, s, earlier).bets, Run(c, s, actions).bets);
    }
  }

  // ---------------------------------------------------------------- the ledger is append-only

  lemma PostOnlyAppends(bank: Bank, m: Movement)
    requires Post(bank, m).Moved?
    ensures bank.ledger <= Post(bank, m).bank.ledger
  {
    PostAppendsOneRow(bank, m);
  }

  lemma RefundOnlyAppends(books: Books, id: BetId, recovery: bool)
    requires RefundOne(books, id, recovery).Some?
    ensures books.bank.ledger <= RefundOne(books, id, recovery).value.bank.ledger
  {
    var m := RefundMovement(books.bets[id], id, recovery);
    if Post(books.bank, m).Moved? { PostOnlyAppends(books.bank, m); }
  }

  lemma {:induction false} RefundsOnlyAppend(books: Books, order: seq<BetId>, recovery: bool)
    requires RefundEach(books, order, recovery).Some?
    ensures books.bank.ledger <= RefundEach(books, order, recovery).value.bank.ledger
  {
    if |order| > 0 {
      RefundsOnlyAppend(books, order[..|order| - 1], recovery);
      RefundOnlyAppends(RefundEach(books, order[..|order| - 1], recovery).value, order[|order| - 1], recovery);
    }
  }

  lemma CancelOnlyAppends(s: State, targets: set<RoundId>, order: seq<BetId>, recovery: bool, rounds: seq<Round>)
    ensures s.bank.ledger <= CancelTx(s, targets, order, recovery, rounds).bank.ledger
  {
    if RefundEach(Books(s.bank, s.bets), order, recovery).Some? { RefundsOnlyAppend(Books(s.bank, s.bets), order, recovery); }
  }

  lemma StepOnlyAppends(c: Config, s: State, a: Action)
    requires ControlOk(c, s) && Injective(c.hash) && Positive(s.bets)
    ensures s.bank.ledger <= Step(c, s, a).bank.ledger
  {
    if IsControl(a) {
      ControlActionIsGood(c, s, a);
    } else {
      match a
      case AdjustWallet(user, amount, direction, reference, key) =>
        var m := AdjustmentMovement(user, amount, direction, reference, key);
        if Post(s.bank, m).Moved? { PostOnlyAppends(s.bank, m); }
      case PlaceBet(user, r, choice, stake, clientKey, beforeLock) =>
        var m := DebitMovement(Bet(user, r, choice, stake, clientKey, Pending, 0), |s.bets|);
        if Post(s.bank, m).Moved? { PostOnlyAppends(s.bank, m); }
      case SettleWinner(r, result, user) =>
        var m := CreditMovement(r, user, Sum(Due(r, result, user), s.bets));
        if Post(s.bank, m).Moved? { PostOnlyAppends(s.bank, m); }
      case RecoverRound(pid, order) => RecoverOnlyAppends(s, pid, order);
      case ForceStart(seed, order) =>
        CancelOnlyAppends(s, ActiveRounds(s.rounds), order, false,
                          CancelActive(s.rounds) + [NewRound(c, LatestNumber(s.rounds) + 1, Open, seed)]);
      case ForceStop(order) => ForceStopOnlyAppends(s, order);
      case _ =>
    }
  }

  lemma RecoverOnlyAppends(s: State, pid: ProcessId, order: seq<BetId>)
    ensures s.bank.ledger <= RecoverStep(s, pid, order).bank.ledger
  {
    var p := ProcessOf(s, pid);
    if p.Recovering? && p.round < |s.rounds| {
      var r := p.round;
      CancelOnlyAppends(s, {r}, order, true, s.rounds[r := s.rounds[r].(status := CancelledRound, result := None)]);
    }
  }

  lemma ForceStopOnlyAppends(s: State, order: seq<BetId>)
    ensures s.bank.ledger <= ForceStopTx(s, order).bank.ledger
  {
    var found := FindActive(s.rounds);
    if found.Some? {
      var r := found.value;
      CancelOnlyAppends(s, {r}, order, false, s.rounds[r := s.rounds[r].(status := CancelledRound)]);
    }
  }

  // No step of any run changes or removes a ledger row.
  lemma {:induction false} RunOnlyAppends(c: Config, s: State, actions: seq<Action>)
    requires Inv(c, s) && ConfigOk(c)
    ensures s.bank.ledger <= Run(c, s, actions).bank.ledger
  {
    if |actions| > 0 {
      var earlier := actions[..|actions| - 1];
      RunOnlyAppends(c, s, earlier);
      RunKeepsInv(c, s, earlier);
      BetsArePositive(Run(c, s, earlier).bank, Run(c, s, earlier).bets);
      StepOnlyAppends(c, Run(c, s, earlier), actions[|actions| - 1]);
    }
  }

  // ---------------------------------------------------------------- a finished settlement

  lemma CompletingKeepsSuccess(c: Config, s: State, pid: ProcessId, r: RoundId)
    requires ControlOk(c, s) && r in s.settlements && s.settlements[r].success
    ensures r in CompleteStep(s, pid).settlements && CompleteStep(s, pid).settlements[r] == s.settlements[r]
  {
    var p := ProcessOf(s, pid);
    if p.Settling? && p.stage.Counted? && p.round == r {
      assert ProcessOk(c, s, p) && SettlementOk(s, r);
    }
  }

  lemma OnlySettlingWritesSettlements(c: Config, s: State, a: Action)
    requires IsControl(a) && !a.CompleteSettlement? && !a.BeginSettlement?
    ensures ControlAction(c, s, a).settlements == s.settlements
  {
    if a.ResolveRound? {
      assert ResolveStep(c, s, a.pid, a.read).settlements == s.settlements;
    } else if a.ForceResult? {
      assert ForceResultStep(s, a.pid, a.result).settlements == s.settlements;
    } else if a.FinishRound? {
      assert FinishStep(s, a.pid).settlements == s.settlements;
    } else if a.CreateRound? {
      assert CreateStep(c, s, a.pid, a.seed).settlements == s.settlements;
    }
  }

  lemma BeginningKeepsSettlement(s: State, pid: ProcessId, r: RoundId)
    requires r in s.settlements
    ensures r in BeginStep(s, pid).settlements && BeginStep(s, pid).settlements[r] == s.settlements[r]
  {
  }

  lemma ControlKeepsSuccess(c: Config, s: State, a: Action, r: RoundId)
    requires ControlOk(c, s) && IsControl(a) && r in s.settlements && s.settlements[r].success
    ensures r in ControlAction(c, s, a).settlements && ControlAction(c, s, a).settlements[r] == s.settlements[r]
  {
    if a.CompleteSettlement? {
      CompletingKeepsSuccess(c, s, a.pid, r);
    } else if a.BeginSettlement? {
      BeginningKeepsSettlement(s, a.pid, r);
    } else {
      OnlySettlingWritesSettlements(c, s, a);
    }
  }

  lemma StepKeepsSuccess(c: Config, s: State, a: Action, r: RoundId)
    requires ControlOk(c, s) && r in s.settlements && s.settlements[r].success
    ensures r in Step(c, s, a).settlements && Step(c, s, a).settlements[r] == s.settlements[r]
  {
    if IsControl(a) { ControlKeepsSuccess(c, s, a, r); }
  }

  // The row of a settled round never changes again, whoever settles it once more.
  lemma {:induction false} FinishedSettlementIsFixed(c: Config, s: State, actions: seq<Action>, r: RoundId)
    requires Inv(c, s) && ConfigOk(c) && r in s.settlements && s.settlements[r].success
    ensures r in Run(c, s, actions).settlements && Run(c, s, actions).settlements[r] == s.settlements[r]
  {
    if |actions| > 0 {
      var earlier, a := actions[..|actions| - 1], actions[|actions| - 1];
      FinishedSettlementIsFixed(c, s, earlier, r);
      RunKeepsInv(c, s, earlier);
      StepKeepsSuccess(c, Run(c, s, earlier), a, r);
    }
  }
}
