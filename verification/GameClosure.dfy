// How rounds end: along which edges a status moves, and that no stake is left in a round that is over.
module GameClosure {
  import opened Types
  import opened Ledger
  import opened LedgerLaws
  import opened Bets
  import opened Game
  import opened GameMoney
  import opened GameRounds
  import opened GameSafety
  import opened GameTheorems
  import opened GameProgress

  // ---------------------------------------------------------------- the edges

  // Which step may take a round from one status to another.
  predicate Edge(a: Action, from: RoundStatus, to: RoundStatus) {
    match to
    case Init => false
    case Open => from == Init && a.OpenRound?
    case Locked => from == Open && a.LockRound?
    case Resolving => (from == Locked && a.ResolveRound?) || (Active(from) && a.ForceResult?)
    case Completed => (from == Resolving || from == CancelledRound) && a.FinishRound?
    case CancelledRound => Active(from) && (a.RecoverRound? || a.ForceStart? || a.ForceStop?)
  }

  lemma OpeningEdge(s: State, pid: ProcessId, r: RoundId)
    requires r < |s.rounds|
    ensures var s' := OpenStep(s, pid);
            |s'.rounds| == |s.rounds| &&
            (s'.rounds[r].status == s.rounds[r].status || (s.rounds[r].status == Init && s'.rounds[r].status == Open))
  {
  }

  lemma LockingEdge(s: State, pid: ProcessId, r: RoundId)
    requires r < |s.rounds|
    ensures var s' := LockStep(s, pid);
            |s'.rounds| == |s.rounds| &&
            (s'.rounds[r].status == s.rounds[r].status || (s.rounds[r].status == Open && s'.rounds[r].status == Locked))
  {
  }

  lemma ResolvingEdge(c: Config, s: State, pid: ProcessId, read: Option<Seed>, r: RoundId)
    requires r < |s.rounds|
    ensures var s' := ResolveStep(c, s, pid, read);
            |s'.rounds| == |s.rounds| &&
            (s'.rounds[r].status == s.rounds[r].status || (s.rounds[r].status == Locked && s'.rounds[r].status == Resolving))
  {
  }

  lemma ForcingEdge(s: State, pid: ProcessId, result: Color, r: RoundId)
    requires r < |s.rounds|
    ensures var s' := ForceResultStep(s, pid, result);
            |s'.rounds| == |s.rounds| &&
            (s'.rounds[r].status == s.rounds[r].status || (Active(s.rounds[r].status) && s'.rounds[r].status == Resolving))
  {
  }

  // The last write needs a process that has settled this very round.
  lemma FinishingEdge(c: Config, s: State, pid: ProcessId, r: RoundId)
    requires ControlOk(c, s) && r < |s.rounds|
    ensures var s' := FinishStep(s, pid);
            |s'.rounds| == |s.rounds| &&
            (s'.rounds[r].status == s.rounds[r].status ||
             (Rank(s.rounds[r].status) >= 3 && s.rounds[r].status != Completed && s'.rounds[r].status == Completed &&
              r in s.settlements && s.settlements[r].success))
  {
    var p := ProcessOf(s, pid);
    if p.Settling? { assert ProcessOk(c, s, p); }
  }

  lemma CancellingEdge(rounds: seq<Round>, r: RoundId)
    requires r < |rounds|
    ensures CancelActive(rounds)[r].status == if Active(rounds[r].status) then CancelledRound else rounds[r].status
  {
  }

  lemma ControlFollowsLifecycle(c: Config, s: State, a: Action, r: RoundId)
    requires ControlOk(c, s) && IsControl(a) && r < |s.rounds|
    ensures var s' := ControlAction(c, s, a);
            r < |s'.rounds| && (s'.rounds[r].status == s.rounds[r].status || Edge(a, s.rounds[r].status, s'.rounds[r].status))
  {
    if a.OpenRound? {
      OpeningEdge(s, a.pid, r);
    } else if a.LockRound? {
      LockingEdge(s, a.pid, r);
    } else if a.ResolveRound? {
      ResolvingEdge(c, s, a.pid, a.read, r);
    } else if a.ForceResult? {
      ForcingEdge(s, a.pid, a.result, r);
    } else if a.FinishRound? {
      FinishingEdge(c, s, a.pid, r);
    } else if !a.CreateRound? {
      assert ControlAction(c, s, a).rounds == s.rounds;
    }
  }

  // Every change of a status goes along an edge of the lifecycle, taken by the step that edge belongs to.
  lemma StepFollowsLifecycle(c: Config, s: State, a: Action, r: RoundId)
    requires ControlOk(c, s) && r < |s.rounds|
    ensures var s' := Step(c, s, a);
            r < |s'.rounds| && (s'.rounds[r].status == s.rounds[r].status || Edge(a, s.rounds[r].status, s'.rounds[r].status))
  {
    if IsControl(a) {
      ControlFollowsLifecycle(c, s, a, r);
    } else if a.ForceStart? {
      CancellingEdge(s.rounds, r);
    }
  }

  // ---------------------------------------------------------------- nothing is left hanging

  ghost predicate NothingHangs(s: State) {
    forall r: RoundId :: r < |s.rounds| && !Active(s.rounds[r].status) ==> Sum(PendingIn(r), s.bets) == 0
  }

  lemma {:induction false} PendingNeverGrows(bets: seq<Bet>, bets': seq<Bet>, r: RoundId)
    requires OnlyDecides(bets, bets', r) && Positive(bets) && Positive(bets') && Sum(PendingIn(r), bets) == 0
    ensures Sum(PendingIn(r), bets') == 0
  {
    ZeroSumMeansNone(PendingIn(r), bets);
    ZeroSumMeansNone(PendingIn(r), bets');
    forall i | 0 <= i < |bets'| ensures Weight(PendingIn(r), bets'[i]) == 0 {
      if i < |bets| {
        assert Weight(PendingIn(r), bets[i]) == 0;
        assert Same(bets[i], bets'[i]) || Decides(bets[i], bets'[i]);
      }
    }
  }

  lemma OverStaysSettled(c: Config, s: State, a: Action, r: RoundId)
    requires Inv(c, s) && ConfigOk(c) && r < |s.rounds| && !Active(s.rounds[r].status) && Sum(PendingIn(r), s.bets) == 0
    ensures Sum(PendingIn(r), Step(c, s, a).bets) == 0
  {
    StepKeepsInv(c, s, a);
    BetsArePositive(s.bank, s.bets);
    BetsArePositive(Step(c, s, a).bank, Step(c, s, a).bets);
    StepOnlyDecides(c, s, a, r);
    PendingNeverGrows(s.bets, Step(c, s, a).bets, r);
  }

  lemma RefundedRoundIsEmpty(bets: seq<Bet>, bets': seq<Bet>, order: seq<BetId>, r: RoundId)
    requires CancelsExactly(bets, bets', order) && Positive(bets')
    requires forall b: BetId :: b < |bets| && bets[b].status == Pending && bets[b].round == r ==> b in order
    ensures Sum(PendingIn(r), bets') == 0
  {
    ZeroSumMeansNone(PendingIn(r), bets');
    forall i: BetId | i < |bets'| ensures Weight(PendingIn(r), bets'[i]) == 0 {
      assert bets'[i] == if i in order then CancelBet(bets[i]) else bets[i];
    }
  }

  // A cancelling transaction that commits refunds every pending bet of its rounds.
  lemma CancellingEmptiesRound(s: State, targets: set<RoundId>, order: seq<BetId>, recovery: bool, rounds: seq<Round>, r: RoundId)
    requires BooksOk(s.bank, s.bets) && r in targets && CancelTx(s, targets, order, recovery, rounds) != s
    ensures Sum(PendingIn(r), CancelTx(s, targets, order, recovery, rounds).bets) == 0
  {
    var books := RefundEach(Books(s.bank, s.bets), order, recovery).value;
    ListedBetsArePending(s, targets, order);
    RefundingEachKeepsBooks(Books(s.bank, s.bets), order, recovery);
    BetsArePositive(books.bank, books.bets);
    RefundedRoundIsEmpty(s.bets, books.bets, order, r);
  }

  lemma FinishedRoundIsEmpty(c: Config, s: State, r: RoundId)
    requires ControlOk(c, s) && r in s.settlements && s.settlements[r].success
    ensures Sum(PendingIn(r), s.bets) == 0
  {
    assert SettlementOk(s, r);
  }

  lemma FinishEndsEmpty(c: Config, s: State, pid: ProcessId, r: RoundId)
    requires ControlOk(c, s) && r < |s.rounds| && Active(s.rounds[r].status)
    requires FinishStep(s, pid).rounds[r].status == Completed
    ensures Sum(PendingIn(r), FinishStep(s, pid).bets) == 0
  {
    FinishingEdge(c, s, pid, r);
    FinishedRoundIsEmpty(c, s, r);
  }

  lemma RecoveryEndsEmpty(s: State, pid: ProcessId, order: seq<BetId>, r: RoundId)
    requires BooksOk(s.bank, s.bets) && r < |s.rounds| && RecoverStep(s, pid, order).rounds != s.rounds
    requires RecoverStep(s, pid, order).rounds[r].status != s.rounds[r].status
    ensures Sum(PendingIn(r), RecoverStep(s, pid, order).bets) == 0
  {
    var p := ProcessOf(s, pid);
    var rounds := s.rounds[p.round := s.rounds[p.round].(status := CancelledRound, result := None)];
    assert r == p.round;
    CancellingEmptiesRound(s, {r}, order, true, rounds, r);
  }

  lemma StopEndsEmpty(s: State, order: seq<BetId>, r: RoundId)
    requires BooksOk(s.bank, s.bets) && r < |s.rounds|
    requires ForceStopTx(s, order).rounds[r].status != s.rounds[r].status
    ensures Sum(PendingIn(r), ForceStopTx(s, order).bets) == 0
  {
    var found := FindActive(s.rounds).value;
    CancellingEmptiesRound(s, {found}, order, false, s.rounds[found := s.rounds[found].(status := CancelledRound)], r);
  }

  lemma EndingStepEmpties(c: Config, s: State, a: Action, r: RoundId)
    requires Inv(c, s) && ConfigOk(c) && r < |s.rounds| && Active(s.rounds[r].status)
    requires r < |Step(c, s, a).rounds| && !Active(Step(c, s, a).rounds[r].status)
    ensures Sum(PendingIn(r), Step(c, s, a).bets) == 0
  {
    StepFollowsLifecycle(c, s, a, r);
    if a.FinishRound? {
      FinishEndsEmpty(c, s, a.pid, r);
    } else if a.RecoverRound? {
      RecoveryEndsEmpty(s, a.pid, a.order, r);
    } else if a.ForceStop? {
      StopEndsEmpty(s, a.order, r);
    } else {
      CancellingEmptiesRound(s, ActiveRounds(s.rounds), a.order, false,
                             CancelActive(s.rounds) + [NewRound(c, LatestNumber(s.rounds) + 1, Open, a.seed)], r);
    }
  }

  lemma OnlyCreationAddsRounds(c: Config, s: State, a: Action)
    requires IsControl(a) && !a.CreateRound?
    ensures |ControlAction(c, s, a).rounds| == |s.rounds|
  {
    if a.ResolveRound? {
      assert |ResolveStep(c, s, a.pid, a.read).rounds| == |s.rounds|;
    } else if !a.OpenRound? && !a.LockRound? && !a.ForceResult? && !a.FinishRound? {
      assert ControlAction(c, s, a).rounds == s.rounds;
    }
  }

  lemma NewRoundsAreActive(c: Config, s: State, a: Action)
    ensures forall r :: |s.rounds| <= r < |Step(c, s, a).rounds| ==> Active(Step(c, s, a).rounds[r].status)
  {
    if IsControl(a) && !a.CreateRound? { OnlyCreationAddsRounds(c, s, a); }
  }

  lemma StepLeavesNothingHanging(c: Config, s: State, a: Action)
    requires Inv(c, s) && ConfigOk(c) && NothingHangs(s)
    ensures NothingHangs(Step(c, s, a))
  {
    var s' := Step(c, s, a);
    NewRoundsAreActive(c, s, a);
    forall r: RoundId | r < |s'.rounds| && !Active(s'.rounds[r].status) ensures Sum(PendingIn(r), s'.bets) == 0 {
      if Active(s.rounds[r].status) {
        EndingStepEmpties(c, s, a, r);
      } else {
        OverStaysSettled(c, s, a, r);
      }
    }
  }

  lemma {:induction false} RunLeavesNothingHanging(c: Config, actions: seq<Action>)
    requires ConfigOk(c)
    ensures NothingHangs(Run(c, EMPTY, actions))
  {
    if |actions| > 0 {
      RunLeavesNothingHanging(c, actions[..|actions| - 1]);
      ReachableIsOk(c, actions[..|actions| - 1]);
      StepLeavesNothingHanging(c, Run(c, EMPTY, actions[..|actions| - 1]), actions[|actions| - 1]);
    }
  }

  lemma PendingLiesInActiveRound(c: Config, s: State, i: BetId)
    requires Inv(c, s) && NothingHangs(s) && i < |s.bets|
    ensures s.bets[i].round < |s.rounds|
    ensures s.bets[i].status == Pending ==> Active(s.rounds[s.bets[i].round].status)
  {
    assert Disposed(s, s.bets[i]);
    BetsArePositive(s.bank, s.bets);
    SumCoversBet(PendingIn(s.bets[i].round), s.bets, i);
  }

  // Once a round is completed or cancelled every bet in it is won, lost or refunded, in every run.
  lemma NoStakeIsLeftHanging(c: Config, s: State, i: BetId)
    requires ConfigOk(c) && Reachable(c, s) && i < |s.bets|
    ensures s.bets[i].round < |s.rounds|
    ensures s.bets[i].status == Pending ==> Active(s.rounds[s.bets[i].round].status)
  {
    var actions :| Run(c, EMPTY, actions) == s;
    RunLeavesNothingHanging(c, actions);
    ReachableHoldsInv(c, s);
    PendingLiesInActiveRound(c, s, i);
  }
}
