// Where the coin engine keeps less than one might expect, and exactly how much less.
module GameCorners {
  import opened Types
  import opened Ledger
  import opened LedgerLaws
  import opened Bets
  import opened Game
  import opened GameRounds
  import opened GameSafety
  import opened GameExact
  import opened GameStore

  ghost predicate FinishesByForce(s: State, a: Action, r: RoundId) {
    a.FinishRound? &&
    var p := ProcessOf(s, a.pid);
    p.Settling? && p.stage.Settled? && p.forcing && p.round == r
  }

  lemma ControlReopens(c: Config, s: State, a: Action, r: RoundId)
    requires ControlOk(c, s) && IsControl(a) && r < |s.rounds| && !Active(s.rounds[r].status)
    ensures var s' := ControlAction(c, s, a);
            r < |s'.rounds| && (s'.rounds[r].status != s.rounds[r].status <==>
                                FinishesByForce(s, a, r) && s.rounds[r].status == CancelledRound)
  {
    if a.ResolveRound? {
      assert ControlAction(c, s, a) == ResolveStep(c, s, a.pid, a.read);
    } else if !a.ForceResult? && !a.CreateRound? && !a.OpenRound? && !a.LockRound? && !a.FinishRound? {
      assert ControlAction(c, s, a).rounds == s.rounds;
    }
  }

  // A completed or cancelled status changes in exactly one way: a forced result that had settled the round
  // before it was cancelled writes COMPLETED over CANCELLED.
  lemma TerminalStatusChangesIff(c: Config, s: State, a: Action, r: RoundId)
    requires ControlOk(c, s) && r < |s.rounds| && !Active(s.rounds[r].status)
    ensures var s' := Step(c, s, a);
            r < |s'.rounds| && (s'.rounds[r].status != s.rounds[r].status <==>
                                FinishesByForce(s, a, r) && s.rounds[r].status == CancelledRound)
  {
    if IsControl(a) { ControlReopens(c, s, a, r); }
  }

  // Such a run exists: start a round, force a result, stop the round before the last update.
  function ForcedThenStopped(seed: Seed): seq<Action> {
    [ForceStart(seed, []), ForceResult(1, Red), CheckSeed(1, Some(seed)), BeginSettlement(1),
     CountBets(1), CompleteSettlement(1), ForceStop([])]
  }

  lemma RunPrefix(c: Config, actions: seq<Action>, n: nat)
    requires n < |actions|
    ensures Run(c, EMPTY, actions[..n + 1]) == Step(c, Run(c, EMPTY, actions[..n]), actions[n])
  {
    assert actions[..n + 1] == actions[..n] + [actions[n]];
    RunOneMore(c, EMPTY, actions[..n], actions[n]);
  }

  ghost predicate OneRound(s: State, status: RoundStatus) {
    |s.rounds| == 1 && s.rounds[0].status == status && s.bets == []
  }

  lemma RoundStarts(c: Config, seed: Seed)
    ensures var s := Run(c, EMPTY, ForcedThenStopped(seed)[..1]);
            OneRound(s, Open) && s.rounds[0] == NewRound(c, 1, Open, seed) && s.settlements == map[] && s.processes == map[]
  {
    RunPrefix(c, ForcedThenStopped(seed), 0);
    assert ListsPending(EMPTY, {}, []) && ActiveRounds(EMPTY.rounds) == {};
  }

  lemma ResultIsForced(c: Config, seed: Seed)
    ensures var s := Run(c, EMPTY, ForcedThenStopped(seed)[..3]);
            OneRound(s, Resolving) && s.settlements == map[] && ProcessOf(s, 1) == Settling(0, Red, seed, true, Beginning)
  {
    RoundStarts(c, seed);
    RunPrefix(c, ForcedThenStopped(seed), 1);
    RunPrefix(c, ForcedThenStopped(seed), 2);
  }

  lemma SettlementBegins(c: Config, seed: Seed)
    ensures var s := Run(c, EMPTY, ForcedThenStopped(seed)[..4]);
            OneRound(s, Resolving) && ProcessOf(s, 1) == Settling(0, Red, seed, true, Working)
  {
    ResultIsForced(c, seed);
    RunPrefix(c, ForcedThenStopped(seed), 3);
  }

  lemma BetsAreCounted(c: Config, seed: Seed)
    ensures var s := Run(c, EMPTY, ForcedThenStopped(seed)[..5]);
            OneRound(s, Resolving) && ProcessOf(s, 1) == Settling(0, Red, seed, true, Counted(Stats(0, 0, 0, 0, 0)))
  {
    SettlementBegins(c, seed);
    RunPrefix(c, ForcedThenStopped(seed), 4);
  }

  lemma ForcedRoundSettles(c: Config, seed: Seed)
    ensures var s := Run(c, EMPTY, ForcedThenStopped(seed)[..6]);
            OneRound(s, Resolving) && ProcessOf(s, 1) == Settling(0, Red, seed, true, Settled)
  {
    BetsAreCounted(c, seed);
    RunPrefix(c, ForcedThenStopped(seed), 5);
  }

  lemma CancelledRoundCanComplete(c: Config, seed: Seed)
    ensures var t := ForcedThenStopped(seed);
            && |Run(c, EMPTY, t).rounds| == 1 == |Run(c, EMPTY, t + [FinishRound(1)]).rounds|
            && Run(c, EMPTY, t).rounds[0].status == CancelledRound
            && Run(c, EMPTY, t + [FinishRound(1)]).rounds[0].status == Completed
  {
    var t := ForcedThenStopped(seed);
    ForcedRoundSettles(c, seed);
    var s := Run(c, EMPTY, t[..6]);
    RunPrefix(c, t, 6);
    assert t[..7] == t;
    assert ListsPending(s, {0}, []);
    RunOneMore(c, EMPTY, t, FinishRound(1));
  }

  // A tick finds a round open past its lock time and locks it; before it reads the round back somebody
  // forces a result; the tick then settles the round although its end time has not come.
  function EarlyTick(seed: Seed): seq<Action> {
    [ForceStart(seed, []), LookForRound(1), CheckControl(1), LockRound(1), ForceResult(2, Green), ReadBack(1), ResolveRound(1, Some(seed))]
  }

  lemma EarlyRoundStarts(c: Config, seed: Seed)
    ensures var s := Run(c, EMPTY, EarlyTick(seed)[..1]);
            OneRound(s, Open) && s.rounds[0] == NewRound(c, 1, Open, seed) && s.processes == map[]
  {
    RunPrefix(c, EarlyTick(seed), 0);
    assert ListsPending(EMPTY, {}, []) && ActiveRounds(EMPTY.rounds) == {};
  }

  lemma TickFindsOpen(c: Config, seed: Seed)
    ensures var s := Run(c, EMPTY, EarlyTick(seed)[..3]);
            OneRound(s, Open) && s.rounds[0] == NewRound(c, 1, Open, seed) &&
            s.processes == map[1 := Driving(Copy(0, Open, None, c.hash(seed)))]
  {
    EarlyRoundStarts(c, seed);
    RunPrefix(c, EarlyTick(seed), 1);
    RunPrefix(c, EarlyTick(seed), 2);
  }

  lemma TickLocks(c: Config, seed: Seed)
    ensures var s := Run(c, EMPTY, EarlyTick(seed)[..4]);
            OneRound(s, Locked) && s.rounds[0] == NewRound(c, 1, Locked, seed) && s.processes == map[1 := ReadingBack(0)]
  {
    TickFindsOpen(c, seed);
    RunPrefix(c, EarlyTick(seed), 3);
  }

  lemma OtherForces(c: Config, seed: Seed)
    ensures var s := Run(c, EMPTY, EarlyTick(seed)[..5]);
            OneRound(s, Resolving) && s.rounds[0].result == Some(Green) && s.rounds[0].hash == c.hash(seed) && ProcessOf(s, 1) == ReadingBack(0)
  {
    TickLocks(c, seed);
    RunPrefix(c, EarlyTick(seed), 4);
  }

  lemma TickReadsForcedRound(c: Config, seed: Seed)
    ensures var s := Run(c, EMPTY, EarlyTick(seed)[..6]);
            OneRound(s, Resolving) && ProcessOf(s, 1) == Driving(Copy(0, Resolving, Some(Green), c.hash(seed)))
  {
    OtherForces(c, seed);
    RunPrefix(c, EarlyTick(seed), 5);
  }

  lemma TickCanResolveEarly(c: Config, seed: Seed)
    ensures ProcessOf(Run(c, EMPTY, EarlyTick(seed)[..3]), 1) == Driving(Copy(0, Open, None, c.hash(seed)))
    ensures ProcessOf(Run(c, EMPTY, EarlyTick(seed)), 1) == Settling(0, Green, seed, false, Beginning)
  {
    TickFindsOpen(c, seed);
    TickReadsForcedRound(c, seed);
    RunPrefix(c, EarlyTick(seed), 6);
    assert EarlyTick(seed)[..7] == EarlyTick(seed);
  }

  // An administrator adjusts one user's wallet under the key of another user's opening coins, who has no
  // wallet yet; that user's first bet then hits a unique constraint, although no bet has its client key.
  function KeyTakenFirst(bettor: UserId, other: UserId, seed: Seed): seq<Action> {
    [AdjustWallet(other, 1, Credit, 0, InitialCoins(bettor)), ForceStart(seed, [])]
  }

  ghost predicate OpeningIsTaken(bank: Bank, bettor: UserId, other: UserId) {
    && bettor !in bank.wallets && FindRow(bank.ledger, InitialCoins(bettor)).Some?
    && |bank.ledger| == 2 && bank.ledger[0].key == InitialCoins(other) && bank.ledger[1].key == InitialCoins(bettor)
  }

  lemma AdjustmentTakesKey(bank: Bank, m: Movement, bettor: UserId, other: UserId)
    requires bettor != other && bank.wallets == map[] && bank.ledger == []
    requires m == AdjustmentMovement(other, 1, Credit, 0, InitialCoins(bettor))
    ensures Post(bank, m).Moved? && OpeningIsTaken(Post(bank, m).bank, bettor, other)
  {
    assert Agrees(bank, other);
    MovementAnswers(bank, m);
    PostAppendsOneRow(bank, m);
    assert Post(bank, m).bank.ledger[1].key == InitialCoins(bettor);
  }

  lemma FirstStepTakesKey(c: Config, s: State, bettor: UserId, other: UserId)
    requires bettor != other && s == EMPTY
    ensures var t := Step(c, s, AdjustWallet(other, 1, Credit, 0, InitialCoins(bettor)));
            t == s.(bank := t.bank) && OpeningIsTaken(t.bank, bettor, other)
  {
    AdjustmentTakesKey(s.bank, AdjustmentMovement(other, 1, Credit, 0, InitialCoins(bettor)), bettor, other);
  }

  lemma OpeningKeyIsTaken(c: Config, bettor: UserId, other: UserId, seed: Seed)
    requires bettor != other
    ensures var s := Run(c, EMPTY, KeyTakenFirst(bettor, other, seed)[..1]);
            s == EMPTY.(bank := s.bank) && OpeningIsTaken(s.bank, bettor, other)
  {
    RunPrefix(c, KeyTakenFirst(bettor, other, seed), 0);
    FirstStepTakesKey(c, EMPTY, bettor, other);
  }

  lemma RoundOpensAfterwards(c: Config, bettor: UserId, other: UserId, seed: Seed)
    requires bettor != other
    ensures var s, before := Run(c, EMPTY, KeyTakenFirst(bettor, other, seed)), Run(c, EMPTY, KeyTakenFirst(bettor, other, seed)[..1]);
            OneRound(s, Open) && !s.paused && s.bank == before.bank
  {
    var t := KeyTakenFirst(bettor, other, seed);
    OpeningKeyIsTaken(c, bettor, other, seed);
    RunPrefix(c, t, 1);
    assert t[..2] == t;
    FirstRoundOpens(c, Run(c, EMPTY, t[..1]), seed);
  }

  lemma FirstRoundOpens(c: Config, s: State, seed: Seed)
    requires s.rounds == [] && s.bets == []
    ensures Step(c, s, ForceStart(seed, [])) == s.(rounds := [NewRound(c, 1, Open, seed)])
  {
    assert ListsPending(s, {}, []) && ActiveRounds(s.rounds) == {};
  }

  lemma FreshKeyCanConflict(c: Config, bettor: UserId, other: UserId, seed: Seed)
    requires ConfigOk(c) && bettor != other
    ensures var s := Run(c, EMPTY, KeyTakenFirst(bettor, other, seed));
            s.bets == [] && Objection(c, s, bettor, 0, Red, 1, "first-bet", true) == Some(UniqueConflict)
  {
    OpeningKeyIsTaken(c, bettor, other, seed);
    RoundOpensAfterwards(c, bettor, other, seed);
  }
}
