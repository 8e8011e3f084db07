// What a tick of the engine finds, what each of its steps does, and what is left of that later.
module GameTicks {
  import opened Types
  import opened Ledger
  import opened LedgerLaws
  import opened Bets
  import opened Game
  import opened GameMoney
  import opened GameRounds
  import opened GameSafety
  import opened GameTheorems
  import opened GameProgress
  import opened GameClosure
  import opened GameExact
  import opened GameStore
  import opened SettlementService

  lemma BetsKeptBetween(c: Config, earlier: seq<Action>, trace: seq<Action>)
    requires ConfigOk(c) && earlier <= trace
    ensures BetsKept(Run(c, EMPTY, earlier).bets, Run(c, EMPTY, trace).bets)
  {
    var since := trace[|earlier|..];
    assert trace == earlier + since;
    RunInTwo(c, EMPTY, earlier, since);
    ReachableIsOk(c, earlier);
    RunKeepsBets(c, Run(c, EMPTY, earlier), since);
  }

  lemma SettlementFixedBetween(c: Config, earlier: seq<Action>, trace: seq<Action>, r: RoundId)
    requires ConfigOk(c) && earlier <= trace
    requires var s := Run(c, EMPTY, earlier); r in s.settlements && s.settlements[r].success
    ensures var s, s' := Run(c, EMPTY, earlier), Run(c, EMPTY, trace);
            r in s'.settlements && s'.settlements[r] == s.settlements[r]
  {
    var since := trace[|earlier|..];
    assert trace == earlier + since;
    RunInTwo(c, EMPTY, earlier, since);
    ReachableIsOk(c, earlier);
    FinishedSettlementIsFixed(c, Run(c, EMPTY, earlier), since, r);
  }

  // ---------------------------------------------------------------- the engine

  datatype Tick =
    | GamePaused
    | Waiting
    | Created(created: Option<RoundId>)
    | Recovered(round: RoundId)
    | Resolved(round: RoundId, result: Color)
    | RecoveryRefused(round: RoundId)
    | SettlementFailed(round: RoundId, result: Color, error: SettlementError)

  // The call took no step of its own but the two reads it begins with.
  ghost predicate OnlyLooked(earlier: seq<Action>, trace: seq<Action>, pid: ProcessId) {
    forall i :: |earlier| <= i < |trace| && Belongs(trace[i], pid) ==> trace[i].LookForRound? || trace[i].CheckControl?
  }

  ghost predicate SettledAs(s: State, r: RoundId, result: Color) {
    SettlementAllows(s, r, result) && s.settlements[r].success
  }

  lemma StaysSettledAs(c: Config, earlier: seq<Action>, trace: seq<Action>, r: RoundId, result: Color)
    requires ConfigOk(c) && earlier <= trace && SettledAs(Run(c, EMPTY, earlier), r, result)
    ensures SettledAs(Run(c, EMPTY, trace), r, result)
  {
    SettlementFixedBetween(c, earlier, trace, r);
  }

  // Round r has come at least as far as this rank after a trace.
  ghost predicate Reached(c: Config, trace: seq<Action>, r: RoundId, rank: nat) {
    var rounds := Run(c, EMPTY, trace).rounds;
    r < |rounds| && Rank(rounds[r].status) >= rank
  }

  lemma StaysReached(c: Config, earlier: seq<Action>, trace: seq<Action>, r: RoundId, rank: nat)
    requires ConfigOk(c) && earlier <= trace && Reached(c, earlier, r, rank)
    ensures Reached(c, trace, r, rank)
  {
    var since := trace[|earlier|..];
    assert trace == earlier + since;
    RunInTwo(c, EMPTY, earlier, since);
    ReachableIsOk(c, earlier);
    StatusNeverGoesBack(c, Run(c, EMPTY, earlier), since, r);
  }

  // The first n rounds are over.
  ghost predicate AllOver(c: Config, trace: seq<Action>, n: nat) {
    n <= |Run(c, EMPTY, trace).rounds| && forall r: RoundId :: r < n ==> Reached(c, trace, r, 4)
  }

  lemma AllStayOver(c: Config, earlier: seq<Action>, trace: seq<Action>, n: nat)
    requires ConfigOk(c) && earlier <= trace && AllOver(c, earlier, n)
    ensures AllOver(c, trace, n)
  {
    forall r: RoundId | r < n ensures Reached(c, trace, r, 4) { StaysReached(c, earlier, trace, r, 4); }
    if n > 0 { assert Reached(c, trace, n - 1, 4); }
  }

  lemma NoActiveMeansAllOver(c: Config, trace: seq<Action>)
    requires FindActive(Run(c, EMPTY, trace).rounds).None?
    ensures AllOver(c, trace, |Run(c, EMPTY, trace).rounds|)
  {
  }

  lemma OlderRoundsAreOver(c: Config, s: State, q: RoundId)
    requires ControlOk(c, s) && q + 1 < |s.rounds|
    ensures Rank(s.rounds[q].status) == 4
  {
    assert RoundOk(c, s.rounds, q);
  }

  // Only the newest round can be active.
  lemma OverMeansAllBefore(c: Config, trace: seq<Action>, r: RoundId)
    requires ConfigOk(c) && Reached(c, trace, r, 4)
    ensures AllOver(c, trace, r + 1)
  {
    ReachableIsOk(c, trace);
    forall q: RoundId | q < r + 1 ensures Reached(c, trace, q, 4) {
      if q < r { OlderRoundsAreOver(c, Run(c, EMPTY, trace), q); }
    }
  }

  // Whoever finds an active round or the next number taken has been overtaken by another round.
  lemma OvertakenByAnother(c: Config, reading: seq<Action>, trace: seq<Action>, pid: ProcessId, n: nat)
    requires ConfigOk(c) && reading <= trace && AllOver(c, reading, n)
    requires ProcessOf(Run(c, EMPTY, trace), pid) == Creating(LatestNumber(Run(c, EMPTY, reading).rounds))
    requires Blocked(Run(c, EMPTY, trace), pid)
    ensures |Run(c, EMPTY, trace).rounds| > n
  {
    var s, before := Run(c, EMPTY, trace), Run(c, EMPTY, reading).rounds;
    AllStayOver(c, reading, trace, n);
    ReachableIsOk(c, reading);
    ReachableIsOk(c, trace);
    forall i | 0 <= i < |before| ensures before[i].number == i + 1 { assert RoundOk(c, before, i); }
    LatestIsCount(before);
    assert ProcessOk(c, s, ProcessOf(s, pid));
    StaleNumberIsTaken(c, s.rounds, |before|);
    if FindActive(s.rounds).Some? {
      var active := FindActive(s.rounds).value;
      assert active < n ==> Reached(c, trace, active, 4);
    }
  }

  // Round r is over, owes nobody anything, and another one follows.
  ghost predicate Over(s: State, r: RoundId) {
    r + 1 < |s.rounds| && !Active(s.rounds[r].status) && Sum(PendingIn(r), s.bets) == 0
  }

  // What a tick that drove round r, found in this status, leaves behind.
  ghost predicate TickLeaves(c: Config, trace: seq<Action>, tick: Tick, r: RoundId, status: RoundStatus, pastLock: bool,
                             pastEnd: bool, read: Option<Seed>)
  {
    && Reached(c, trace, r, Rank(Open))
    && (pastLock ==> Reached(c, trace, r, Rank(Locked)))
    && (pastEnd && status == Locked && !tick.RecoveryRefused? ==> Reached(c, trace, r, Rank(Resolving)))
    && Answers(c, trace, tick, r, status, read)
  }

  // What the answer of such a tick says: a round is settled with its own seed and given up without it.
  ghost predicate Answers(c: Config, trace: seq<Action>, tick: Tick, r: RoundId, status: RoundStatus, read: Option<Seed>) {
    var s := Run(c, EMPTY, trace);
    && r < |s.rounds|
    && match tick
       case Waiting => status != Resolving
       case Recovered(round) => round == r && Over(s, r) && read != Some(s.rounds[r].secret)
       case RecoveryRefused(round) => round == r && read != Some(s.rounds[r].secret) && !AllRefundable(s, {r}, true)
       case Resolved(round, result) => round == r && Over(s, r) && SettledAs(s, r, result) && read == Some(s.rounds[r].secret)
       case SettlementFailed(round, result, error) =>
         round == r && read == Some(s.rounds[r].secret) && Explained(c, s, r, result, error)
       case _ => false
  }

  // ---------------------------------------------------------------- what a tick may do itself

  // The call locks its round only if it may, resolves it only if it may, and forces nothing.
  ghost predicate Keeps(earlier: seq<Action>, trace: seq<Action>, pid: ProcessId, mayLock: bool, mayResolve: bool) {
    forall i :: |earlier| <= i < |trace| && Belongs(trace[i], pid) ==>
      (trace[i].LockRound? ==> mayLock) && (trace[i].ResolveRound? ==> mayResolve) && !trace[i].ForceResult?
  }

  lemma KeepsBoth(a: seq<Action>, b: seq<Action>, c: seq<Action>, pid: ProcessId, lock: bool, resolve: bool, lock': bool, resolve': bool)
    requires a <= b <= c && Keeps(a, b, pid, lock, resolve) && Keeps(b, c, pid, lock', resolve')
    ensures Keeps(a, c, pid, lock || lock', resolve || resolve')
  {
  }

  // Another call resolved a round or forced a result.
  ghost predicate OthersDecided(earlier: seq<Action>, trace: seq<Action>, pid: ProcessId) {
    exists i :: |earlier| <= i < |trace| && (trace[i].ForceResult? || trace[i].ResolveRound?) && !Belongs(trace[i], pid)
  }

  // Only resolving or forcing makes a round resolving.
  lemma DecidingStep(c: Config, trace: seq<Action>, a: Action, r: RoundId)
    requires ConfigOk(c) && Reached(c, trace, r, 0) && !IsResolving(c, trace, r) && IsResolving(c, trace + [a], r)
    ensures a.ForceResult? || a.ResolveRound?
  {
    ReachableIsOk(c, trace);
    RunOneMore(c, EMPTY, trace, a);
    StepFollowsLifecycle(c, Run(c, EMPTY, trace), a, r);
  }

  ghost predicate IsResolving(c: Config, trace: seq<Action>, r: RoundId) {
    Reached(c, trace, r, 0) && Run(c, EMPTY, trace).rounds[r].status == Resolving
  }

  // A round that was not resolving when the call began, and is now, was decided by another call.
  lemma {:induction false} BecameResolving(c: Config, earlier: seq<Action>, trace: seq<Action>, pid: ProcessId, r: RoundId, mayLock: bool)
    requires ConfigOk(c) && earlier <= trace && Keeps(earlier, trace, pid, mayLock, false)
    requires Reached(c, earlier, r, 0) && !IsResolving(c, earlier, r) && IsResolving(c, trace, r)
    ensures OthersDecided(earlier, trace, pid)
    decreases |trace|
  {
    if trace != earlier {
      LongerTrace(earlier, trace);
      var before := trace[..|trace| - 1];
      if IsResolving(c, before, r) {
        KeepsFewer(earlier, trace, pid, mayLock);
        BecameResolving(c, earlier, before, pid, r, mayLock);
        OthersDecidedStays(earlier, before, trace, pid);
      } else {
        StaysReached(c, earlier, before, r, 0);
        DecidingStep(c, before, trace[|trace| - 1], r);
        LastDecision(earlier, trace, pid, mayLock);
      }
    }
  }

  lemma LongerTrace(earlier: seq<Action>, trace: seq<Action>)
    requires earlier <= trace && trace != earlier
    ensures |earlier| < |trace| && earlier <= trace[..|trace| - 1] && trace == trace[..|trace| - 1] + [trace[|trace| - 1]]
  {
  }

  lemma LastDecision(earlier: seq<Action>, trace: seq<Action>, pid: ProcessId, mayLock: bool)
    requires |trace| > |earlier| && Keeps(earlier, trace, pid, mayLock, false)
    requires trace[|trace| - 1].ForceResult? || trace[|trace| - 1].ResolveRound?
    ensures OthersDecided(earlier, trace, pid)
  {
  }

  lemma KeepsFewer(earlier: seq<Action>, trace: seq<Action>, pid: ProcessId, mayLock: bool)
    requires |trace| > |earlier| && Keeps(earlier, trace, pid, mayLock, false)
    ensures Keeps(earlier, trace[..|trace| - 1], pid, mayLock, false)
  {
  }

  // When a tick that found a round in this status may resolve it: past its end, or when it is resolving
  // already, be it that another call has decided it since.
  ghost predicate MayResolve(status: RoundStatus, pastLock: bool, pastEnd: bool, othersDecided: bool) {
    status == Resolving || pastEnd || (othersDecided && (status == Init || (status == Open && pastLock)))
  }

  // What a tick that found its round in this status did to it, held against the clock: it locked the round
  // only past the lock time, resolved it only when it may be resolved, and otherwise waited.
  ghost predicate KeepsToClock(earlier: seq<Action>, trace: seq<Action>, pid: ProcessId, tick: Tick, status: RoundStatus,
                               pastLock: bool, pastEnd: bool)
  {
    var mayResolve := MayResolve(status, pastLock, pastEnd, OthersDecided(earlier, trace, pid));
    Keeps(earlier, trace, pid, pastLock && Rank(status) < Rank(Locked), mayResolve) && (!mayResolve ==> tick == Waiting)
  }

  predicate IsDue(copy: Copy, pastEnd: bool) { (copy.status == Locked && pastEnd) || copy.status == Resolving }

  lemma MayBeResolved(c: Config, looked: seq<Action>, advanced: seq<Action>, pid: ProcessId, copy: Copy, current: Copy,
                      pastLock: bool, pastEnd: bool)
    requires ConfigOk(c) && looked <= advanced
    requires Keeps(looked, advanced, pid, pastLock && Rank(copy.status) < Rank(Locked), false)
    requires Fresh(Run(c, EMPTY, looked), copy) && current.round == copy.round
    requires current == copy || Fresh(Run(c, EMPTY, advanced), current)
    requires Rank(copy.status) >= Rank(Locked) || (copy.status == Open && !pastLock) ==> current == copy
    ensures IsDue(current, pastEnd) ==> MayResolve(copy.status, pastLock, pastEnd, OthersDecided(looked, advanced, pid))
  {
    if IsDue(current, pastEnd) && !pastEnd && copy.status != Resolving && Rank(copy.status) < Rank(Resolving) {
      BecameResolving(c, looked, advanced, pid, copy.round, pastLock && Rank(copy.status) < Rank(Locked));
    }
  }

  lemma ClockIsKept(looked: seq<Action>, advanced: seq<Action>, trace: seq<Action>, pid: ProcessId, tick: Tick, copy: Copy,
                    current: Copy, pastLock: bool, pastEnd: bool)
    requires looked <= advanced <= trace
    requires Keeps(looked, advanced, pid, pastLock && Rank(copy.status) < Rank(Locked), false)
    requires Keeps(advanced, trace, pid, false, IsDue(current, pastEnd))
    requires IsDue(current, pastEnd) ==> MayResolve(copy.status, pastLock, pastEnd, OthersDecided(looked, advanced, pid))
    requires !IsDue(current, pastEnd) ==> tick == Waiting
    ensures KeepsToClock(looked, trace, pid, tick, copy.status, pastLock, pastEnd)
  {
    if OthersDecided(looked, advanced, pid) { OthersDecidedStays(looked, advanced, trace, pid); }
  }

  lemma OthersDecidedStays(earlier: seq<Action>, trace: seq<Action>, later: seq<Action>, pid: ProcessId)
    requires trace <= later && OthersDecided(earlier, trace, pid)
    ensures OthersDecided(earlier, later, pid)
  {
    var i :| |earlier| <= i < |trace| && (trace[i].ForceResult? || trace[i].ResolveRound?) && !Belongs(trace[i], pid);
    assert later[i] == trace[i];
  }

  // The pause switch as the tick read it.
  ghost predicate PausedAtCheck(c: Config, earlier: seq<Action>, trace: seq<Action>, pid: ProcessId, paused: bool) {
    exists i :: |earlier| <= i < |trace| && trace[i] == CheckControl(pid) && paused == Run(c, EMPTY, trace[..i]).paused
  }

  lemma StaysChecked(c: Config, earlier: seq<Action>, trace: seq<Action>, later: seq<Action>, pid: ProcessId, paused: bool)
    requires trace <= later && PausedAtCheck(c, earlier, trace, pid, paused)
    ensures PausedAtCheck(c, earlier, later, pid, paused)
  {
    var i :| |earlier| <= i < |trace| && trace[i] == CheckControl(pid) && paused == Run(c, EMPTY, trace[..i]).paused;
    assert later[..i] == trace[..i];
  }

  // ---------------------------------------------------------------- a tick nobody disturbs

  ghost predicate SameTables(s: State, s': State) {
    s'.rounds == s.rounds && s'.bets == s.bets && s'.bank == s.bank && s'.settlements == s.settlements && s'.paused == s.paused
  }

  // Round r has this status now, and nothing else is different.
  ghost predicate StatusOnly(s: State, s': State, r: RoundId, status: RoundStatus) {
    && r < |s.rounds|
    && s'.rounds == s.rounds[r := s.rounds[r].(status := status)]
    && s'.bets == s.bets && s'.bank == s.bank && s'.settlements == s.settlements && s'.paused == s.paused
  }

  // A fresh round, open or still to be advanced.
  predicate IsNew(c: Config, round: Round, number: int, status: RoundStatus) {
    round == Round(number, status, None, c.hash(round.secret), None, round.secret, None, false)
  }

  // One round more, and nothing else is different.
  ghost predicate OneMoreRound(c: Config, s: State, s': State, status: RoundStatus) {
    && |s'.rounds| == |s.rounds| + 1
    && s'.rounds[..|s.rounds|] == s.rounds
    && IsNew(c, s'.rounds[|s.rounds|], |s.rounds| + 1, status)
    && s'.bets == s.bets && s'.bank == s.bank && s'.settlements == s.settlements && s'.paused == s.paused
  }

  // Round r is cancelled, its pending bets are refunded, and the next round is open.
  ghost predicate GivenUp(c: Config, s: State, s': State, r: RoundId) {
    && r < |s.rounds|
    && |s'.rounds| == |s.rounds| + 1
    && s'.rounds[r] == s.rounds[r].(status := CancelledRound, result := None)
    && IsNew(c, s'.rounds[|s.rounds|], |s.rounds| + 1, Open)
    && CancelledIn(s.bets, s'.bets, {r})
  }

  // The whole outcome of a tick that found round r active and not paused.
  ghost predicate DroveAlone(c: Config, s: State, s': State, tick: Tick, r: RoundId, pastLock: bool, pastEnd: bool, read: Option<Seed>)
    requires r < |s.rounds|
  {
    var round := s.rounds[r];
    if !(round.status == Resolving || (pastEnd && (round.status == Locked || pastLock))) then
      tick == Waiting && StatusOnly(s, s', r, if pastLock || round.status == Locked then Locked else Open)
    else ResolvedAlone(c, s, s', tick, r, read)
  }

  ghost predicate ResolvedAlone(c: Config, s: State, s': State, tick: Tick, r: RoundId, read: Option<Seed>)
    requires r < |s.rounds|
  {
    if read == Some(s.rounds[r].secret) then tick.Resolved? || tick.SettlementFailed?
    else if AllRefundable(s, {r}, true) then tick == Recovered(r) && GivenUp(c, s, s', r)
    else tick == RecoveryRefused(r) && s'.bets == s.bets && s'.bank == s.bank
  }

  // The whole outcome of a tick.
  ghost predicate TickedAlone(c: Config, s: State, s': State, tick: Tick, pastLock: bool, pastEnd: bool, read: Option<Seed>) {
    var active := FindActive(s.rounds);
    if s.paused then tick == GamePaused && SameTables(s, s')
    else if active.None? then tick == Created(Some(|s.rounds|)) && OneMoreRound(c, s, s', Open)
    else DroveAlone(c, s, s', tick, active.value, pastLock, pastEnd, read)
  }

  // A copy that says what the table says.
  ghost predicate Fresh(s: State, copy: Copy) {
    copy.round < |s.rounds| && copy == CopyOf(s, copy.round)
  }

  function StatusByClock(status: RoundStatus, pastLock: bool): RoundStatus {
    if Rank(status) >= Rank(Locked) then status else if pastLock then Locked else Open
  }

  lemma DroveAfterLook(c: Config, s: State, s1: State, s': State, tick: Tick, r: RoundId, pastLock: bool, pastEnd: bool, read: Option<Seed>)
    requires SameTables(s, s1) && r < |s.rounds| && DroveAlone(c, s1, s', tick, r, pastLock, pastEnd, read)
    ensures DroveAlone(c, s, s', tick, r, pastLock, pastEnd, read)
  {
  }

  lemma DroveAfterOpening(c: Config, s: State, s1: State, s': State, tick: Tick, current: Copy, pastLock: bool, pastEnd: bool,
                          read: Option<Seed>)
    requires current.round < |s.rounds| && Active(s.rounds[current.round].status) && Fresh(s1, current)
    requires StatusOnly(s, s1, current.round, StatusByClock(s.rounds[current.round].status, pastLock))
    requires if IsDue(current, pastEnd) then ResolvedAlone(c, s1, s', tick, current.round, read) else tick == Waiting && SameTables(s1, s')
    ensures DroveAlone(c, s, s', tick, current.round, pastLock, pastEnd, read)
  {
  }

  lemma NewRoundIsOpen(c: Config, s: State, s1: State, s': State)
    requires OneMoreRound(c, s, s1, Init) && StatusOnly(s1, s', |s.rounds|, Open)
    ensures OneMoreRound(c, s, s', Open)
  {
  }

  lemma GivenUpInTwo(c: Config, s: State, s1: State, s': State, r: RoundId)
    requires r < |s.rounds| && s1.rounds == s.rounds[r := s.rounds[r].(status := CancelledRound, result := None)]
    requires CancelledIn(s.bets, s1.bets, {r}) && OneMoreRound(c, s1, s', Open)
    ensures GivenUp(c, s, s', r)
  {
    assert s'.rounds[r] == s'.rounds[..|s.rounds|][r];
  }

  // The creating transaction finds an active round, or its number taken.
  ghost predicate Blocked(s: State, pid: ProcessId)
    requires ProcessOf(s, pid).Creating?
  {
    FindActive(s.rounds).Some? || NumberTaken(s.rounds, ProcessOf(s, pid).latest + 1)
  }

  // It leaves a round more than the first n, its own or another call's.
  lemma InsertedOrOvertaken(c: Config, s: State, pid: ProcessId, seed: Seed, n: nat)
    requires ProcessOf(s, pid).Creating? && n <= |s.rounds| && (Blocked(s, pid) ==> n < |s.rounds|)
    ensures var s' := CreateStep(c, s, pid, seed);
            var p := ProcessOf(s', pid);
            n < |s'.rounds| && (p.Opening? ==> n <= p.round < |s'.rounds|)
  {
  }

  // If its read is still current and no round is active, the transaction adds the next round.
  lemma CurrentReadInserts(c: Config, reading: seq<Action>, trace: seq<Action>, pid: ProcessId, seed: Seed)
    requires ConfigOk(c) && FindActive(Run(c, EMPTY, trace).rounds).None? && Run(c, EMPTY, reading).rounds == Run(c, EMPTY, trace).rounds
    requires ProcessOf(Run(c, EMPTY, trace), pid) == Creating(LatestNumber(Run(c, EMPTY, reading).rounds))
    ensures var s := Run(c, EMPTY, trace);
            var s' := CreateStep(c, s, pid, seed);
            OneMoreRound(c, s, s', Init) && ProcessOf(s', pid) == Opening(|s.rounds|)
  {
    NextNumberIsFree(c, trace);
  }

  lemma NextNumberIsFree(c: Config, trace: seq<Action>)
    requires ConfigOk(c)
    ensures var rounds := Run(c, EMPTY, trace).rounds; LatestNumber(rounds) == |rounds| && !NumberTaken(rounds, |rounds| + 1)
  {
    ReachableIsOk(c, trace);
    var rounds := Run(c, EMPTY, trace).rounds;
    forall i | 0 <= i < |rounds| ensures rounds[i].number == i + 1 { assert RoundOk(c, rounds, i); }
    LatestIsCount(rounds);
  }

  lemma OnlyNewestIsActive(c: Config, trace: seq<Action>, r: RoundId)
    requires ConfigOk(c) && Reached(c, trace, r, 0)
    ensures var rounds := Run(c, EMPTY, trace).rounds; Active(rounds[r].status) ==> r + 1 == |rounds|
  {
    ReachableIsOk(c, trace);
    assert RoundOk(c, Run(c, EMPTY, trace).rounds, r);
  }

  lemma NobodyActive(c: Config, trace: seq<Action>, r: RoundId)
    requires ConfigOk(c) && Reached(c, trace, r, 4)
    ensures var rounds := Run(c, EMPTY, trace).rounds; r + 1 == |rounds| ==> FindActive(rounds).None?
  {
    OverMeansAllBefore(c, trace, r);
    var rounds := Run(c, EMPTY, trace).rounds;
    if r + 1 == |rounds| {
      forall q: RoundId | q < |rounds| ensures !Active(rounds[q].status) { assert Reached(c, trace, q, 4); }
    }
  }

  // What holds of the copy a tick resolved or stopped with holds of the one it found.
  lemma LeavesAsFound(c: Config, trace: seq<Action>, tick: Tick, copy: Copy, current: Copy, pastLock: bool, pastEnd: bool, read: Option<Seed>)
    requires current.round == copy.round && Rank(current.status) >= (if pastLock then Rank(Locked) else Rank(Open))
    requires Rank(copy.status) >= Rank(Locked) ==> current == copy
    requires TickLeaves(c, trace, tick, copy.round, current.status, Rank(current.status) >= Rank(Locked), pastEnd, read)
    ensures TickLeaves(c, trace, tick, copy.round, copy.status, pastLock, pastEnd, read)
  {
  }

  // The four ways a resolving tick ends.

  lemma RecoveryLeaves(c: Config, trace: seq<Action>, r: RoundId, read: Option<Seed>, recovered: bool)
    requires Reached(c, trace, r, if recovered then 4 else Rank(Locked)) && !GoodSeed(c, trace, r, read)
    requires if recovered then Over(Run(c, EMPTY, trace), r) else !AllRefundable(Run(c, EMPTY, trace), {r}, true)
    ensures TickLeaves(c, trace, if recovered then Recovered(r) else RecoveryRefused(r), r, Locked, true, true, read)
  {
  }

  lemma SettlementLeaves(c: Config, trace: seq<Action>, r: RoundId, result: Color, read: Option<Seed>, error: Option<SettlementError>)
    requires Reached(c, trace, r, Rank(Resolving)) && GoodSeed(c, trace, r, read)
    requires var s := Run(c, EMPTY, trace);
             if error.None? then Over(s, r) && SettledAs(s, r, result) else Explained(c, s, r, result, error.value)
    ensures TickLeaves(c, trace, if error.None? then Resolved(r, result) else SettlementFailed(r, result, error.value),
                       r, Locked, true, true, read)
  {
  }

  lemma ReachedEndIsOver(c: Config, trace: seq<Action>, r: RoundId)
    requires ConfigOk(c) && Reached(c, trace, r, 4) && r + 1 < |Run(c, EMPTY, trace).rounds|
    ensures Over(Run(c, EMPTY, trace), r)
  {
    RunLeavesNothingHanging(c, trace);
  }

  lemma DriverKnows(c: Config, trace: seq<Action>, pid: ProcessId)
    requires ConfigOk(c) && ProcessOf(Run(c, EMPTY, trace), pid).Driving?
    ensures var copy := ProcessOf(Run(c, EMPTY, trace), pid).copy; Reached(c, trace, copy.round, Rank(copy.status))
  {
    ReachableIsOk(c, trace);
    assert ProcessOk(c, Run(c, EMPTY, trace), ProcessOf(Run(c, EMPTY, trace), pid));
  }

  lemma SettlerKnows(c: Config, trace: seq<Action>, pid: ProcessId)
    requires ConfigOk(c) && ProcessOf(Run(c, EMPTY, trace), pid).Settling?
    ensures Reached(c, trace, ProcessOf(Run(c, EMPTY, trace), pid).round, Rank(Resolving))
  {
    ReachableIsOk(c, trace);
    assert ProcessOk(c, Run(c, EMPTY, trace), ProcessOf(Run(c, EMPTY, trace), pid));
  }

  // How far each step of a tick takes its round.

  lemma OpeningReaches(c: Config, trace: seq<Action>, pid: ProcessId, r: RoundId)
    requires Reached(c, trace, r, 0)
    requires var p := ProcessOf(Run(c, EMPTY, trace), pid); p == Opening(r) || (p.Driving? && p.copy.status == Init && p.copy.round == r)
    ensures Reached(c, trace + [OpenRound(pid)], r, Rank(Open))
  {
    RunOneMore(c, EMPTY, trace, OpenRound(pid));
  }

  lemma LockingReaches(c: Config, trace: seq<Action>, pid: ProcessId)
    requires ConfigOk(c) && ProcessOf(Run(c, EMPTY, trace), pid).Driving? && ProcessOf(Run(c, EMPTY, trace), pid).copy.status == Open
    ensures Reached(c, trace + [LockRound(pid)], ProcessOf(Run(c, EMPTY, trace), pid).copy.round, Rank(Locked))
  {
    DriverKnows(c, trace, pid);
    RunOneMore(c, EMPTY, trace, LockRound(pid));
  }

  lemma ReadingShows(c: Config, trace: seq<Action>, pid: ProcessId, r: RoundId, rank: nat)
    requires ProcessOf(Run(c, EMPTY, trace), pid) == ReadingBack(r) && Reached(c, trace, r, rank)
    ensures var p := ProcessOf(Run(c, EMPTY, trace + [ReadBack(pid)]), pid);
            p.Driving? && p.copy.round == r && Rank(p.copy.status) >= rank
  {
    RunOneMore(c, EMPTY, trace, ReadBack(pid));
  }

  lemma {:induction false} ResolvingMovesOn(c: Config, trace: seq<Action>, pid: ProcessId, read: Option<Seed>)
    requires ConfigOk(c) && ProcessOf(Run(c, EMPTY, trace), pid).Driving?
    requires var copy := ProcessOf(Run(c, EMPTY, trace), pid).copy; copy.status == Locked || copy.status == Resolving
    ensures var copy := ProcessOf(Run(c, EMPTY, trace), pid).copy;
            var after := trace + [ResolveRound(pid, read)];
            var p := ProcessOf(Run(c, EMPTY, after), pid);
            && GoodSeed(c, trace, copy.round, read) == GoodSeed(c, after, copy.round, read) == !p.Recovering?
            && (|| (p == Recovering(copy.round) && Reached(c, after, copy.round, Rank(Locked)))
                || (p.Settling? && p.round == copy.round && p.stage.Beginning? && !p.forcing)
                || (p == Idle && copy.status == Locked && Reached(c, after, copy.round, Rank(Resolving))))
  {
    DriverKnows(c, trace, pid);
    ReachableIsOk(c, trace);
    var copy := ProcessOf(Run(c, EMPTY, trace), pid).copy;
    assert ProcessOk(c, Run(c, EMPTY, trace), ProcessOf(Run(c, EMPTY, trace), pid));
    assert RoundOk(c, Run(c, EMPTY, trace).rounds, copy.round);
    OwnSeedMatches(c, Run(c, EMPTY, trace).rounds[copy.round], read);
    RunOneMore(c, EMPTY, trace, ResolveRound(pid, read));
    GoodSeedStays(c, trace, trace + [ResolveRound(pid, read)], copy.round, read);
  }

  lemma OwnSeedMatches(c: Config, round: Round, read: Option<Seed>)
    requires Injective(c.hash) && round.hash == c.hash(round.secret)
    ensures read == Some(round.secret) <==> read.Some? && c.hash(read.value) == round.hash
  {
    if read.Some? && c.hash(read.value) == c.hash(round.secret) { assert read.value == round.secret; }
  }

  // The seed that was read is the one the round was committed to.
  ghost predicate GoodSeed(c: Config, trace: seq<Action>, r: RoundId, read: Option<Seed>) {
    var rounds := Run(c, EMPTY, trace).rounds;
    r < |rounds| && read == Some(rounds[r].secret)
  }

  lemma GoodSeedStays(c: Config, earlier: seq<Action>, trace: seq<Action>, r: RoundId, read: Option<Seed>)
    requires ConfigOk(c) && earlier <= trace && r < |Run(c, EMPTY, earlier).rounds|
    ensures GoodSeed(c, trace, r, read) == GoodSeed(c, earlier, r, read)
  {
    var since := trace[|earlier|..];
    assert trace == earlier + since;
    RunInTwo(c, EMPTY, earlier, since);
    ReachableIsOk(c, earlier);
    StatusNeverGoesBack(c, Run(c, EMPTY, earlier), since, r);
  }

  lemma RecoveryReaches(c: Config, trace: seq<Action>, pid: ProcessId, order: seq<BetId>)
    requires ConfigOk(c) && ProcessOf(Run(c, EMPTY, trace), pid).Recovering?
    requires ListsPending(Run(c, EMPTY, trace), {ProcessOf(Run(c, EMPTY, trace), pid).round}, order)
    ensures ProcessOf(Run(c, EMPTY, trace + [RecoverRound(pid, order)]), pid) == Numbering ==>
              Reached(c, trace + [RecoverRound(pid, order)], ProcessOf(Run(c, EMPTY, trace), pid).round, 4)
  {
    ReachableIsOk(c, trace);
    assert ProcessOk(c, Run(c, EMPTY, trace), ProcessOf(Run(c, EMPTY, trace), pid));
    RunOneMore(c, EMPTY, trace, RecoverRound(pid, order));
  }

  lemma FinishingReaches(c: Config, trace: seq<Action>, pid: ProcessId)
    requires ConfigOk(c) && ProcessOf(Run(c, EMPTY, trace), pid).Settling? && ProcessOf(Run(c, EMPTY, trace), pid).stage.Settled?
    ensures Reached(c, trace + [FinishRound(pid)], ProcessOf(Run(c, EMPTY, trace), pid).round, 4)
  {
    SettlerKnows(c, trace, pid);
    RunOneMore(c, EMPTY, trace, FinishRound(pid));
    FinishingEnds(Run(c, EMPTY, trace), pid, ProcessOf(Run(c, EMPTY, trace), pid));
  }

  lemma FinishingEnds(s: State, pid: ProcessId, p: Process)
    requires p.Settling? && p.round < |s.rounds| && Rank(s.rounds[p.round].status) >= Rank(Resolving)
    ensures var rounds := FinishTx(s, pid, p).rounds; |rounds| == |s.rounds| && Rank(rounds[p.round].status) == 4
  {
  }
}
