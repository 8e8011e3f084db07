// Rounds, settlements and the copies engines hold of them, under any interleaving.
module GameRounds {
  import opened Types
  import opened Ledger
  import opened Bets
  import opened Results
  import opened Game

  ghost predicate Injective(hash: Seed -> Digest) {
    forall x, y :: hash(x) == hash(y) ==> x == y
  }

  ghost predicate RoundOk(c: Config, rounds: seq<Round>, i: RoundId)
    requires i < |rounds|
  {
    var r := rounds[i];
    && r.number == i + 1
    && (i + 1 < |rounds| ==> !Active(r.status))
    && r.hash == c.hash(r.secret)
    && (Rank(r.status) < 3 ==> r.decided.None?)
    && (r.result.Some? ==> r.decided == r.result)
    && (r.status == Resolving ==> r.result.Some?)
    && (r.status == Completed ==> r.result.Some? && r.seedReveal.Some?)
    && (r.seedReveal.Some? ==> r.status == Completed && c.hash(r.seedReveal.value) == r.hash)
    && (r.decided.Some? && !r.forced ==> r.decided.value == ResultOf(r.hash))
  }

  ghost predicate RoundsOk(c: Config, rounds: seq<Round>) {
    forall i: RoundId :: i < |rounds| ==> RoundOk(c, rounds, i)
  }

  // A settlement row exists only for a round that was resolved with that result.
  ghost predicate SettlementOk(s: State, r: RoundId)
    requires r in s.settlements
  {
    && r < |s.rounds|
    && Rank(s.rounds[r].status) >= 3
    && s.rounds[r].decided == Some(s.settlements[r].result)
    && (s.settlements[r].success ==> Final(s, r, s.settlements[r].stats))
  }

  // The counted figures are those of the bets table, and nothing is pending.
  ghost predicate Final(s: State, r: RoundId, stats: Stats) {
    stats.pending == 0 && stats == StatsOf(s.bets, r)
  }

  ghost predicate CopyOk(s: State, copy: Copy) {
    && copy.round < |s.rounds|
    && Rank(copy.status) <= Rank(s.rounds[copy.round].status)
    && copy.hash == s.rounds[copy.round].hash
    && (copy.result.Some? ==> s.rounds[copy.round].decided == copy.result)
    && (copy.status == Resolving ==> copy.result.Some?)
    && (Rank(copy.status) < 3 ==> copy.result.None?)
  }

  ghost predicate Resolved(s: State, r: RoundId, result: Color) {
    r < |s.rounds| && Rank(s.rounds[r].status) >= 3 && s.rounds[r].decided == Some(result)
  }

  ghost predicate ProcessOk(c: Config, s: State, p: Process) {
    match p
    case Idle => true
    case Looked(found) => found.Some? ==> CopyOk(s, found.value)
    case Numbering => true
    case Creating(latest) => 0 <= latest <= |s.rounds|
    case Opening(r) => r < |s.rounds|
    case ReadingBack(r) => r < |s.rounds|
    case Driving(copy) => CopyOk(s, copy)
    case Recovering(r) => r < |s.rounds|
    case CheckingSeed(r, result, hash) => Resolved(s, r, result) && s.rounds[r].hash == hash
    case Settling(r, result, seed, forcing, stage) =>
      && Resolved(s, r, result)
      && c.hash(seed) == s.rounds[r].hash
      && (!stage.Beginning? ==> SettlementAllows(s, r, result))
      && (stage.Counted? ==> stage.stats.pending >= 0 && (stage.stats.pending == 0 ==> Final(s, r, stage.stats)))
      && (stage.Settled? ==> s.settlements[r].success)
  }

  ghost predicate ControlOk(c: Config, s: State) {
    && RoundsOk(c, s.rounds)
    && (forall r :: r in s.settlements ==> SettlementOk(s, r))
    && (forall pid :: pid in s.processes ==> ProcessOk(c, s, s.processes[pid]))
  }

  // ---------------------------------------------------------------- how rounds may move

  // What no step undoes: a round keeps its number, seed and decision, and its status never goes back.
  ghost predicate Advances(old_: Round, new_: Round) {
    && new_.number == old_.number
    && new_.hash == old_.hash
    && new_.secret == old_.secret
    && Rank(old_.status) <= Rank(new_.status)
    && (old_.decided.Some? ==> new_.decided == old_.decided)
  }

  ghost predicate RoundsAdvance(rounds: seq<Round>, rounds': seq<Round>) {
    && |rounds| <= |rounds'|
    && forall i :: 0 <= i < |rounds| ==> Advances(rounds[i], rounds'[i])
  }

  // Bets of rounds that have a settlement row keep their count, and a round with nothing pending is fixed.
  ghost predicate SettledRoundsKeep(s: State, s': State) {
    && (forall r :: r in s.settlements ==> r in s'.settlements && s'.settlements[r].result == s.settlements[r].result)
    && (forall r :: r in s.settlements && s.settlements[r].success ==> s'.settlements[r].success)
    && (forall r, stats :: r in s.settlements && Final(s, r, stats) ==> Final(s', r, stats))
  }

  lemma CopiesStayOk(c: Config, s: State, s': State, p: Process)
    requires ProcessOk(c, s, p)
    requires RoundsAdvance(s.rounds, s'.rounds) && SettledRoundsKeep(s, s')
    ensures ProcessOk(c, s', p)
  {
    match p
    case Looked(found) =>
      if found.Some? { assert Advances(s.rounds[found.value.round], s'.rounds[found.value.round]); }
    case Driving(copy) => assert Advances(s.rounds[copy.round], s'.rounds[copy.round]);
    case CheckingSeed(r, result, hash) => assert Advances(s.rounds[r], s'.rounds[r]);
    case Settling(r, result, seed, forcing, stage) => assert Advances(s.rounds[r], s'.rounds[r]);
    case _ =>
  }

  // Enough to reprove the control invariant after a step that one process took.
  lemma ControlAfter(c: Config, s: State, s': State, pid: ProcessId)
    requires ControlOk(c, s)
    requires RoundsAdvance(s.rounds, s'.rounds) && SettledRoundsKeep(s, s')
    requires RoundsOk(c, s'.rounds)
    requires forall r :: r in s'.settlements && r !in s.settlements ==> SettlementOk(s', r)
    requires forall r :: r in s'.settlements && r in s.settlements ==>
               (s'.settlements[r].success ==> Final(s', r, s'.settlements[r].stats))
    requires forall p :: p in s'.processes && p != pid ==> p in s.processes && s'.processes[p] == s.processes[p]
    requires pid in s'.processes ==> ProcessOk(c, s', s'.processes[pid])
    ensures ControlOk(c, s')
  {
    forall r | r in s'.settlements ensures SettlementOk(s', r) {
      if r in s.settlements {
        assert SettlementOk(s, r);
        assert Advances(s.rounds[r], s'.rounds[r]);
      }
    }
    forall p | p in s'.processes ensures ProcessOk(c, s', s'.processes[p]) {
      if p != pid { CopiesStayOk(c, s, s', s.processes[p]); }
    }
  }

  // A step that leaves rounds, bets and settlements alone and only moves one process.
  lemma OnlyProcessMoves(c: Config, s: State, pid: ProcessId, p: Process)
    requires ControlOk(c, s) && ProcessOk(c, s, p)
    ensures ControlOk(c, Become(s, pid, p))
  {
    var s' := Become(s, pid, p);
    CopiesStayOk(c, s, s', p);
    ControlAfter(c, s, s', pid);
  }

  // ---------------------------------------------------------------- numbering

  lemma {:induction false} LatestIsCount(rounds: seq<Round>)
    requires forall i :: 0 <= i < |rounds| ==> rounds[i].number == i + 1
    ensures LatestNumber(rounds) == |rounds|
  {
    if |rounds| > 0 { LatestIsCount(rounds[..|rounds| - 1]); }
  }

  // A stale number is taken; only the next one is free.
  lemma StaleNumberIsTaken(c: Config, rounds: seq<Round>, latest: int)
    requires RoundsOk(c, rounds) && 0 <= latest <= |rounds|
    ensures NumberTaken(rounds, latest + 1) <==> latest < |rounds|
  {
    forall i | 0 <= i < |rounds| ensures rounds[i].number == i + 1 { assert RoundOk(c, rounds, i); }
    assert latest < |rounds| ==> rounds[latest].number == latest + 1;
  }

  // ---------------------------------------------------------------- single round updates

  lemma UpdateKeepsRounds(c: Config, rounds: seq<Round>, r: RoundId, round': Round)
    requires RoundsOk(c, rounds) && r < |rounds|
    requires Advances(rounds[r], round')
    requires RoundOk(c, rounds[r := round'], r)
    ensures RoundsOk(c, rounds[r := round']) && RoundsAdvance(rounds, rounds[r := round'])
  {
    var rounds' := rounds[r := round'];
    forall i: RoundId | i < |rounds'| ensures RoundOk(c, rounds', i) {
      assert RoundOk(c, rounds, i);
    }
  }

  lemma AppendKeepsRounds(c: Config, rounds: seq<Round>, status: RoundStatus, seed: Seed)
    requires RoundsOk(c, rounds) && Rank(status) < 3
    requires forall i :: 0 <= i < |rounds| ==> !Active(rounds[i].status)
    ensures RoundsOk(c, rounds + [NewRound(c, |rounds| + 1, status, seed)])
  {
    var rounds' := rounds + [NewRound(c, |rounds| + 1, status, seed)];
    forall i: RoundId | i < |rounds'| ensures RoundOk(c, rounds', i) {
      if i < |rounds| { assert RoundOk(c, rounds, i); }
    }
  }

  lemma TransitionKeepsControl(c: Config, s: State, r: RoundId, from: RoundStatus, to: RoundStatus, pid: ProcessId, p: Process)
    requires ControlOk(c, s)
    requires (from == Init && to == Open) || (from == Open && to == Locked)
    requires ProcessOk(c, s, p)
    ensures ControlOk(c, Become(Transition(s, r, from, to), pid, p))
    ensures RoundsAdvance(s.rounds, Transition(s, r, from, to).rounds)
  {
    var s' := Transition(s, r, from, to);
    if s' == s {
      OnlyProcessMoves(c, s, pid, p);
    } else {
      assert RoundOk(c, s.rounds, r);
      UpdateKeepsRounds(c, s.rounds, r, s.rounds[r].(status := to));
      CopiesStayOk(c, s, Become(s', pid, p), p);
      ControlAfter(c, s, Become(s', pid, p), pid);
    }
  }

  lemma CopyOfIsOk(c: Config, s: State, r: RoundId)
    requires RoundsOk(c, s.rounds) && r < |s.rounds|
    ensures CopyOk(s, CopyOf(s, r))
  {
    assert RoundOk(c, s.rounds, r);
  }

  // ---------------------------------------------------------------- engine and administrator steps

  // What every control step does to the rest: bets and wallets stay, rounds advance, recorded results stay.
  ghost predicate ControlOnly(s: State, s': State) {
    && s'.bets == s.bets
    && s'.bank == s.bank
    && s'.paused == s.paused
    && RoundsAdvance(s.rounds, s'.rounds)
    && forall r :: r in s.settlements ==> r in s'.settlements && s'.settlements[r].result == s.settlements[r].result
  }

  // The step keeps the control invariant and does nothing else.
  ghost predicate GoodStep(c: Config, s: State, s': State) { ControlOk(c, s') && ControlOnly(s, s') }

  lemma ProcessMoveIsGood(c: Config, s: State, pid: ProcessId, p: Process)
    requires ControlOk(c, s) && ProcessOk(c, s, p)
    ensures GoodStep(c, s, Become(s, pid, p))
  {
    OnlyProcessMoves(c, s, pid, p);
  }

  lemma ReadsAreGood(c: Config, s: State, pid: ProcessId)
    requires ControlOk(c, s)
    ensures GoodStep(c, s, LookStep(s, pid)) && GoodStep(c, s, ReadBackStep(s, pid))
  {
    var r := FindActive(s.rounds);
    if r.Some? { CopyOfIsOk(c, s, r.value); }
    ProcessMoveIsGood(c, s, pid, Looked(if r.None? then None else Some(CopyOf(s, r.value))));
    var p := ProcessOf(s, pid);
    if p.ReadingBack? {
      CopyOfIsOk(c, s, p.round);
      ProcessMoveIsGood(c, s, pid, Driving(CopyOf(s, p.round)));
    }
  }

  lemma ControlIsGood(c: Config, s: State, pid: ProcessId)
    requires ControlOk(c, s)
    ensures GoodStep(c, s, ControlStep(s, pid))
  {
    ProcessMoveIsGood(c, s, pid, Idle);
    ProcessMoveIsGood(c, s, pid, Numbering);
    var p := ProcessOf(s, pid);
    if p.Looked? && p.found.Some? { ProcessMoveIsGood(c, s, pid, Driving(p.found.value)); }
  }

  lemma NumberIsGood(c: Config, s: State, pid: ProcessId)
    requires ControlOk(c, s)
    ensures GoodStep(c, s, NumberStep(s, pid))
  {
    forall i | 0 <= i < |s.rounds| ensures s.rounds[i].number == i + 1 { assert RoundOk(c, s.rounds, i); }
    LatestIsCount(s.rounds);
    ProcessMoveIsGood(c, s, pid, Creating(LatestNumber(s.rounds)));
  }

  lemma CreateIsGood(c: Config, s: State, pid: ProcessId, seed: Seed)
    requires ControlOk(c, s)
    ensures GoodStep(c, s, CreateStep(c, s, pid, seed))
  {
    var p := ProcessOf(s, pid);
    if p.Creating? {
      if FindActive(s.rounds).Some? || NumberTaken(s.rounds, p.latest + 1) {
        ProcessMoveIsGood(c, s, pid, Idle);
      } else {
        StaleNumberIsTaken(c, s.rounds, p.latest);
        AppendKeepsRounds(c, s.rounds, Init, seed);
        ControlAfter(c, s, CreateStep(c, s, pid, seed), pid);
      }
    }
  }

  lemma OpenIsGood(c: Config, s: State, pid: ProcessId)
    requires ControlOk(c, s)
    ensures GoodStep(c, s, OpenStep(s, pid))
  {
    var p := ProcessOf(s, pid);
    if p.Opening? { TransitionKeepsControl(c, s, p.round, Init, Open, pid, Idle); }
    if p.Driving? { TransitionKeepsControl(c, s, p.copy.round, Init, Open, pid, ReadingBack(p.copy.round)); }
  }

  lemma LockIsGood(c: Config, s: State, pid: ProcessId)
    requires ControlOk(c, s)
    ensures GoodStep(c, s, LockStep(s, pid))
  {
    var p := ProcessOf(s, pid);
    ProcessMoveIsGood(c, s, pid, Idle);
    if p.Driving? { TransitionKeepsControl(c, s, p.copy.round, Open, Locked, pid, ReadingBack(p.copy.round)); }
  }

  lemma DecidedByEngineIsOk(c: Config, rounds: seq<Round>, r: RoundId, seed: Seed)
    requires RoundsOk(c, rounds) && r < |rounds| && rounds[r].status == Locked
    requires Injective(c.hash) && c.hash(seed) == rounds[r].hash
    ensures var rounds' := rounds[r := Decided(rounds[r], ResultOf(c.hash(seed)), false)];
            RoundsOk(c, rounds') && RoundsAdvance(rounds, rounds')
  {
    assert RoundOk(c, rounds, r);
    assert seed == rounds[r].secret;
    UpdateKeepsRounds(c, rounds, r, Decided(rounds[r], ResultOf(c.hash(seed)), false));
  }

  lemma ResolveIsGood(c: Config, s: State, pid: ProcessId, read: Option<Seed>)
    requires ControlOk(c, s) && Injective(c.hash)
    ensures GoodStep(c, s, ResolveStep(c, s, pid, read))
  {
    var p := ProcessOf(s, pid);
    if p.Driving? && (p.copy.status == Locked || p.copy.status == Resolving) {
      var copy := p.copy;
      if read.None? || c.hash(read.value) != copy.hash {
        ProcessMoveIsGood(c, s, pid, Recovering(copy.round));
      } else if copy.status == Resolving {
        ProcessMoveIsGood(c, s, pid, Settling(copy.round, copy.result.value, read.value, false, Beginning));
      } else if s.rounds[copy.round].status == Locked {
        assert RoundOk(c, s.rounds, copy.round);
        DecidedByEngineIsOk(c, s.rounds, copy.round, read.value);
        ControlAfter(c, s, ResolveTx(c, s, pid, copy, read), pid);
      } else {
        ProcessMoveIsGood(c, s, pid, Idle);
      }
    }
  }

  lemma DecidedByForceIsOk(c: Config, rounds: seq<Round>, r: RoundId, result: Color)
    requires RoundsOk(c, rounds) && r < |rounds| && Active(rounds[r].status)
    requires rounds[r].result.Some? ==> rounds[r].result.value == result
    ensures var rounds' := rounds[r := Decided(rounds[r], result, true)];
            RoundsOk(c, rounds') && RoundsAdvance(rounds, rounds') && rounds'[r].decided == Some(result)
  {
    assert RoundOk(c, rounds, r);
    UpdateKeepsRounds(c, rounds, r, Decided(rounds[r], result, true));
  }

  lemma ForcedRoundIsGood(c: Config, s: State, pid: ProcessId, r: RoundId, result: Color)
    requires ControlOk(c, s) && r < |s.rounds| && Active(s.rounds[r].status)
    requires s.rounds[r].result.Some? ==> s.rounds[r].result.value == result
    ensures GoodStep(c, s, Become(s.(rounds := s.rounds[r := Decided(s.rounds[r], result, true)]), pid,
                                  CheckingSeed(r, result, s.rounds[r].hash)))
  {
    DecidedByForceIsOk(c, s.rounds, r, result);
    ControlAfter(c, s, Become(s.(rounds := s.rounds[r := Decided(s.rounds[r], result, true)]), pid,
                              CheckingSeed(r, result, s.rounds[r].hash)), pid);
  }

  lemma ForceResultIsGood(c: Config, s: State, pid: ProcessId, result: Color)
    requires ControlOk(c, s)
    ensures GoodStep(c, s, ForceResultStep(s, pid, result))
  {
    var found := FindActive(s.rounds);
    if found.Some? && ProcessOf(s, pid).Idle? {
      var r := found.value;
      if !(s.rounds[r].result.Some? && s.rounds[r].result.value != result) {
        ForcedRoundIsGood(c, s, pid, r, result);
      }
    }
  }

  lemma CheckSeedIsGood(c: Config, s: State, pid: ProcessId, read: Option<Seed>)
    requires ControlOk(c, s)
    ensures GoodStep(c, s, CheckSeedStep(c, s, pid, read))
  {
    var p := ProcessOf(s, pid);
    ProcessMoveIsGood(c, s, pid, Idle);
    if p.CheckingSeed? && read.Some? && c.hash(read.value) == p.hash {
      ProcessMoveIsGood(c, s, pid, Settling(p.round, p.result, read.value, true, Beginning));
    }
  }

  lemma BeginIsGood(c: Config, s: State, pid: ProcessId)
    requires ControlOk(c, s)
    ensures GoodStep(c, s, BeginStep(s, pid))
  {
    var p := ProcessOf(s, pid);
    if p.Settling? && p.stage.Beginning? {
      forall r | r in s.settlements ensures SettlementOk(s, r) {}
      ControlAfter(c, s, BeginTx(s, pid, p), pid);
    }
  }

  lemma CountIsGood(c: Config, s: State, pid: ProcessId)
    requires ControlOk(c, s) && Positive(s.bets)
    ensures GoodStep(c, s, CountStep(s, pid))
  {
    var p := ProcessOf(s, pid);
    if p.Settling? && p.stage.Working? {
      SumCoversBet(PendingIn(p.round), s.bets, 0);
      ProcessMoveIsGood(c, s, pid, p.(stage := Counted(StatsOf(s.bets, p.round))));
    }
  }

  lemma CompleteIsGood(c: Config, s: State, pid: ProcessId)
    requires ControlOk(c, s)
    ensures GoodStep(c, s, CompleteStep(s, pid))
  {
    var p := ProcessOf(s, pid);
    if p.Settling? && p.stage.Counted? {
      if p.stage.stats.pending > 0 {
        ProcessMoveIsGood(c, s, pid, Idle);
      } else {
        forall r | r in s.settlements ensures SettlementOk(s, r) {}
        ControlAfter(c, s, CompleteStep(s, pid), pid);
      }
    }
  }

  lemma CompletedRoundIsOk(c: Config, rounds: seq<Round>, r: RoundId, result: Color, seed: Seed)
    requires RoundsOk(c, rounds) && r < |rounds| && Rank(rounds[r].status) >= 3
    requires rounds[r].decided == Some(result) && c.hash(seed) == rounds[r].hash
    ensures var rounds' := rounds[r := rounds[r].(status := Completed, result := Some(result), seedReveal := Some(seed))];
            RoundsOk(c, rounds') && RoundsAdvance(rounds, rounds')
  {
    assert RoundOk(c, rounds, r);
    UpdateKeepsRounds(c, rounds, r, rounds[r].(status := Completed, result := Some(result), seedReveal := Some(seed)));
  }

  lemma FinishIsGood(c: Config, s: State, pid: ProcessId)
    requires ControlOk(c, s)
    ensures GoodStep(c, s, FinishStep(s, pid))
  {
    var p := ProcessOf(s, pid);
    if p.Settling? && p.stage.Settled? {
      CompletedRoundIsOk(c, s.rounds, p.round, p.result, p.seed);
      ControlAfter(c, s, FinishTx(s, pid, p), pid);
    }
  }

  lemma ControlActionIsGood(c: Config, s: State, a: Action)
    requires ControlOk(c, s) && Injective(c.hash) && Positive(s.bets) && IsControl(a)
    ensures GoodStep(c, s, ControlAction(c, s, a))
  {
    match a
    case LookForRound(pid) => ReadsAreGood(c, s, pid);
    case CheckControl(pid) => ControlIsGood(c, s, pid);
    case ReadLatest(pid) => NumberIsGood(c, s, pid);
    case CreateRound(pid, seed) => CreateIsGood(c, s, pid, seed);
    case OpenRound(pid) => OpenIsGood(c, s, pid);
    case ReadBack(pid) => ReadsAreGood(c, s, pid);
    case LockRound(pid) => LockIsGood(c, s, pid);
    case ResolveRound(pid, read) => ResolveIsGood(c, s, pid, read);
    case BeginSettlement(pid) => BeginIsGood(c, s, pid);
    case CountBets(pid) => CountIsGood(c, s, pid);
    case CompleteSettlement(pid) => CompleteIsGood(c, s, pid);
    case FinishRound(pid) => FinishIsGood(c, s, pid);
    case ForceResult(pid, result) => ForceResultIsGood(c, s, pid, result);
    case CheckSeed(pid, read) => CheckSeedIsGood(c, s, pid, read);
    case Crash(pid) => ProcessMoveIsGood(c, s, pid, Idle);
  }
}
