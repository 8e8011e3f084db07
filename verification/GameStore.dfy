// The database of the coin game as one mutable object. Each method is one transaction, one statement or
// one read of the repositories; between two of them any other call may take steps.
module GameStore {
  import opened Types
  import opened Ledger
  import opened LedgerLaws
  import opened Bets
  import opened Results
  import opened Game
  import opened GameMoney
  import opened GameRounds
  import opened GameSafety
  import opened GameTheorems
  import opened GameExact
  import opened WalletBook

  // Steps only the running call pid takes.
  predicate Belongs(a: Action, pid: ProcessId) {
    match a
    case LookForRound(p) => p == pid
    case CheckControl(p) => p == pid
    case ReadLatest(p) => p == pid
    case CreateRound(p, _) => p == pid
    case OpenRound(p) => p == pid
    case ReadBack(p) => p == pid
    case LockRound(p) => p == pid
    case ResolveRound(p, _) => p == pid
    case RecoverRound(p, _) => p == pid
    case BeginSettlement(p) => p == pid
    case CountBets(p) => p == pid
    case CompleteSettlement(p) => p == pid
    case FinishRound(p) => p == pid
    case ForceResult(p, _) => p == pid
    case CheckSeed(p, _) => p == pid
    case Crash(p) => p == pid
    case _ => false
  }

  lemma ControlKeepsOtherProcess(c: Config, s: State, a: Action, pid: ProcessId)
    requires IsControl(a) && !Belongs(a, pid)
    ensures ProcessOf(ControlAction(c, s, a), pid) == ProcessOf(s, pid)
  {
  }

  lemma OthersKeepProcess(c: Config, s: State, a: Action, pid: ProcessId)
    requires !Belongs(a, pid)
    ensures ProcessOf(Step(c, s, a), pid) == ProcessOf(s, pid)
  {
    if IsControl(a) { ControlKeepsOtherProcess(c, s, a, pid); }
  }

  lemma RunOneMore(c: Config, s: State, actions: seq<Action>, a: Action)
    ensures Run(c, s, actions + [a]) == Step(c, Run(c, s, actions), a)
  {
    assert (actions + [a])[..|actions|] == actions;
  }

  lemma {:induction false} RunInTwo(c: Config, s: State, first: seq<Action>, then_: seq<Action>)
    ensures Run(c, s, first + then_) == Run(c, Run(c, s, first), then_)
  {
    if |then_| == 0 {
      assert first + then_ == first;
    } else {
      var n := |then_| - 1;
      assert first + then_ == (first + then_[..n]) + [then_[n]];
      RunInTwo(c, s, first, then_[..n]);
      RunOneMore(c, s, first + then_[..n], then_[n]);
    }
  }

  class Store {
    const config: Config
    const book: Book
    var rounds: seq<Round>
    var bets: seq<Bet>
    var settlements: map<RoundId, Settlement>
    var paused: bool
    // What each running call remembers, kept here so that interleavings can be spoken about.
    var processes: map<ProcessId, Process>
    // Every step taken since the database was empty.
    ghost var trace: seq<Action>
    // How many of them other calls took in the gaps of the calls written out below. A call during which
    // this number stays the same had the database to itself.
    ghost var foreign: nat

    function View(): State
      reads this, book
    {
      State(rounds, bets, settlements, book.Contents(), paused, processes)
    }

    // The database is where the state machine gets to by the recorded steps.
    ghost predicate Valid()
      reads this, book
    {
      ConfigOk(config) && View() == Run(config, EMPTY, trace)
    }

    constructor (c: Config)
      requires ConfigOk(c)
      ensures Valid() && config == c && View() == EMPTY && fresh(book)
    {
      config := c;
      book := new Book();
      rounds, bets, settlements, paused, processes, trace, foreign := [], [], map[], false, map[], [], 0;
    }

    lemma IsReachable()
      requires Valid()
      ensures Inv(config, View())
    {
      ReachableIsOk(config, trace);
    }

    method Restore(s: State)
      modifies this, book
      ensures View() == s && trace == old(trace) && foreign == old(foreign)
    {
      rounds, bets, settlements, paused, processes := s.rounds, s.bets, s.settlements, s.paused, s.processes;
      book.Restore(s.bank);
    }

    ghost method Record(before: State, a: Action)
      requires ConfigOk(config) && before == Run(config, EMPTY, trace) && View() == Step(config, before, a)
      modifies this`trace
      ensures Valid() && trace == old(trace) + [a]
    {
      RunOneMore(config, EMPTY, trace, a);
      trace := trace + [a];
    }

    // Whatever other calls do between two steps of call pid.
    method Interleave(pid: ProcessId)
      requires Valid()
      modifies this, book
      ensures Valid() && old(trace) <= trace
      ensures ProcessOf(View(), pid) == old(ProcessOf(View(), pid))
      ensures forall i :: |old(trace)| <= i < |trace| ==> !Belongs(trace[i], pid)
      ensures foreign - old(foreign) == |trace| - |old(trace)|
      ensures foreign == old(foreign) ==> View() == old(View())
    {
      var actions: seq<Action> := *;
      var i := 0;
      while i < |actions|
        invariant 0 <= i <= |actions|
        invariant Valid() && old(trace) <= trace
        invariant ProcessOf(View(), pid) == old(ProcessOf(View(), pid))
        invariant forall k :: |old(trace)| <= k < |trace| ==> !Belongs(trace[k], pid)
        invariant foreign - old(foreign) == |trace| - |old(trace)|
        invariant foreign == old(foreign) ==> View() == old(View())
      {
        if !Belongs(actions[i], pid) {
          OthersKeepProcess(config, View(), actions[i], pid);
          ghost var before := View();
          Restore(Step(config, View(), actions[i]));
          foreign := foreign + 1;
          Record(before, actions[i]);
        }
        i := i + 1;
      }
    }

    // ---------------------------------------------------------------- settlement statements

    // beginRoundSettlementInTx: insert the row unless there is one, and read it back.
    method BeginRoundSettlement(pid: ProcessId) returns (row: Settlement)
      requires Valid() && ProcessOf(View(), pid).Settling? && ProcessOf(View(), pid).stage.Beginning?
      modifies this
      ensures Valid() && foreign == old(foreign) && trace == old(trace) + [BeginSettlement(pid)]
      ensures var p := old(ProcessOf(View(), pid));
              && p.round in settlements && row == settlements[p.round]
              && View() == BeginTx(old(View()), pid, p)
    {
      ghost var before := View();
      var p := processes[pid];
      if p.round !in settlements {
        settlements := settlements[p.round := Settlement(p.result, false, Stats(0, 0, 0, 0, 0))];
      }
      row := settlements[p.round];
      var next := if row.result != p.result then Idle else p.(stage := if row.success then Settled else Working);
      processes := processes[pid := next];
      Record(before, BeginSettlement(pid));
    }

    method MarkLosingBets(r: RoundId, result: Color) returns (count: nat)
      requires Valid() && SettlementAllows(View(), r, result)
      modifies this
      ensures Valid() && foreign == old(foreign) && trace == old(trace) + [SettleLosers(r, result)]
      ensures View() == old(View()).(bets := MarkLosers(old(bets), r, result))
      ensures count == Sum(PendingIn(r), old(bets)) - Sum(PendingIn(r), bets)
    {
      ghost var before := View();
      count := MarkBetsLost(r, result);
      Record(before, SettleLosers(r, result));
    }

    method MarkBetsLost(r: RoundId, result: Color) returns (count: nat)
      modifies this`bets
      ensures bets == MarkLosers(old(bets), r, result)
      ensures count == Sum(PendingIn(r), old(bets)) - Sum(PendingIn(r), bets)
    {
      count := 0;
      var i := 0;
      while i < |bets|
        invariant 0 <= i <= |bets| == |old(bets)|
        invariant forall k :: 0 <= k < i ==> bets[k] == MarkLosers(old(bets), r, result)[k]
        invariant forall k :: i <= k < |bets| ==> bets[k] == old(bets)[k]
        invariant count == Sum(PendingIn(r), old(bets)) - Sum(PendingIn(r), bets)
      {
        var b := bets[i];
        if b.round == r && b.status == Pending && b.choice != result {
          SumUpdate(PendingIn(r), bets, i, b.(status := Lost, payout := 0));
          bets := bets[i := b.(status := Lost, payout := 0)];
          count := count + 1;
        }
        i := i + 1;
      }
    }

    // SELECT user_id ... GROUP BY user_id ORDER BY user_id LIMIT limit over the pending winners
    method FindPendingWinners(r: RoundId, result: Color, limit: nat) returns (winners: seq<WinnerPayout>)
      ensures |winners| <= limit
      ensures forall i, j :: 0 <= i < j < |winners| ==> winners[i].user < winners[j].user
      ensures forall i :: 0 <= i < |winners| ==>
                winners[i].user in PendingWinners(bets, r, result) && winners[i].total == Sum(Due(r, result, winners[i].user), bets)
      ensures forall u :: u in PendingWinners(bets, r, result) && !Listed(winners, u) ==>
                |winners| == limit && forall i :: 0 <= i < |winners| ==> winners[i].user < u
    {
      var users := FirstInOrder(PendingWinners(bets, r, result), limit);
      winners := [];
      for i := 0 to |users|
        invariant |winners| == i
        invariant forall k :: 0 <= k < i ==> winners[k] == WinnerPayout(users[k], Sum(Due(r, result, users[k]), bets))
      {
        winners := winners + [WinnerPayout(users[i], Sum(Due(r, result, users[i]), bets))];
      }
      assert forall i :: 0 <= i < |users| ==> users[i] in users && winners[i].user == users[i];
      assert forall i :: 0 <= i < |users| ==> Listed(winners, users[i]);
    }

    // The transaction of settleWinnerUser. An error rolls it back.
    method SettleWinnerTx(r: RoundId, result: Color, user: UserId) returns (credited: bool, error: Option<SettlementError>)
      requires Valid() && SettlementAllows(View(), r, result)
      modifies this, book
      ensures Valid() && foreign == old(foreign) && trace == old(trace) + [Action.SettleWinner(r, result, user)]
      ensures View() == SettleUser(old(View()), r, result, user)
      ensures error.Some? ==> View() == old(View()) && !credited && Sum(PendingWins(r, result, user), bets) != 0 &&
                              Refuses(View().bank, r, user, Sum(Due(r, result, user), bets), error.value)
      ensures error.None? && !credited ==> View() == old(View())
      ensures credited <==> error.None? && Sum(PendingWins(r, result, user), old(bets)) != 0
      ensures credited ==> bets == MarkWinner(old(bets), r, result, user)
    {
      ghost var before := View();
      credited, error := CreditWinner(r, result, user);
      Record(before, Action.SettleWinner(r, result, user));
    }

    method CreditWinner(r: RoundId, result: Color, user: UserId) returns (credited: bool, error: Option<SettlementError>)
      modifies this, book
      ensures View() == SettleUser(old(View()), r, result, user) && trace == old(trace) && foreign == old(foreign)
      ensures error.Some? ==> View() == old(View()) && !credited && Sum(PendingWins(r, result, user), bets) != 0 &&
                              Refuses(View().bank, r, user, Sum(Due(r, result, user), bets), error.value)
      ensures credited <==> error.None? && Sum(PendingWins(r, result, user), old(bets)) != 0
      ensures error.None? && !credited ==> View() == old(View())
      ensures credited ==> bets == MarkWinner(old(bets), r, result, user)
    {
      var before := View();
      var locked, payout := LockPendingWinners(r, result, user);
      if |locked| == 0 { return false, None; }
      if payout > MAX_SAFE_INTEGER { return false, Some(PayoutTooLarge); }
      var credit := book.ApplyInTransaction(CreditMovement(r, user, payout));
      if credit.Refused? {
        Restore(before);
        return false, Some(WalletRefused(user, credit.error));
      }
      MarkBetsWon(r, result, user, locked);
      return true, None;
    }

    // lockPendingWinnerBetsForUserInTx, and the sum of the stakes times the multiplier.
    method LockPendingWinners(r: RoundId, result: Color, user: UserId) returns (locked: seq<BetId>, payout: int)
      ensures forall b: BetId :: b in locked <==> b < |bets| && PendingWinner(bets[b], r, result, user)
      ensures |locked| == Sum(PendingWins(r, result, user), bets)
      ensures payout == Sum(Due(r, result, user), bets)
    {
      locked, payout := [], 0;
      var i := 0;
      while i < |bets|
        invariant 0 <= i <= |bets|
        invariant forall b: BetId :: b in locked <==> b < i && PendingWinner(bets[b], r, result, user)
        invariant |locked| == Sum(PendingWins(r, result, user), bets[..i])
        invariant payout == Sum(Due(r, result, user), bets[..i])
      {
        assert bets[..i + 1][..i] == bets[..i];
        if PendingWinner(bets[i], r, result, user) {
          locked := locked + [i];
          payout := payout + bets[i].stake * WIN_PAYOUT_MULTIPLIER;
        }
        i := i + 1;
      }
      assert bets[..i] == bets;
    }

    // markWinnerBetsSettledInTx over the locked rows
    method MarkBetsWon(r: RoundId, result: Color, user: UserId, locked: seq<BetId>)
      requires forall b: BetId :: b in locked <==> b < |bets| && PendingWinner(bets[b], r, result, user)
      modifies this`bets
      ensures bets == MarkWinner(old(bets), r, result, user)
    {
      var i := 0;
      while i < |bets|
        invariant 0 <= i <= |bets| == |old(bets)|
        invariant forall k :: 0 <= k < i ==> bets[k] == MarkWinner(old(bets), r, result, user)[k]
        invariant forall k :: i <= k < |bets| ==> bets[k] == old(bets)[k]
      {
        if i in locked && bets[i].status == Pending {
          bets := bets[i := bets[i].(status := Won, payout := bets[i].stake * WIN_PAYOUT_MULTIPLIER)];
        }
        i := i + 1;
      }
    }

    // getRoundSettlementStats
    method ReadStats(r: RoundId) returns (stats: Stats)
      ensures stats == StatsOf(bets, r) && Totals(stats, bets, r)
    {
      StatsAreTotals(bets, r);
      stats := Stats(0, 0, 0, 0, 0);
      var i := 0;
      while i < |bets|
        invariant 0 <= i <= |bets|
        invariant stats == StatsOf(bets[..i], r)
      {
        var b := bets[i];
        OneMoreStat(bets, r, i);
        if b.round == r {
          stats := stats.(total := stats.total + 1);
          match b.status
          case Won => stats := stats.(winning := stats.winning + 1, payout := stats.payout + b.payout);
          case Lost => stats := stats.(losing := stats.losing + 1);
          case Pending => stats := stats.(pending := stats.pending + 1);
          case Cancelled =>
        }
        i := i + 1;
      }
      assert bets[..i] == bets;
    }

    method CountBets(pid: ProcessId) returns (stats: Stats)
      requires Valid() && ProcessOf(View(), pid).Settling? && ProcessOf(View(), pid).stage.Working?
      modifies this
      ensures Valid() && foreign == old(foreign) && trace == old(trace) + [Action.CountBets(pid)]
      ensures var p := old(ProcessOf(View(), pid));
              stats == StatsOf(bets, p.round) && View() == Become(old(View()), pid, p.(stage := Counted(stats)))
    {
      ghost var before := View();
      var p := processes[pid];
      stats := ReadStats(p.round);
      processes := processes[pid := p.(stage := Counted(stats))];
      Record(before, Action.CountBets(pid));
    }

    // completeRoundSettlement: ON CONFLICT (round_id) DO UPDATE
    method CompleteRoundSettlement(pid: ProcessId)
      requires Valid() && ProcessOf(View(), pid).Settling? && ProcessOf(View(), pid).stage.Counted?
      requires ProcessOf(View(), pid).stage.stats.pending == 0
      modifies this
      ensures Valid() && foreign == old(foreign) && trace == old(trace) + [CompleteSettlement(pid)]
      ensures var p := old(ProcessOf(View(), pid));
              View() == Become(old(View()).(settlements := old(settlements)[p.round := Settlement(p.result, true, p.stage.stats)]),
                               pid, p.(stage := Settled))
    {
      ghost var before := View();
      var p := processes[pid];
      settlements := settlements[p.round := Settlement(p.result, true, p.stage.stats)];
      processes := processes[pid := p.(stage := Settled)];
      Record(before, CompleteSettlement(pid));
    }

    // An error leaves the call: nothing it remembered survives.
    method Forget(pid: ProcessId)
      requires Valid()
      modifies this
      ensures Valid() && foreign == old(foreign) && trace == old(trace) + [Crash(pid)]
      ensures View() == Become(old(View()), pid, Idle)
    {
      ghost var before := View();
      processes := processes[pid := Idle];
      Record(before, Crash(pid));
    }

    // ---------------------------------------------------------------- rounds

    method FindActiveRound() returns (found: Option<RoundId>)
      ensures found == FindActive(rounds)
    {
      found := None;
      for i := 0 to |rounds|
        invariant found == FindActive(rounds[..i])
      {
        assert rounds[..i + 1][..i] == rounds[..i];
        if Active(rounds[i].status) { found := Some(i); }
      }
      assert rounds[..|rounds|] == rounds;
    }

    method FindLatestNumber() returns (latest: int)
      ensures latest == LatestNumber(rounds)
    {
      latest := 0;
      for i := 0 to |rounds|
        invariant latest == LatestNumber(rounds[..i])
      {
        assert rounds[..i + 1][..i] == rounds[..i];
        if rounds[i].number > latest { latest := rounds[i].number; }
      }
      assert rounds[..|rounds|] == rounds;
    }

    method FindCurrentRound(pid: ProcessId) returns (found: Option<Copy>)
      requires Valid() && ProcessOf(View(), pid) == Idle
      modifies this
      ensures Valid() && foreign == old(foreign) && trace == old(trace) + [LookForRound(pid)]
      ensures View() == Become(old(View()), pid, Looked(found))
      ensures var active := FindActive(old(rounds));
              found == if active.None? then None else Some(CopyOf(old(View()), active.value))
    {
      ghost var before := View();
      var active := FindActiveRound();
      found := if active.None? then None else Some(CopyOf(View(), active.value));
      processes := processes[pid := Looked(found)];
      Record(before, LookForRound(pid));
    }

    method GetGameControl(pid: ProcessId) returns (pausedNow: bool)
      requires Valid() && ProcessOf(View(), pid).Looked?
      modifies this
      ensures Valid() && foreign == old(foreign) && trace == old(trace) + [CheckControl(pid)]
      ensures pausedNow == old(paused)
      ensures var found := old(ProcessOf(View(), pid)).found;
              View() == Become(old(View()), pid, if pausedNow then Idle else if found.None? then Numbering else Driving(found.value))
    {
      ghost var before := View();
      var found := processes[pid].found;
      pausedNow := paused;
      processes := processes[pid := if paused then Idle else if found.None? then Numbering else Driving(found.value)];
      Record(before, CheckControl(pid));
    }

    method FindLatestRound(pid: ProcessId) returns (latest: int)
      requires Valid() && ProcessOf(View(), pid) == Numbering
      modifies this
      ensures Valid() && foreign == old(foreign) && trace == old(trace) + [ReadLatest(pid)]
      ensures View() == Become(old(View()), pid, Creating(latest)) && latest == LatestNumber(rounds)
    {
      ghost var before := View();
      latest := FindLatestNumber();
      processes := processes[pid := Creating(latest)];
      Record(before, ReadLatest(pid));
    }

    // The transaction of createNextRound. None: there is an active round, or the number is taken.
    method CreateRound(pid: ProcessId, seed: Seed) returns (created: Option<RoundId>)
      requires Valid() && ProcessOf(View(), pid).Creating?
      modifies this
      ensures Valid() && foreign == old(foreign) && trace == old(trace) + [Action.CreateRound(pid, seed)]
      ensures View() == CreateStep(config, old(View()), pid, seed)
      ensures ProcessOf(View(), pid) == if created.Some? then Opening(created.value) else Idle
      ensures created.Some? ==>
                && created.value == |old(rounds)| && FindActive(old(rounds)).None?
                && rounds == old(rounds) + [Round(old(ProcessOf(View(), pid)).latest + 1, Init, None, config.hash(seed), None, seed, None, false)]
      ensures created.None? ==> rounds == old(rounds) &&
                                (FindActive(rounds).Some? || NumberTaken(rounds, old(ProcessOf(View(), pid)).latest + 1))
    {
      ghost var before := View();
      var number := processes[pid].latest + 1;
      var active := FindActiveRound();
      if active.Some? || NumberTaken(rounds, number) {
        created := None;
        processes := processes[pid := Idle];
      } else {
        created := Some(|rounds|);
        processes := processes[pid := Opening(|rounds|)];
        rounds := rounds + [NewRound(config, number, Init, seed)];
      }
      Record(before, Action.CreateRound(pid, seed));
    }

    // updateRoundStatus; true when the row was in the status it was to leave.
    method UpdateRoundStatus(r: RoundId, from: RoundStatus, to: RoundStatus) returns (updated: bool)
      modifies this`rounds
      ensures View() == Transition(old(View()), r, from, to)
      ensures updated <==> r < |old(rounds)| && old(rounds)[r].status == from
    {
      updated := r < |rounds| && rounds[r].status == from;
      if updated { rounds := rounds[r := rounds[r].(status := to)]; }
    }

    method OpenRound(pid: ProcessId, r: RoundId)
      requires Valid()
      requires var p := ProcessOf(View(), pid); p == Opening(r) || (p.Driving? && p.copy.status == Init && p.copy.round == r)
      modifies this
      ensures Valid() && foreign == old(foreign) && trace == old(trace) + [Action.OpenRound(pid)]
      ensures View() == Become(Transition(old(View()), r, Init, Open), pid,
                               if old(ProcessOf(View(), pid)).Opening? then Idle else ReadingBack(r))
    {
      ghost var before := View();
      var p := processes[pid];
      var _ := UpdateRoundStatus(r, Init, Open);
      processes := processes[pid := if p.Opening? then Idle else ReadingBack(r)];
      Record(before, Action.OpenRound(pid));
    }

    method LockRound(pid: ProcessId) returns (updated: bool)
      requires Valid() && ProcessOf(View(), pid).Driving? && ProcessOf(View(), pid).copy.status == Open
      modifies this
      ensures Valid() && foreign == old(foreign) && trace == old(trace) + [Action.LockRound(pid)]
      ensures View() == LockStep(old(View()), pid)
      ensures ProcessOf(View(), pid) == if updated then ReadingBack(old(ProcessOf(View(), pid)).copy.round) else Idle
    {
      ghost var before := View();
      var r := processes[pid].copy.round;
      updated := UpdateRoundStatus(r, Open, Locked);
      processes := processes[pid := if updated then ReadingBack(r) else Idle];
      Record(before, Action.LockRound(pid));
    }

    method ReadRound(pid: ProcessId) returns (copy: Copy)
      requires Valid() && ProcessOf(View(), pid).ReadingBack?
      modifies this
      ensures Valid() && foreign == old(foreign) && trace == old(trace) + [ReadBack(pid)]
      ensures View() == Become(old(View()), pid, Driving(copy))
      ensures copy.round == old(ProcessOf(View(), pid)).round < |rounds| && copy == CopyOf(View(), copy.round)
    {
      ghost var before := View();
      IsReachable();
      assert ProcessOk(config, View(), ProcessOf(View(), pid));
      copy := CopyOf(View(), processes[pid].round);
      processes := processes[pid := Driving(copy)];
      Record(before, ReadBack(pid));
    }

    // The seed checks of resolveRound and its update to RESOLVING.
    method StartResolving(pid: ProcessId, read: Option<Seed>)
      requires Valid() && ProcessOf(View(), pid).Driving?
      requires ProcessOf(View(), pid).copy.status == Locked || ProcessOf(View(), pid).copy.status == Resolving
      modifies this
      ensures Valid() && foreign == old(foreign) && trace == old(trace) + [ResolveRound(pid, read)]
      ensures View() == ResolveTx(config, old(View()), pid, old(ProcessOf(View(), pid)).copy, read)
    {
      ghost var before := View();
      var copy := processes[pid].copy;
      var next: Process;
      if read.None? || config.hash(read.value) != copy.hash {
        next := Recovering(copy.round);
      } else {
        var result := if copy.result.Some? then copy.result.value else ResultOf(config.hash(read.value));
        next := Settling(copy.round, result, read.value, false, Beginning);
        if copy.status == Locked {
          if copy.round < |rounds| && rounds[copy.round].status == Locked {
            rounds := rounds[copy.round := Decided(rounds[copy.round], result, false)];
          } else {
            next := Idle;
          }
        }
      }
      processes := processes[pid := next];
      Record(before, ResolveRound(pid, read));
    }

    method FinishRound(pid: ProcessId)
      requires Valid() && ProcessOf(View(), pid).Settling? && ProcessOf(View(), pid).stage.Settled?
      modifies this
      ensures Valid() && foreign == old(foreign) && trace == old(trace) + [Action.FinishRound(pid)]
      ensures View() == FinishTx(old(View()), pid, old(ProcessOf(View(), pid)))
    {
      ghost var before := View();
      var p := processes[pid];
      if p.round < |rounds| && (p.forcing || rounds[p.round].status == Resolving) {
        rounds := rounds[p.round := rounds[p.round].(status := Completed, result := Some(p.result), seedReveal := Some(p.seed))];
      }
      processes := processes[pid := if p.forcing then Idle else Numbering];
      Record(before, Action.FinishRound(pid));
    }

    // ---------------------------------------------------------------- cancelling rounds

    // The pending bets of some rounds, oldest first.
    method FindPendingBets(targets: set<RoundId>) returns (order: seq<BetId>)
      ensures ListsPending(View(), targets, order)
    {
      order := [];
      for i := 0 to |bets|
        invariant forall k, l :: 0 <= k < l < |order| ==> order[k] < order[l]
        invariant forall b :: b in order ==> b < i && bets[b].status == Pending && bets[b].round in targets
        invariant forall b: BetId :: b < i && bets[b].status == Pending && bets[b].round in targets ==> b in order
      {
        if bets[i].status == Pending && bets[i].round in targets {
          assert forall k :: 0 <= k < |order| ==> order[k] in order;
          order := order + [i];
        }
      }
    }

    // The refund loops of recoverUnresolvableRound and refundPendingBetsForCancelledRounds. On false the
    // transaction rolls back.
    method RefundBets(order: seq<BetId>, recovery: bool) returns (ok: bool)
      modifies this`bets, book
      ensures ok <==> RefundEach(Books(old(book.Contents()), old(bets)), order, recovery).Some?
      ensures ok ==> RefundEach(Books(old(book.Contents()), old(bets)), order, recovery) == Some(Books(book.Contents(), bets))
    {
      ghost var start := Books(book.Contents(), bets);
      var i := 0;
      while i < |order|
        invariant 0 <= i <= |order|
        invariant RefundEach(start, order[..i], recovery) == Some(Books(book.Contents(), bets))
      {
        NextRefund(start, order, i, recovery);
        ok := RefundBet(order[i], recovery);
        if !ok {
          RefundingStops(start, order, i + 1, recovery);
          return;
        }
        i := i + 1;
      }
      assert order[..i] == order;
      ok := true;
    }

    method RefundBet(id: BetId, recovery: bool) returns (ok: bool)
      modifies this`bets, book
      ensures ok <==> RefundOne(Books(old(book.Contents()), old(bets)), id, recovery).Some?
      ensures ok ==> RefundOne(Books(old(book.Contents()), old(bets)), id, recovery) == Some(Books(book.Contents(), bets))
    {
      if id >= |bets| { return false; }
      var bet := bets[id];
      if bet.stake > MAX_SAFE_INTEGER { return false; }
      var refund := book.ApplyInTransaction(RefundMovement(bet, id, recovery));
      if refund.Refused? { return false; }
      if bets[id].status == Pending {
        bets := bets[id := bets[id].(status := Cancelled, payout := 0)];
      }
      return true;
    }

    // What the cancelling transactions share: write the rounds, refund the pending bets, or roll back.
    method CancelRounds(ghost targets: set<RoundId>, pending: seq<BetId>, recovery: bool, closed: seq<Round>) returns (ok: bool)
      requires ListsPending(View(), targets, pending)
      modifies this, book
      ensures View() == CancelTx(old(View()), targets, pending, recovery, closed) && trace == old(trace) && foreign == old(foreign)
      ensures ok <==> RefundEach(Books(old(View()).bank, old(bets)), pending, recovery).Some?
      ensures if ok then rounds == closed else View() == old(View())
      ensures processes == old(processes)
    {
      var before := View();
      ok := RefundBets(pending, recovery);
      if ok { rounds := closed; } else { Restore(before); }
    }

    // The transaction of recoverUnresolvableRound. It commits exactly when the round is still active and all
    // its stakes can go back; a refused refund ends the call.
    method RecoverRoundTx(pid: ProcessId) returns (recovered: bool, order: seq<BetId>)
      requires Valid() && ProcessOf(View(), pid).Recovering?
      modifies this, book
      ensures Valid() && foreign == old(foreign) && trace == old(trace) + [RecoverRound(pid, order)]
      ensures View() == RecoverTx(old(View()), pid, old(ProcessOf(View(), pid)).round, order)
      ensures ListsPending(old(View()), {old(ProcessOf(View(), pid)).round}, order)
      ensures var r := old(ProcessOf(View(), pid)).round;
              && r < |old(rounds)|
              && (recovered <==> Active(old(rounds)[r].status) && AllRefundable(old(View()), {r}, true))
              && (if recovered then
                    rounds == old(rounds)[r := old(rounds)[r].(status := CancelledRound, result := None)] && CancelledIn(old(bets), bets, {r})
                  else View() == Become(old(View()), pid, if Active(old(rounds)[r].status) then Idle else Numbering))
              && (ProcessOf(View(), pid) == Numbering <==> recovered || !Active(old(rounds)[r].status))
              && (ProcessOf(View(), pid) == Idle <==> !recovered && Active(old(rounds)[r].status))
    {
      ghost var before := View();
      var r := processes[pid].round;
      recovered, order := CancelUnresolvable(pid, r);
      Record(before, RecoverRound(pid, order));
      IsReachableBefore(old(trace));
      RecoveryTakesEffectIff(config, before, pid, order);
      CancellingCommitsIff(before, {r}, order, true, []);
    }

    lemma IsReachableBefore(earlier: seq<Action>)
      requires ConfigOk(config)
      ensures Inv(config, Run(config, EMPTY, earlier))
    {
      ReachableIsOk(config, earlier);
    }

    method CancelUnresolvable(pid: ProcessId, r: RoundId) returns (recovered: bool, order: seq<BetId>)
      requires ProcessOf(View(), pid) == Recovering(r)
      modifies this, book
      ensures View() == RecoverTx(old(View()), pid, r, order) && trace == old(trace) && foreign == old(foreign)
      ensures ListsPending(old(View()), {r}, order)
      ensures recovered <==> r < |old(rounds)| && Active(old(rounds)[r].status) && RefundEach(Books(old(View()).bank, old(bets)), order, true).Some?
    {
      order := FindPendingBets({r});
      recovered := false;
      var next := Numbering;
      if r < |rounds| && Active(rounds[r].status) {
        recovered := CancelRounds({r}, order, true, rounds[r := rounds[r].(status := CancelledRound, result := None)]);
        if !recovered { next := Idle; }
      }
      processes := processes[pid := next];
    }

    // The transaction of forceStopRound. It stops the active round exactly when there is one and all its
    // stakes can go back.
    method ForceStopTx() returns (stopped: Option<RoundId>, order: seq<BetId>)
      requires Valid()
      modifies this, book
      ensures Valid() && foreign == old(foreign) && trace == old(trace) + [ForceStop(order)]
      ensures View() == Game.ForceStopTx(old(View()), order)
      ensures var active := FindActive(old(rounds));
              stopped == if active.Some? && AllRefundable(old(View()), {active.value}, false) then active else None
      ensures stopped.Some? ==>
                && rounds == old(rounds)[stopped.value := old(rounds)[stopped.value].(status := CancelledRound)]
                && CancelledIn(old(bets), bets, {stopped.value})
      ensures stopped.None? ==> View() == old(View())
    {
      ghost var before := View();
      stopped, order := StopActive();
      Record(before, ForceStop(order));
      IsReachableBefore(old(trace));
      ForceStopTakesEffectIff(config, before, order);
      if stopped.Some? || FindActive(before.rounds).Some? {
        CancellingCommitsIff(before, {FindActive(before.rounds).value}, order, false, []);
      }
    }

    method StopActive() returns (stopped: Option<RoundId>, order: seq<BetId>)
      modifies this, book
      ensures View() == Game.ForceStopTx(old(View()), order) && trace == old(trace) && foreign == old(foreign)
      ensures var active := FindActive(old(rounds));
              && (active.Some? ==> ListsPending(old(View()), {active.value}, order))
              && stopped == (if active.Some? && RefundEach(Books(old(View()).bank, old(bets)), order, false).Some? then active else None)
    {
      var active := FindActiveRound();
      stopped, order := None, [];
      if active.Some? {
        var r := active.value;
        order := FindPendingBets({r});
        var ok := CancelRounds({r}, order, false, rounds[r := rounds[r].(status := CancelledRound)]);
        if ok { stopped := Some(r); }
      }
    }

    // The transaction of forceStartRound: cancel whatever is active, refund it, and open the next round.
    method ForceStartTx(seed: Seed) returns (started: Option<RoundId>, order: seq<BetId>)
      requires Valid()
      modifies this, book
      ensures Valid() && foreign == old(foreign) && trace == old(trace) + [ForceStart(seed, order)]
      ensures View() == Game.ForceStartTx(config, old(View()), seed, order)
      ensures started == if AllRefundable(old(View()), ActiveRounds(old(rounds)), false) then Some(|old(rounds)|) else None
      ensures started.Some? ==>
                && |rounds| == |old(rounds)| + 1
                && rounds[started.value] == Round(|rounds|, Open, None, config.hash(seed), None, seed, None, false)
                && CancelledIn(old(bets), bets, ActiveRounds(old(rounds)))
      ensures started.None? ==> View() == old(View())
    {
      ghost var before := View();
      started, order := StartOver(seed);
      Record(before, ForceStart(seed, order));
      IsReachableBefore(old(trace));
      ForceStartTakesEffectIff(config, before, seed, order);
      CancellingCommitsIff(before, ActiveRounds(before.rounds), order, false, []);
    }

    method StartOver(seed: Seed) returns (started: Option<RoundId>, order: seq<BetId>)
      modifies this, book
      ensures View() == Game.ForceStartTx(config, old(View()), seed, order) && trace == old(trace) && foreign == old(foreign)
      ensures ListsPending(old(View()), ActiveRounds(old(rounds)), order)
      ensures started == if RefundEach(Books(old(View()).bank, old(bets)), order, false).Some? then Some(|old(rounds)|) else None
    {
      order := FindPendingBets(ActiveRounds(rounds));
      var closed := CloseActive();
      var latest := FindLatestNumber();
      var count := |rounds|;
      assert |closed| == count;
      var ok := CancelRounds(ActiveRounds(rounds), order, false, closed + [NewRound(config, latest + 1, Open, seed)]);
      started := if ok then Some(count) else None;
    }

    method CloseActive() returns (closed: seq<Round>)
      ensures closed == CancelActive(rounds)
    {
      closed := [];
      for i := 0 to |rounds|
        invariant closed == CancelActive(rounds)[..i]
      {
        closed := closed + [if Active(rounds[i].status) then rounds[i].(status := CancelledRound) else rounds[i]];
      }
    }

    // The transaction of forceResult.
    method ForceResultTx(pid: ProcessId, result: Color) returns (refusal: Option<ForceRefusal>)
      requires Valid() && ProcessOf(View(), pid) == Idle
      modifies this
      ensures Valid() && foreign == old(foreign) && trace == old(trace) + [ForceResult(pid, result)]
      ensures View() == Game.ForceResultTx(old(View()), pid, result)
      ensures var active := FindActive(old(rounds));
              && (refusal == Some(NoActiveRound) <==> active.None?)
              && (refusal == Some(ResultConflict) <==>
                    active.Some? && old(rounds)[active.value].result.Some? && old(rounds)[active.value].result != Some(result))
      ensures if refusal.None?
              then ProcessOf(View(), pid) == CheckingSeed(FindActive(old(rounds)).value, result, old(rounds)[FindActive(old(rounds)).value].hash)
              else View() == old(View())
    {
      ghost var before := View();
      var r;
      refusal, r := FindForceable(result);
      if refusal.None? {
        processes := processes[pid := CheckingSeed(r, result, rounds[r].hash)];
        rounds := rounds[r := Decided(rounds[r], result, true)];
      }
      assert Step(config, before, ForceResult(pid, result)) == Game.ForceResultTx(before, pid, result);
      Record(before, ForceResult(pid, result));
    }

    // The active round, unless it has another result.
    method FindForceable(result: Color) returns (refusal: Option<ForceRefusal>, r: RoundId)
      ensures refusal == if FindActive(rounds).None? then Some(NoActiveRound)
                         else if rounds[FindActive(rounds).value].result.Some? && rounds[FindActive(rounds).value].result != Some(result)
                         then Some(ResultConflict) else None
      ensures refusal.None? ==> FindActive(rounds) == Some(r)
    {
      var active := FindActiveRound();
      if active.None? { return Some(NoActiveRound), 0; }
      r := active.value;
      if rounds[r].result.Some? && rounds[r].result.value != result { return Some(ResultConflict), r; }
      return None, r;
    }

    method CheckForcedSeed(pid: ProcessId, read: Option<Seed>) returns (ok: bool)
      requires Valid() && ProcessOf(View(), pid).CheckingSeed?
      modifies this
      ensures Valid() && foreign == old(foreign) && trace == old(trace) + [CheckSeed(pid, read)]
      ensures View() == CheckSeedStep(config, old(View()), pid, read)
      ensures ok <==> read.Some? && config.hash(read.value) == old(ProcessOf(View(), pid)).hash
    {
      ghost var before := View();
      var p := processes[pid];
      ok := read.Some? && config.hash(read.value) == p.hash;
      processes := processes[pid := if ok then Settling(p.round, p.result, read.value, true, Beginning) else Idle];
      assert Step(config, before, CheckSeed(pid, read)) == CheckSeedStep(config, before, pid, read);
      Record(before, CheckSeed(pid, read));
    }

    // ---------------------------------------------------------------- bets and adjustments

    method FindBetByKey(clientKey: string) returns (found: Option<BetId>)
      ensures found.None? <==> !ClientKeyUsed(bets, clientKey)
      ensures found.Some? ==> found.value < |bets| && bets[found.value].clientKey == clientKey
    {
      found := None;
      for i := 0 to |bets|
        invariant found.None? <==> forall k :: 0 <= k < i ==> bets[k].clientKey != clientKey
        invariant found.Some? ==> found.value < |bets| && bets[found.value].clientKey == clientKey
      {
        if bets[i].clientKey == clientKey { found := Some(i); }
      }
    }

    method SumUserRoundStake(user: UserId, r: RoundId) returns (total: int)
      ensures total == Sum(LiveOfUser(r, user), bets)
    {
      total := 0;
      for i := 0 to |bets|
        invariant total == Sum(LiveOfUser(r, user), bets[..i])
      {
        assert bets[..i + 1][..i] == bets[..i];
        if bets[i].round == r && bets[i].user == user && bets[i].status in {Pending, Won, Lost} { total := total + bets[i].stake; }
      }
      assert bets[..|bets|] == bets;
    }

    method SumRoundColorExposure(r: RoundId, choice: Color) returns (total: int)
      ensures total == Sum(LiveOfColor(r, choice), bets)
    {
      total := 0;
      for i := 0 to |bets|
        invariant total == Sum(LiveOfColor(r, choice), bets[..i])
      {
        assert bets[..i + 1][..i] == bets[..i];
        if bets[i].round == r && bets[i].choice == choice && bets[i].status in {Pending, Won, Lost} { total := total + bets[i].stake; }
      }
      assert bets[..|bets|] == bets;
    }

    // The transaction of createBetAndDebitWallet. It takes the bet exactly when there is no objection, and
    // otherwise answers with the first one and rolls back.
    method CreateBetTx(user: UserId, r: RoundId, choice: Color, stake: int, clientKey: string, beforeLock: bool) returns (answer: BetAnswer)
      requires Valid() && ValidAmount(stake)
      modifies this, book
      ensures Valid() && foreign == old(foreign) && trace == old(trace) + [PlaceBet(user, r, choice, stake, clientKey, beforeLock)]
      ensures View() == PlaceBetTx(config, old(View()), user, r, choice, stake, clientKey, beforeLock)
      ensures match Objection(config, old(View()), user, r, choice, stake, clientKey, beforeLock)
              case None => answer == Placed(|old(bets)|) && BetTaken(old(View()), View(), user, r, choice, stake, clientKey)
              case Some(reason) => answer == Rejected(reason) && View() == old(View())
    {
      ghost var before := View();
      IsReachable();
      BetIsTakenIff(config, before, user, r, choice, stake, clientKey, beforeLock);
      answer := CreateBet(user, r, choice, stake, clientKey, beforeLock);
      Record(before, PlaceBet(user, r, choice, stake, clientKey, beforeLock));
    }

    method CreateBet(user: UserId, r: RoundId, choice: Color, stake: int, clientKey: string, beforeLock: bool) returns (answer: BetAnswer)
      requires ValidAmount(stake) && Inv(config, View())
      modifies this, book
      ensures View() == PlaceBetTx(config, old(View()), user, r, choice, stake, clientKey, beforeLock) && trace == old(trace) && foreign == old(foreign)
      ensures match Objection(config, old(View()), user, r, choice, stake, clientKey, beforeLock)
              case None => answer == Placed(|old(bets)|)
              case Some(reason) => answer == Rejected(reason)
    {
      var before := View();
      if !(r < |rounds| && rounds[r].status == Open && beforeLock && !paused) { return Rejected(RoundNotOpen); }
      var staked := SumUserRoundStake(user, r);
      var exposure := SumRoundColorExposure(r, choice);
      MeasuresAreTotals(bets, r, user, choice);
      if staked + stake > config.userCap { return Rejected(UserCapExceeded); }
      if exposure + stake > config.colorCap { return Rejected(ColorCapExceeded); }
      var existing := FindBetByKey(clientKey);
      if existing.Some? { return Rejected(UniqueConflict); }
      StakeIsNew(config, before, user, stake, clientKey);
      DebitAnswers(book.Contents(), user, |bets|, stake, clientKey);
      answer := InsertBet(before, Bet(user, r, choice, stake, clientKey, Pending, 0));
    }

    // The insert and the debit. before is what an error rolls back to.
    method InsertBet(before: State, bet: Bet) returns (answer: BetAnswer)
      requires View() == before
      modifies this, book
      ensures trace == old(trace) && foreign == old(foreign)
      ensures match Post(before.bank, StakeMovement(bet.user, |before.bets|, bet.stake, bet.clientKey))
              case Refused(error) => View() == before && answer == Rejected(if error == UniqueViolation then UniqueConflict else WalletError(error))
              case Moved(bank, _) => View() == before.(bank := bank, bets := before.bets + [bet]) && answer == Placed(|before.bets|)
              case Replayed(_) => View() == before.(bets := before.bets + [bet]) && answer == Placed(|before.bets|)
    {
      var id := |bets|;
      bets := bets + [bet];
      var debit := book.ApplyInTransaction(StakeMovement(bet.user, id, bet.stake, bet.clientKey));
      if debit.Refused? {
        Restore(before);
        return Rejected(if debit.error == UniqueViolation then UniqueConflict else WalletError(debit.error));
      }
      return Placed(id);
    }

    // The transaction of adjustWallet.
    method AdjustWalletTx(user: UserId, amount: int, direction: Direction, reference: nat, key: Key) returns (result: PostResult)
      requires Valid()
      modifies this, book
      ensures Valid() && foreign == old(foreign) && trace == old(trace) + [AdjustWallet(user, amount, direction, reference, key)]
      ensures result == Post(old(book.Contents()), AdjustmentMovement(user, amount, direction, reference, key))
      ensures View() == if result.Moved? then old(View()).(bank := result.bank) else old(View())
      ensures result.Moved? <==> CanAdjust(old(book.Contents()), user, amount, direction, key)
      ensures result.Moved? ==> Adjusted(old(book.Contents()), book.Contents(), user, amount, direction, reference, key) &&
                                FindRow(book.ledger, key) == Some(result.row) &&
                                IsAdjustmentOf(result.row, user, amount, direction, reference, key)
      ensures var found := FindRow(old(book.ledger), key);
              && (result.Replayed? <==> 0 < amount <= 9_007_199_254_740_991 && found.Some? &&
                                        IsAdjustmentOf(found.value, user, amount, direction, reference, key))
              && (result.Replayed? ==> result.earlier == found.value)
    {
      IsReachable();
      AdjustmentIsReported(book.Contents(), user, amount, direction, reference, key);
      var before := View();
      result := book.ApplyInTransaction(AdjustmentMovement(user, amount, direction, reference, key));
      if result.Refused? { Restore(before); }
      Record(before, AdjustWallet(user, amount, direction, reference, key));
    }
  }

  lemma OneMoreStat(bets: seq<Bet>, r: RoundId, i: nat)
    requires i < |bets|
    ensures var s, b := StatsOf(bets[..i], r), bets[i];
            StatsOf(bets[..i + 1], r) ==
              if b.round != r then s
              else
                Stats(s.total + 1,
                      s.winning + (if b.status == Won then 1 else 0),
                      s.losing + (if b.status == Lost then 1 else 0),
                      s.payout + (if b.status == Won then b.payout else 0),
                      s.pending + (if b.status == Pending then 1 else 0))
  {
    assert bets[..i + 1][..i] == bets[..i];
  }

  // The 404 and 409 answers of forceResult.
  datatype ForceRefusal = NoActiveRound | ResultConflict

  datatype WinnerPayout = WinnerPayout(user: UserId, total: int)

  datatype SettlementError = PayoutTooLarge | WalletRefused(user: UserId, error: Error)

  // Why a winner's transaction rolled back.
  predicate Refuses(bank: Bank, r: RoundId, user: UserId, due: int, error: SettlementError) {
    if due > MAX_SAFE_INTEGER then error == PayoutTooLarge
    else error.WalletRefused? && error.user == user && Post(bank, CreditMovement(r, user, due)) == Refused(error.error)
  }

  predicate Listed(winners: seq<WinnerPayout>, u: UserId) {
    exists i :: 0 <= i < |winners| && winners[i].user == u
  }

  function PendingWinners(bets: seq<Bet>, r: RoundId, result: Color): set<UserId> {
    set b | b in bets && PendingWinner(b, r, result, b.user) :: b.user
  }

  // ORDER BY ... LIMIT: the smallest ids first, all of them when they fit.
  method FirstInOrder(users: set<UserId>, limit: nat) returns (first: seq<UserId>)
    ensures |first| <= limit
    ensures forall i, j :: 0 <= i < j < |first| ==> first[i] < first[j]
    ensures forall u :: u in first ==> u in users
    ensures forall u, v :: u in first && v in users && v !in first ==> u < v
    ensures |first| < limit ==> forall u :: u in users ==> u in first
  {
    var rest := users;
    first := [];
    while |first| < limit && rest != {}
      invariant |first| <= limit
      invariant forall i, j :: 0 <= i < j < |first| ==> first[i] < first[j]
      invariant forall u, v :: u in first && v in rest ==> u < v
      invariant forall u :: u in users <==> u in first || u in rest
      decreases rest
    {
      LeastUserExists(rest);
      var least :| least in rest && forall v :: v in rest ==> least <= v;
      assert forall u :: u in first ==> u < least;
      assert forall i :: 0 <= i < |first| ==> first[i] in first;
      rest := rest - {least};
      first := first + [least];
    }
  }

  lemma LeastUserExists(users: set<UserId>)
    requires users != {}
    ensures exists least :: least in users && forall v :: v in users ==> least <= v
  {
    var u :| u in users;
    LeastFrom(users, u);
  }

  lemma {:induction false} LeastFrom(users: set<UserId>, u: UserId)
    requires u in users
    ensures exists least :: least in users && forall v :: v in users ==> least <= v
    decreases u
  {
    if v :| v in users && v < u { LeastFrom(users, v); }
  }

  lemma NextRefund(books: Books, order: seq<BetId>, i: nat, recovery: bool)
    requires i < |order| && RefundEach(books, order[..i], recovery).Some?
    ensures RefundEach(books, order[..i + 1], recovery) == RefundOne(RefundEach(books, order[..i], recovery).value, order[i], recovery)
  {
    assert order[..i + 1][..i] == order[..i];
  }

  // Once one refund of the loop fails, so does the whole loop.
  lemma {:induction false} RefundingStops(books: Books, order: seq<BetId>, i: nat, recovery: bool)
    requires i <= |order| && RefundEach(books, order[..i], recovery).None?
    ensures RefundEach(books, order, recovery).None?
    decreases |order| - i
  {
    if i == |order| {
      assert order[..i] == order;
    } else {
      assert order[..i + 1][..i] == order[..i];
      RefundingStops(books, order, i + 1, recovery);
    }
  }
}
