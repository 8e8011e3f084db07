// The services that drive rounds and take bets, written as the source has them: reads, transactions and
// the branches between them, with every other call free to act in the gaps.
module GameServices {
  import opened Types
  import opened Ledger
  import opened LedgerLaws
  import opened Bets
  import opened Game
  import opened GameMoney
  import opened GameRounds
  import opened GameSafety
  import opened GameTheorems
  import opened GameProgress
  import opened GameClosure
  import opened GameExact
  import opened GameStore
  import opened GameTicks
  import SettlementService

  // ---------------------------------------------------------------- the engine

  class RoundService {
    const store: Store
    const settlement: SettlementService.Service

    constructor (s: Store)
      ensures store == s && settlement.store == s
    {
      store := s;
      settlement := new SettlementService.Service(s);
    }

    predicate Wired()
    {
      settlement.store == store
    }

    // The call's own memory, and how far round r has come.
    ghost predicate At(pid: ProcessId, p: Process, r: RoundId, rank: nat)
      reads store, store.book
    {
      store.Valid() && ProcessOf(store.View(), pid) == p && Reached(store.config, store.trace, r, rank)
    }

    // What has gone on since an earlier moment: more steps, and of the call's own only those it may take.
    ghost predicate Since(earlier: seq<Action>, foreign: nat, pid: ProcessId, mayLock: bool, mayResolve: bool)
      reads store
    {
      earlier <= store.trace && foreign <= store.foreign && Keeps(earlier, store.trace, pid, mayLock, mayResolve)
    }

    method Pause(pid: ProcessId, ghost p: Process, ghost r: RoundId, ghost rank: nat)
      requires At(pid, p, r, rank)
      modifies store, store.book
      ensures At(pid, p, r, rank) && Since(old(store.trace), old(store.foreign), pid, false, false)
      ensures store.foreign == old(store.foreign) ==> store.View() == old(store.View())
    {
      store.Interleave(pid);
      StaysReached(store.config, old(store.trace), store.trace, r, rank);
    }

    // ensureLifecycle. The clock is two answers: has the lock time passed, has the end time passed. read is
    // whatever the seed table or the cache returns, if anything.
    // A tick that found no active round leaves a newer one behind, its own or another engine's. A tick that
    // found one leaves it at least open, and locked once its lock time has passed; it locks no round before
    // its lock time and resolves none before its end time that another call has not resolved; if it reports
    // the round resolved or recovered, the round is over, nothing in it is pending, and another follows.
    // A tick that no other call disturbs does exactly what TickedAlone says.
    method EnsureLifecycle(pid: ProcessId, pastLock: bool, pastEnd: bool, read: Option<Seed>) returns (tick: Tick)
      requires Wired() && store.Valid() && ProcessOf(store.View(), pid) == Idle
      modifies store, store.book
      ensures store.Valid() && old(store.trace) <= store.trace && ProcessOf(store.View(), pid) == Idle
      ensures PausedAtCheck(store.config, old(store.trace), store.trace, pid, tick.GamePaused?)
      ensures tick.GamePaused? ==> OnlyLooked(old(store.trace), store.trace, pid)
      ensures tick.Created? ==>
                && FindActive(old(store.rounds)).None? && |store.rounds| > |old(store.rounds)|
                && Keeps(old(store.trace), store.trace, pid, false, false)
      ensures tick.Created? && tick.created.Some? ==>
                tick.created.value >= |old(store.rounds)| && Reached(store.config, store.trace, tick.created.value, Rank(Open))
      ensures !tick.GamePaused? && !tick.Created? ==>
                var active := FindActive(old(store.rounds));
                active.Some? &&
                var status := old(store.rounds)[active.value].status;
                && TickLeaves(store.config, store.trace, tick, active.value, status, pastLock, pastEnd, read)
                && KeepsToClock(old(store.trace), store.trace, pid, tick, status, pastLock, pastEnd)
      ensures store.foreign == old(store.foreign) ==>
                TickedAlone(store.config, old(store.View()), store.View(), tick, pastLock, pastEnd, read)
    {
      var found, paused := LookAround(pid);
      if paused { return GamePaused; }
      ghost var looked := store.trace;
      if found.None? {
        tick := CreateFirst(pid, old(store.trace));
      } else {
        tick := Drive(pid, found.value, pastLock, pastEnd, read, old(store.trace));
        if store.foreign == old(store.foreign) {
          DroveAfterLook(store.config, old(store.View()), Run(store.config, EMPTY, looked), store.View(), tick, found.value.round,
                         pastLock, pastEnd, read);
        }
      }
      StaysChecked(store.config, old(store.trace), looked, store.trace, pid, false);
    }

    method LookAround(pid: ProcessId) returns (found: Option<Copy>, paused: bool)
      requires store.Valid() && ProcessOf(store.View(), pid) == Idle
      modifies store, store.book
      ensures store.Valid() && Since(old(store.trace), old(store.foreign), pid, false, false)
      ensures OnlyLooked(old(store.trace), store.trace, pid)
      ensures PausedAtCheck(store.config, old(store.trace), store.trace, pid, paused)
      ensures ProcessOf(store.View(), pid) == if paused then Idle else if found.None? then Numbering else Driving(found.value)
      ensures var active := FindActive(old(store.rounds));
              found == if active.None? then None else Some(CopyOf(old(store.View()), active.value))
      ensures store.foreign == old(store.foreign) ==> SameTables(old(store.View()), store.View()) && paused == old(store.paused)
    {
      found := store.FindCurrentRound(pid);
      store.Interleave(pid);
      ghost var checking := store.trace;
      paused := store.GetGameControl(pid);
      assert store.trace[|checking|] == CheckControl(pid) && store.trace[..|checking|] == checking;
    }

    // The tick that found no active round.
    method CreateFirst(pid: ProcessId, ghost looked: seq<Action>) returns (tick: Tick)
      requires store.Valid() && ProcessOf(store.View(), pid) == Numbering
      requires looked <= store.trace && Keeps(looked, store.trace, pid, false, false)
      requires FindActive(Run(store.config, EMPTY, looked).rounds).None?
      modifies store, store.book
      ensures store.Valid() && Since(old(store.trace), old(store.foreign), pid, false, false) && ProcessOf(store.View(), pid) == Idle
      ensures tick.Created? && Keeps(looked, store.trace, pid, false, false)
      ensures var before := Run(store.config, EMPTY, looked).rounds;
              && |store.rounds| > |before|
              && (tick.created.Some? ==> tick.created.value >= |before| && Reached(store.config, store.trace, tick.created.value, Rank(Open)))
      ensures store.foreign == old(store.foreign) && FindActive(old(store.rounds)).None? ==>
                tick == Created(Some(|old(store.rounds)|)) && OneMoreRound(store.config, old(store.View()), store.View(), Open)
    {
      ghost var n := |Run(store.config, EMPTY, looked).rounds|;
      NoActiveMeansAllOver(store.config, looked);
      AllStayOver(store.config, looked, store.trace, n);
      var created := CreateNextRound(pid, n);
      KeepsBoth(looked, old(store.trace), store.trace, pid, false, false, false, false);
      return Created(created);
    }

    // The tick that found an active round; looked is the trace it was found after.
    method Drive(pid: ProcessId, copy: Copy, pastLock: bool, pastEnd: bool, read: Option<Seed>, ghost looked: seq<Action>)
      returns (tick: Tick)
      requires Wired() && store.Valid() && ProcessOf(store.View(), pid) == Driving(copy)
      requires looked <= store.trace && Keeps(looked, store.trace, pid, false, false)
      requires Fresh(Run(store.config, EMPTY, looked), copy) && Active(copy.status)
      modifies store, store.book
      ensures store.Valid() && old(store.trace) <= store.trace && old(store.foreign) <= store.foreign
      ensures ProcessOf(store.View(), pid) == Idle && !tick.GamePaused? && !tick.Created?
      ensures TickLeaves(store.config, store.trace, tick, copy.round, copy.status, pastLock, pastEnd, read)
      ensures KeepsToClock(looked, store.trace, pid, tick, copy.status, pastLock, pastEnd)
      ensures store.foreign == old(store.foreign) && Fresh(old(store.View()), copy) ==>
                DroveAlone(store.config, old(store.View()), store.View(), tick, copy.round, pastLock, pastEnd, read)
    {
      var current := OpenOrLock(pid, copy, pastLock);
      ghost var advanced := store.trace;
      KeepsBoth(looked, old(store.trace), advanced, pid, false, false, pastLock && Rank(copy.status) < Rank(Locked), false);
      if current.None? { return Waiting; }
      MayBeResolved(store.config, looked, advanced, pid, copy, current.value, pastLock, pastEnd);
      tick := ResolveOrStop(pid, current.value, pastEnd, read);
      LeavesAsFound(store.config, store.trace, tick, copy, current.value, pastLock, pastEnd, read);
      ClockIsKept(looked, advanced, store.trace, pid, tick, copy, current.value, pastLock, pastEnd);
      if store.foreign == old(store.foreign) && Fresh(old(store.View()), copy) {
        DroveAfterOpening(store.config, old(store.View()), Run(store.config, EMPTY, advanced), store.View(), tick, current.value,
                          pastLock, pastEnd, read);
      }
    }

    // None: the round was to be locked, and somebody else moved it on.
    method OpenOrLock(pid: ProcessId, copy: Copy, pastLock: bool) returns (current: Option<Copy>)
      requires store.Valid() && ProcessOf(store.View(), pid) == Driving(copy)
      modifies store, store.book
      ensures Since(old(store.trace), old(store.foreign), pid, pastLock && Rank(copy.status) < Rank(Locked), false)
      ensures At(pid, if current.Some? then Driving(current.value) else Idle, copy.round, if pastLock then Rank(Locked) else Rank(Open))
      ensures current.None? ==> Rank(copy.status) < Rank(Locked) && pastLock
      ensures current.Some? ==>
                && current.value.round == copy.round
                && Rank(current.value.status) >= (if pastLock then Rank(Locked) else Rank(Open))
                && (current.value == copy || Fresh(store.View(), current.value))
                && (Rank(copy.status) >= Rank(Locked) || (copy.status == Open && !pastLock) ==> current.value == copy)
      ensures store.foreign == old(store.foreign) && Fresh(old(store.View()), copy) ==>
                && current.Some? && Fresh(store.View(), current.value)
                && StatusOnly(old(store.View()), store.View(), copy.round, StatusByClock(copy.status, pastLock))
    {
      var read := OpenFirst(pid, copy);
      if read.status == Open && pastLock {
        ghost var advanced := store.trace;
        current := LockRound(pid, read);
        KeepsBoth(old(store.trace), advanced, store.trace, pid, false, false, true, false);
      } else {
        DriverKnows(store.config, store.trace, pid);
        current := Some(read);
      }
    }

    method OpenFirst(pid: ProcessId, copy: Copy) returns (current: Copy)
      requires store.Valid() && ProcessOf(store.View(), pid) == Driving(copy)
      modifies store, store.book
      ensures At(pid, Driving(current), copy.round, Rank(Open)) && Since(old(store.trace), old(store.foreign), pid, false, false)
      ensures current.round == copy.round && Rank(current.status) >= Rank(Open)
      ensures if copy.status == Init then Fresh(store.View(), current) else current == copy && store.View() == old(store.View())
      ensures store.foreign == old(store.foreign) && Fresh(old(store.View()), copy) ==>
                && Fresh(store.View(), current)
                && StatusOnly(old(store.View()), store.View(), copy.round, if copy.status == Init then Open else copy.status)
    {
      DriverKnows(store.config, store.trace, pid);
      if copy.status == Init { current := OpenRound(pid, copy); } else { current := copy; }
    }

    method ResolveOrStop(pid: ProcessId, copy: Copy, pastEnd: bool, read: Option<Seed>) returns (tick: Tick)
      requires Wired() && At(pid, Driving(copy), copy.round, 0) && Rank(copy.status) >= Rank(Open)
      modifies store, store.book
      ensures store.Valid() && ProcessOf(store.View(), pid) == Idle && !tick.GamePaused? && !tick.Created?
      ensures Since(old(store.trace), old(store.foreign), pid, false, IsDue(copy, pastEnd))
      ensures TickLeaves(store.config, store.trace, tick, copy.round, copy.status, Rank(copy.status) >= Rank(Locked), pastEnd, read)
      ensures !IsDue(copy, pastEnd) ==> tick == Waiting
      ensures store.foreign == old(store.foreign) && Fresh(old(store.View()), copy) ==>
                if IsDue(copy, pastEnd) then ResolvedAlone(store.config, old(store.View()), store.View(), tick, copy.round, read)
                else SameTables(old(store.View()), store.View())
    {
      if (copy.status == Locked && pastEnd) || copy.status == Resolving {
        tick := ResolveRound(pid, copy, read);
      } else {
        DriverKnows(store.config, store.trace, pid);
        store.Forget(pid);
        StaysReached(store.config, old(store.trace), store.trace, copy.round, Rank(copy.status));
        tick := Waiting;
      }
    }

    method OpenRound(pid: ProcessId, copy: Copy) returns (current: Copy)
      requires At(pid, Driving(copy), copy.round, 0) && copy.status == Init
      modifies store, store.book
      ensures At(pid, Driving(current), copy.round, Rank(Open)) && Since(old(store.trace), old(store.foreign), pid, false, false)
      ensures current.round == copy.round && Rank(current.status) >= Rank(Open) && Fresh(store.View(), current)
      ensures store.foreign == old(store.foreign) && Fresh(old(store.View()), copy) ==>
                StatusOnly(old(store.View()), store.View(), copy.round, Open)
    {
      OpenIfInit(pid, copy);
      Pause(pid, ReadingBack(copy.round), copy.round, Rank(Open));
      current := ReadRound(pid, copy.round, Rank(Open));
    }

    method OpenIfInit(pid: ProcessId, copy: Copy)
      requires At(pid, Driving(copy), copy.round, 0) && copy.status == Init
      modifies store, store.book
      ensures At(pid, ReadingBack(copy.round), copy.round, Rank(Open)) && Since(old(store.trace), old(store.foreign), pid, false, false)
      ensures store.foreign == old(store.foreign) && Fresh(old(store.View()), copy) ==>
                StatusOnly(old(store.View()), store.View(), copy.round, Open)
    {
      Pause(pid, Driving(copy), copy.round, 0);
      OpeningReaches(store.config, store.trace, pid, copy.round);
      store.OpenRound(pid, copy.round);
    }

    method ReadRound(pid: ProcessId, r: RoundId, ghost rank: nat) returns (copy: Copy)
      requires At(pid, ReadingBack(r), r, rank)
      modifies store, store.book
      ensures At(pid, Driving(copy), r, rank) && Since(old(store.trace), old(store.foreign), pid, false, false)
      ensures copy.round == r && Rank(copy.status) >= rank && Fresh(store.View(), copy)
      ensures store.foreign == old(store.foreign) && SameTables(old(store.View()), store.View())
    {
      ReadingShows(store.config, store.trace, pid, r, rank);
      copy := store.ReadRound(pid);
      StaysReached(store.config, old(store.trace), store.trace, r, rank);
    }

    // None: somebody else moved the round on, and this call keeps its old copy and stops.
    method LockRound(pid: ProcessId, copy: Copy) returns (current: Option<Copy>)
      requires At(pid, Driving(copy), copy.round, 0) && copy.status == Open
      modifies store, store.book
      ensures At(pid, if current.Some? then Driving(current.value) else Idle, copy.round, Rank(Locked))
      ensures Since(old(store.trace), old(store.foreign), pid, true, false)
      ensures current.Some? ==> current.value.round == copy.round && Rank(current.value.status) >= Rank(Locked) &&
                                Fresh(store.View(), current.value)
      ensures store.foreign == old(store.foreign) && Fresh(old(store.View()), copy) ==>
                current.Some? && StatusOnly(old(store.View()), store.View(), copy.round, Locked)
    {
      var updated := LockIfOpen(pid, copy);
      if !updated { return None; }
      Pause(pid, ReadingBack(copy.round), copy.round, Rank(Locked));
      var read := ReadRound(pid, copy.round, Rank(Locked));
      return Some(read);
    }

    method LockIfOpen(pid: ProcessId, copy: Copy) returns (updated: bool)
      requires At(pid, Driving(copy), copy.round, 0) && copy.status == Open
      modifies store, store.book
      ensures At(pid, if updated then ReadingBack(copy.round) else Idle, copy.round, Rank(Locked))
      ensures Since(old(store.trace), old(store.foreign), pid, true, false)
      ensures store.foreign == old(store.foreign) && Fresh(old(store.View()), copy) ==>
                updated && StatusOnly(old(store.View()), store.View(), copy.round, Locked)
    {
      Pause(pid, Driving(copy), copy.round, 0);
      LockingReaches(store.config, store.trace, pid);
      updated := store.LockRound(pid);
    }

    // createNextRound, when the first n rounds are over. There is a newer round afterwards, whoever made it.
    method CreateNextRound(pid: ProcessId, ghost n: nat) returns (created: Option<RoundId>)
      requires store.Valid() && ProcessOf(store.View(), pid) == Numbering && AllOver(store.config, store.trace, n)
      modifies store, store.book
      ensures store.Valid() && Since(old(store.trace), old(store.foreign), pid, false, false) && ProcessOf(store.View(), pid) == Idle
      ensures |Run(store.config, EMPTY, store.trace).rounds| > n
      ensures created.Some? ==> created.value >= n && Reached(store.config, store.trace, created.value, Rank(Open))
      ensures store.foreign == old(store.foreign) && FindActive(old(store.rounds)).None? ==>
                created == Some(|old(store.rounds)|) && OneMoreRound(store.config, old(store.View()), store.View(), Open)
    {
      ghost var reading := ReadNumber(pid, n);
      created := InsertRound(pid, reading, n);
      if created.Some? {
        ghost var inserted := store.View();
        OpenCreated(pid, created.value);
        if store.foreign == old(store.foreign) && FindActive(old(store.rounds)).None? {
          NewRoundIsOpen(store.config, old(store.View()), inserted, store.View());
        }
      }
    }

    // The read of the latest number; the result is the trace it was made after.
    method ReadNumber(pid: ProcessId, ghost n: nat) returns (ghost reading: seq<Action>)
      requires store.Valid() && ProcessOf(store.View(), pid) == Numbering && AllOver(store.config, store.trace, n)
      modifies store, store.book
      ensures store.Valid() && old(store.trace) <= store.trace == reading && AllOver(store.config, reading, n)
      ensures Since(old(store.trace), old(store.foreign), pid, false, false)
      ensures ProcessOf(store.View(), pid) == Creating(LatestNumber(Run(store.config, EMPTY, reading).rounds))
      ensures store.foreign == old(store.foreign) ==> SameTables(old(store.View()), store.View())
    {
      store.Interleave(pid);
      var latest := store.FindLatestRound(pid);
      AllStayOver(store.config, old(store.trace), store.trace, n);
      reading := store.trace;
    }

    // The creating transaction, with the number that was read.
    method InsertRound(pid: ProcessId, ghost reading: seq<Action>, ghost n: nat) returns (created: Option<RoundId>)
      requires store.Valid() && reading == store.trace && AllOver(store.config, reading, n)
      requires ProcessOf(store.View(), pid) == Creating(LatestNumber(Run(store.config, EMPTY, reading).rounds))
      modifies store, store.book
      ensures store.Valid() && Since(reading, old(store.foreign), pid, false, false)
      ensures |Run(store.config, EMPTY, store.trace).rounds| > n
      ensures if created.Some? then created.value >= n && At(pid, Opening(created.value), created.value, 0)
              else ProcessOf(store.View(), pid) == Idle
      ensures store.foreign == old(store.foreign) && FindActive(old(store.rounds)).None? ==>
                created == Some(|old(store.rounds)|) && OneMoreRound(store.config, old(store.View()), store.View(), Init)
    {
      var seed: Seed := *;
      store.Interleave(pid);
      AllStayOver(store.config, reading, store.trace, n);
      created := InsertNow(pid, seed, reading, n);
    }

    method InsertNow(pid: ProcessId, seed: Seed, ghost reading: seq<Action>, ghost n: nat) returns (created: Option<RoundId>)
      requires store.Valid() && reading <= store.trace && AllOver(store.config, reading, n) && AllOver(store.config, store.trace, n)
      requires ProcessOf(store.View(), pid) == Creating(LatestNumber(Run(store.config, EMPTY, reading).rounds))
      modifies store
      ensures store.Valid() && store.trace == old(store.trace) + [CreateRound(pid, seed)] && store.foreign == old(store.foreign)
      ensures |Run(store.config, EMPTY, store.trace).rounds| > n
      ensures if created.Some? then created.value >= n && At(pid, Opening(created.value), created.value, 0)
              else ProcessOf(store.View(), pid) == Idle
      ensures FindActive(old(store.rounds)).None? && Run(store.config, EMPTY, reading).rounds == old(store.rounds) ==>
                created == Some(|old(store.rounds)|) && OneMoreRound(store.config, old(store.View()), store.View(), Init)
    {
      if FindActive(store.rounds).None? && Run(store.config, EMPTY, reading).rounds == store.rounds {
        CurrentReadInserts(store.config, reading, store.trace, pid, seed);
      }
      if Blocked(store.View(), pid) { OvertakenByAnother(store.config, reading, store.trace, pid, n); }
      InsertedOrOvertaken(store.config, store.View(), pid, seed, n);
      created := store.CreateRound(pid, seed);
    }

    method OpenCreated(pid: ProcessId, r: RoundId)
      requires At(pid, Opening(r), r, 0)
      modifies store, store.book
      ensures At(pid, Idle, r, Rank(Open)) && Since(old(store.trace), old(store.foreign), pid, false, false)
      ensures store.foreign == old(store.foreign) && old(store.rounds)[r].status == Init ==>
                StatusOnly(old(store.View()), store.View(), r, Open)
    {
      Pause(pid, Opening(r), r, 0);
      OpeningReaches(store.config, store.trace, pid, r);
      store.OpenRound(pid, r);
    }

    // resolveRound.
    method ResolveRound(pid: ProcessId, copy: Copy, read: Option<Seed>) returns (tick: Tick)
      requires Wired() && At(pid, Driving(copy), copy.round, 0)
      requires copy.status == Locked || copy.status == Resolving
      modifies store, store.book
      ensures store.Valid() && ProcessOf(store.View(), pid) == Idle && !tick.GamePaused? && !tick.Created?
      ensures Since(old(store.trace), old(store.foreign), pid, false, true)
      ensures TickLeaves(store.config, store.trace, tick, copy.round, copy.status, true, true, read)
      ensures store.foreign == old(store.foreign) && Fresh(old(store.View()), copy) ==>
                ResolvedAlone(store.config, old(store.View()), store.View(), tick, copy.round, read)
    {
      var next := StartResolving(pid, copy, read);
      ghost var started := store.trace;
      if next.Recovering? {
        tick := Recover(pid, copy.round, read);
      } else if next.Settling? {
        tick := SettleAndFinish(pid, read);
      } else {
        tick := Waiting;
      }
      KeepsBoth(old(store.trace), started, store.trace, pid, false, true, false, false);
    }

    method StartResolving(pid: ProcessId, copy: Copy, read: Option<Seed>) returns (next: Process)
      requires At(pid, Driving(copy), copy.round, 0) && (copy.status == Locked || copy.status == Resolving)
      modifies store, store.book
      ensures store.Valid() && Since(old(store.trace), old(store.foreign), pid, false, true) && ProcessOf(store.View(), pid) == next
      ensures GoodSeed(store.config, store.trace, copy.round, read) == !next.Recovering?
      ensures || (next == Recovering(copy.round) && Reached(store.config, store.trace, copy.round, Rank(Locked)))
              || (next.Settling? && next.round == copy.round && next.stage.Beginning? && !next.forcing)
              || (next == Idle && copy.status == Locked && Reached(store.config, store.trace, copy.round, Rank(Resolving)))
      ensures store.foreign == old(store.foreign) && Fresh(old(store.View()), copy) ==>
                && next != Idle && GoodSeed(store.config, old(store.trace), copy.round, read) == next.Settling?
                && (next.Recovering? ==> SameTables(old(store.View()), store.View()))
    {
      Pause(pid, Driving(copy), copy.round, 0);
      ResolvingMovesOn(store.config, store.trace, pid, read);
      GoodSeedStays(store.config, old(store.trace), store.trace, copy.round, read);
      store.StartResolving(pid, read);
      next := store.processes[pid];
    }

    // recoverUnresolvableRound. When a refund is refused the transaction rolls back, and the tick ends with its error.
    method Recover(pid: ProcessId, r: RoundId, read: Option<Seed>) returns (tick: Tick)
      requires At(pid, Recovering(r), r, Rank(Locked)) && !GoodSeed(store.config, store.trace, r, read)
      modifies store, store.book
      ensures store.Valid() && Since(old(store.trace), old(store.foreign), pid, false, false) && ProcessOf(store.View(), pid) == Idle
      ensures tick.Recovered? || tick.RecoveryRefused?
      ensures TickLeaves(store.config, store.trace, tick, r, Locked, true, true, read)
      ensures store.foreign == old(store.foreign) && Active(old(store.rounds)[r].status) ==>
                ResolvedAlone(store.config, old(store.View()), store.View(), tick, r, read)
    {
      ghost var before := store.View();
      Pause(pid, Recovering(r), r, Rank(Locked));
      var recovered := GiveUp(pid, r);
      if recovered {
        ghost var cancelled := store.View();
        Follow(pid, r);
        if store.foreign == old(store.foreign) && Active(before.rounds[r].status) {
          GivenUpInTwo(store.config, before, cancelled, store.View(), r);
        }
      }
      GoodSeedStays(store.config, old(store.trace), store.trace, r, read);
      RecoveryLeaves(store.config, store.trace, r, read, recovered);
      tick := if recovered then Recovered(r) else RecoveryRefused(r);
    }

    method GiveUp(pid: ProcessId, r: RoundId) returns (recovered: bool)
      requires At(pid, Recovering(r), r, Rank(Locked))
      modifies store, store.book
      ensures At(pid, if recovered then Numbering else Idle, r, if recovered then 4 else Rank(Locked))
      ensures Since(old(store.trace), old(store.foreign), pid, false, false) && store.foreign == old(store.foreign)
      ensures !recovered ==> !AllRefundable(store.View(), {r}, true) && SameTables(old(store.View()), store.View())
      ensures Active(old(store.rounds)[r].status) ==>
                && recovered == AllRefundable(old(store.View()), {r}, true) && r + 1 == |old(store.rounds)|
                && (recovered ==>
                      store.rounds == old(store.rounds)[r := old(store.rounds)[r].(status := CancelledRound, result := None)] &&
                      CancelledIn(old(store.bets), store.bets, {r}))
    {
      OnlyNewestIsActive(store.config, store.trace, r);
      var cancelled, order := store.RecoverRoundTx(pid);
      RecoveryReaches(store.config, old(store.trace), pid, order);
      recovered := store.processes[pid] == Numbering;
      if !recovered { StaysReached(store.config, old(store.trace), store.trace, r, Rank(Locked)); }
    }

    // createNextRound after round r has ended.
    method Follow(pid: ProcessId, r: RoundId)
      requires At(pid, Numbering, r, 4)
      modifies store, store.book
      ensures At(pid, Idle, r, 4) && Since(old(store.trace), old(store.foreign), pid, false, false)
      ensures Over(Run(store.config, EMPTY, store.trace), r)
      ensures store.foreign == old(store.foreign) && r + 1 == |old(store.rounds)| ==>
                OneMoreRound(store.config, old(store.View()), store.View(), Open)
    {
      OverMeansAllBefore(store.config, store.trace, r);
      NobodyActive(store.config, store.trace, r);
      var _ := CreateNextRound(pid, r + 1);
      StaysReached(store.config, old(store.trace), store.trace, r, 4);
      ReachedEndIsOver(store.config, store.trace, r);
    }

    method SettleAndFinish(pid: ProcessId, read: Option<Seed>) returns (tick: Tick)
      requires Wired() && store.Valid() && ProcessOf(store.View(), pid).Settling?
      requires ProcessOf(store.View(), pid).stage.Beginning? && !ProcessOf(store.View(), pid).forcing
      requires GoodSeed(store.config, store.trace, ProcessOf(store.View(), pid).round, read)
      modifies store, store.book
      ensures store.Valid() && Since(old(store.trace), old(store.foreign), pid, false, false) && ProcessOf(store.View(), pid) == Idle
      ensures tick.SettlementFailed? || tick.Resolved?
      ensures TickLeaves(store.config, store.trace, tick, old(ProcessOf(store.View(), pid)).round, Locked, true, true, read)
    {
      SettlerKnows(store.config, store.trace, pid);
      var p := store.processes[pid];
      Pause(pid, p, p.round, Rank(Resolving));
      var error := Settle(pid, p);
      if error.None? { Finish(pid, p.(stage := Stage.Settled)); }
      GoodSeedStays(store.config, old(store.trace), store.trace, p.round, read);
      SettlementLeaves(store.config, store.trace, p.round, p.result, read, error);
      tick := if error.None? then Resolved(p.round, p.result) else SettlementFailed(p.round, p.result, error.value);
    }

    method Settle(pid: ProcessId, p: Process) returns (error: Option<SettlementError>)
      requires Wired() && p.Settling? && p.stage.Beginning? && At(pid, p, p.round, Rank(Resolving))
      modifies store, store.book
      ensures At(pid, if error.None? then p.(stage := Stage.Settled) else Idle, p.round, Rank(Resolving))
      ensures Since(old(store.trace), old(store.foreign), pid, false, false)
      ensures if error.None? then SettledAs(Run(store.config, EMPTY, store.trace), p.round, p.result)
              else SettlementService.Explained(store.config, store.View(), p.round, p.result, error.value)
    {
      var outcome := settlement.SettleRound(pid);
      StaysReached(store.config, old(store.trace), store.trace, p.round, Rank(Resolving));
      error := if outcome.Settled? then None else Some(outcome.error);
    }

    method Finish(pid: ProcessId, p: Process)
      requires p.Settling? && !p.forcing && p.stage.Settled? && At(pid, p, p.round, Rank(Resolving))
      requires SettledAs(Run(store.config, EMPTY, store.trace), p.round, p.result)
      modifies store, store.book
      ensures At(pid, Idle, p.round, 4) && Since(old(store.trace), old(store.foreign), pid, false, false)
      ensures Over(Run(store.config, EMPTY, store.trace), p.round)
      ensures SettledAs(Run(store.config, EMPTY, store.trace), p.round, p.result)
    {
      Pause(pid, p, p.round, Rank(Resolving));
      FinishingReaches(store.config, store.trace, pid);
      store.FinishRound(pid);
      Follow(pid, p.round);
      StaysSettledAs(store.config, old(store.trace), store.trace, p.round, p.result);
    }
  }

  // ---------------------------------------------------------------- administrators

  datatype ForceAnswer =
    | Forced(round: RoundId)
    | NotForced(refusal: ForceRefusal)
    | SeedRefused(round: RoundId)
    | NotSettled(round: RoundId, error: SettlementError)

  // What a forcing call that got past its first transaction leaves behind.
  ghost predicate ForcingLeaves(c: Config, trace: seq<Action>, answer: ForceAnswer, result: Color, read: Option<Seed>)
    requires !answer.NotForced?
  {
    var s := Run(c, EMPTY, trace);
    && answer.round < |s.rounds|
    && (answer.SeedRefused? <==> read != Some(s.rounds[answer.round].secret))
    && (answer.NotSettled? ==> SettlementService.Explained(c, s, answer.round, result, answer.error))
    && (answer.Forced? ==>
          && s.rounds[answer.round].status == Completed
          && s.rounds[answer.round].result == Some(result)
          && s.rounds[answer.round].seedReveal == read
          && SettledAs(s, answer.round, result))
  }

  lemma CheckerKnows(c: Config, trace: seq<Action>, pid: ProcessId, read: Option<Seed>)
    requires ConfigOk(c) && ProcessOf(Run(c, EMPTY, trace), pid).CheckingSeed?
    ensures var p := ProcessOf(Run(c, EMPTY, trace), pid);
            && p.round < |Run(c, EMPTY, trace).rounds|
            && (GoodSeed(c, trace, p.round, read) <==> read.Some? && c.hash(read.value) == p.hash)
  {
    var s := Run(c, EMPTY, trace);
    ReachableIsOk(c, trace);
    assert ProcessOk(c, s, ProcessOf(s, pid));
    assert RoundOk(c, s.rounds, ProcessOf(s, pid).round);
    OwnSeedMatches(c, s.rounds[ProcessOf(s, pid).round], read);
  }

  class AdminService {
    const store: Store
    const settlement: SettlementService.Service

    constructor (s: Store)
      ensures store == s && settlement.store == s
    {
      store := s;
      settlement := new SettlementService.Service(s);
    }

    predicate Wired()
    {
      settlement.store == store
    }

    // forceResult, which answers 404 or 409 on what it finds, fails on a seed that is not the round's own or
    // on a winner who cannot be paid, and otherwise ends the round completed with the forced result and its
    // seed, whatever happened to its status meanwhile: the last update is not guarded.
    method ForceResult(pid: ProcessId, result: Color, read: Option<Seed>) returns (answer: ForceAnswer)
      requires Wired() && store.Valid() && ProcessOf(store.View(), pid) == Idle
      modifies store, store.book
      ensures store.Valid() && old(store.trace) <= store.trace && ProcessOf(store.View(), pid) == Idle
      ensures var active := FindActive(old(store.rounds));
              && (answer == NotForced(NoActiveRound) <==> active.None?)
              && (answer == NotForced(ResultConflict) <==>
                    active.Some? && old(store.rounds)[active.value].result.Some? && old(store.rounds)[active.value].result != Some(result))
              && (!answer.NotForced? ==> active == Some(answer.round) && ForcingLeaves(store.config, store.trace, answer, result, read))
    {
      var refusal := store.ForceResultTx(pid, result);
      if refusal.Some? { return NotForced(refusal.value); }
      var r := store.processes[pid].round;
      var ok := CheckSeed(pid, read);
      if ok {
        answer := SettleForced(pid, result, read);
      } else {
        answer := SeedRefused(r);
      }
    }

    // The check of the seed that follows the first transaction.
    method CheckSeed(pid: ProcessId, read: Option<Seed>) returns (ok: bool)
      requires store.Valid() && ProcessOf(store.View(), pid).CheckingSeed?
      modifies store, store.book
      ensures store.Valid() && old(store.trace) <= store.trace
      ensures var p := old(ProcessOf(store.View(), pid));
              && ok == GoodSeed(store.config, store.trace, p.round, read) && p.round < |store.rounds|
              && ProcessOf(store.View(), pid) == if ok then Settling(p.round, p.result, read.value, true, Beginning) else Idle
    {
      store.Interleave(pid);
      CheckerKnows(store.config, store.trace, pid, read);
      ok := store.CheckForcedSeed(pid, read);
      GoodSeedStays(store.config, store.trace[..|store.trace| - 1], store.trace, old(ProcessOf(store.View(), pid)).round, read);
    }

    method SettleForced(pid: ProcessId, result: Color, read: Option<Seed>) returns (answer: ForceAnswer)
      requires Wired() && store.Valid() && ProcessOf(store.View(), pid).Settling?
      requires ProcessOf(store.View(), pid) == Settling(ProcessOf(store.View(), pid).round, result, ProcessOf(store.View(), pid).seed, true, Beginning)
      requires read == Some(ProcessOf(store.View(), pid).seed)
      requires GoodSeed(store.config, store.trace, ProcessOf(store.View(), pid).round, read)
      modifies store, store.book
      ensures store.Valid() && old(store.trace) <= store.trace && ProcessOf(store.View(), pid) == Idle
      ensures (answer.Forced? || answer.NotSettled?) && answer.round == old(ProcessOf(store.View(), pid)).round
      ensures ForcingLeaves(store.config, store.trace, answer, result, read)
    {
      SettlerKnows(store.config, store.trace, pid);
      store.Interleave(pid);
      var p := store.processes[pid];
      var outcome := settlement.SettleRound(pid);
      if outcome.Failed? {
        GoodSeedStays(store.config, old(store.trace), store.trace, p.round, read);
        return NotSettled(p.round, outcome.error);
      }
      FinishForced(pid, p.(stage := Settled));
      GoodSeedStays(store.config, old(store.trace), store.trace, p.round, read);
      return Forced(p.round);
    }

    method FinishForced(pid: ProcessId, p: Process)
      requires store.Valid() && ProcessOf(store.View(), pid) == p && p.Settling? && p.forcing && p.stage.Settled?
      requires SettledAs(store.View(), p.round, p.result)
      modifies store, store.book
      ensures store.Valid() && old(store.trace) <= store.trace && ProcessOf(store.View(), pid) == Idle
      ensures p.round < |store.rounds|
      ensures var round := store.rounds[p.round];
              round.status == Completed && round.result == Some(p.result) && round.seedReveal == Some(p.seed)
      ensures SettledAs(store.View(), p.round, p.result)
    {
      store.Interleave(pid);
      StaysSettledAs(store.config, old(store.trace), store.trace, p.round, p.result);
      SettlerKnows(store.config, store.trace, pid);
      store.FinishRound(pid);
    }

    // adjustWallet: one transaction, run a second time when the first hit a unique constraint. A movement it
    // reports is the one asked for: this user, direction, amount and reference, written by its last step
    // under a key that was free. A replay names the row that already holds the key. Undisturbed, it moves
    // coins exactly when it can, and replays exactly when the same adjustment is there.
    method AdjustWallet(pid: ProcessId, user: UserId, amount: int, direction: Direction, reference: nat, key: Key)
      returns (result: PostResult)
      requires store.Valid()
      modifies store, store.book
      ensures store.Valid() && old(store.trace) < store.trace && old(store.foreign) <= store.foreign
      ensures FindRow(old(store.book.ledger), key).Some? ==> !result.Moved?
      ensures AdjustmentHolds(result, user, amount, direction, reference, key)
      ensures store.foreign == old(store.foreign) ==>
                AnsweredAlone(old(store.View()), result, user, amount, direction, reference, key)
    {
      result := TryAdjust(pid, user, amount, direction, reference, key);
      if result == Refused(UniqueViolation) {
        ghost var between := store.trace;
        result := TryAdjust(pid, user, amount, direction, reference, key);
        LedgerKept(store.config, old(store.trace), between, key);
      }
    }

    // What an answer says about the ledger at the end.
    ghost predicate AdjustmentHolds(result: PostResult, user: UserId, amount: int, direction: Direction, reference: nat, key: Key)
      reads store, store.book
    {
      && |store.trace| > 0
      && (result.Moved? ==>
            && IsAdjustmentOf(result.row, user, amount, direction, reference, key)
            && FindRow(store.book.ledger, key) == Some(result.row)
            && Adjusted(Run(store.config, EMPTY, store.trace[..|store.trace| - 1]).bank, store.book.Contents(),
                        user, amount, direction, reference, key))
      && (result.Replayed? ==>
            && IsAdjustmentOf(result.earlier, user, amount, direction, reference, key)
            && FindRow(store.book.ledger, key) == Some(result.earlier))
    }

    // What it says about the database it met, when nothing else went on.
    ghost predicate AnsweredAlone(before: State, result: PostResult, user: UserId, amount: int, direction: Direction,
                                  reference: nat, key: Key)
      reads store, store.book
    {
      && (result.Moved? <==> CanAdjust(before.bank, user, amount, direction, key))
      && (result.Moved? ==> Adjusted(before.bank, store.book.Contents(), user, amount, direction, reference, key))
      && (result.Replayed? <==>
            0 < amount <= 9_007_199_254_740_991 && FindRow(before.bank.ledger, key).Some? &&
            IsAdjustmentOf(FindRow(before.bank.ledger, key).value, user, amount, direction, reference, key))
      && (!result.Moved? ==> store.View() == before)
    }

    method TryAdjust(pid: ProcessId, user: UserId, amount: int, direction: Direction, reference: nat, key: Key)
      returns (result: PostResult)
      requires store.Valid()
      modifies store, store.book
      ensures store.Valid() && old(store.trace) < store.trace && old(store.foreign) <= store.foreign
      ensures FindRow(old(store.book.ledger), key).Some? ==> !result.Moved?
      ensures AdjustmentHolds(result, user, amount, direction, reference, key)
      ensures store.foreign == old(store.foreign) ==>
                AnsweredAlone(old(store.View()), result, user, amount, direction, reference, key)
    {
      store.Interleave(pid);
      LedgerKept(store.config, old(store.trace), store.trace, key);
      result := store.AdjustWalletTx(user, amount, direction, reference, key);
    }
  }

  lemma LedgerKept(c: Config, earlier: seq<Action>, trace: seq<Action>, key: Key)
    requires ConfigOk(c) && earlier <= trace
    ensures var before, after := Run(c, EMPTY, earlier).bank.ledger, Run(c, EMPTY, trace).bank.ledger;
            before <= after && (FindRow(after, key).None? ==> FindRow(before, key).None?)
  {
    var since := trace[|earlier|..];
    assert trace == earlier + since;
    RunInTwo(c, EMPTY, earlier, since);
    ReachableIsOk(c, earlier);
    RunOnlyAppends(c, Run(c, EMPTY, earlier), since);
  }

  // ---------------------------------------------------------------- bets

  predicate IsSameBet(bet: Bet, user: UserId, r: RoundId, choice: Color, stake: int) {
    bet.user == user && bet.round == r && bet.choice == choice && bet.stake == stake
  }

  // placeBet for one request, which other requests with the same key may overtake at any point.
  class BetService {
    const store: Store

    constructor (s: Store)
      ensures store == s
    {
      store := s;
    }

    // A request whose key is taken places nothing: it is answered with the bet under the key if that is the
    // same bet, and with the conflict if it is not. A bet is reported only if it is the bet asked for and
    // holds the key; as new, only to the call that made it. The conflict means that another bet holds the
    // key, or that somebody else's ledger row holds the key of the bettor's opening coins. Undisturbed, a
    // request under a fresh key is taken exactly when there is no objection, or gets the first one.
    method PlaceBet(pid: ProcessId, user: UserId, r: RoundId, choice: Color, stake: int, clientKey: string, beforeLock: bool)
      returns (answer: BetAnswer)
      requires store.Valid() && ValidAmount(stake)
      modifies store, store.book
      ensures store.Valid() && old(store.trace) <= store.trace && old(store.foreign) <= store.foreign
      ensures !answer.Rejected? ==> answer.bet < |store.bets| &&
                                    var bet := store.bets[answer.bet];
                                    bet.clientKey == clientKey && bet.user == user && bet.round == r && bet.choice == choice && bet.stake == stake
      ensures answer.Placed? ==> !ClientKeyUsed(old(store.bets), clientKey) && answer.bet >= |old(store.bets)|
      ensures forall b: BetId :: b < |old(store.bets)| && old(store.bets)[b].clientKey == clientKey ==>
                && store.View() == old(store.View())
                && var bet := old(store.bets)[b];
                   answer == if bet.user == user && bet.round == r && bet.choice == choice && bet.stake == stake
                             then AlreadyPlaced(b) else Rejected(KeyReused)
      ensures answer != Rejected(UniqueConflict)
      ensures answer == Rejected(KeyReused) ==>
                HeldByAnother(store.bets, user, r, choice, stake, clientKey) || OpeningTaken(store.book.ledger, user)
      ensures store.foreign == old(store.foreign) && !ClientKeyUsed(old(store.bets), clientKey) ==>
                match Objection(store.config, old(store.View()), user, r, choice, stake, clientKey, beforeLock)
                case None => answer == Placed(|old(store.bets)|) && BetTaken(old(store.View()), store.View(), user, r, choice, stake, clientKey)
                case Some(reason) => answer == Rejected(if reason == UniqueConflict then KeyReused else reason) && store.View() == old(store.View())
    {
      var existing := store.FindBetByKey(clientKey);
      if existing.Some? {
        HolderIsUnique(store.config, store.trace, existing.value);
        return if IsSameBet(store.bets[existing.value], user, r, choice, stake) then AlreadyPlaced(existing.value) else Rejected(KeyReused);
      }
      answer := PlaceFresh(pid, user, r, choice, stake, clientKey, beforeLock);
    }

    // A request that found its key unused.
    method PlaceFresh(pid: ProcessId, user: UserId, r: RoundId, choice: Color, stake: int, clientKey: string, beforeLock: bool)
      returns (answer: BetAnswer)
      requires store.Valid() && ValidAmount(stake) && !ClientKeyUsed(store.bets, clientKey)
      modifies store, store.book
      ensures store.Valid() && old(store.trace) <= store.trace && old(store.foreign) <= store.foreign
      ensures !answer.Rejected? ==> answer.bet < |store.bets| && store.bets[answer.bet].clientKey == clientKey &&
                                    IsSameBet(store.bets[answer.bet], user, r, choice, stake)
      ensures answer.Placed? ==> answer.bet >= |old(store.bets)|
      ensures answer != Rejected(UniqueConflict)
      ensures answer == Rejected(KeyReused) ==>
                HeldByAnother(store.bets, user, r, choice, stake, clientKey) || OpeningTaken(store.book.ledger, user)
      ensures store.foreign == old(store.foreign) ==>
                match Objection(store.config, old(store.View()), user, r, choice, stake, clientKey, beforeLock)
                case None => answer == Placed(|old(store.bets)|) && BetTaken(old(store.View()), store.View(), user, r, choice, stake, clientKey)
                case Some(reason) => answer == Rejected(if reason == UniqueConflict then KeyReused else reason) && store.View() == old(store.View())
    {
      ghost var tried;
      answer, tried := TryOnce(pid, user, r, choice, stake, clientKey, beforeLock);
      ReuseIsNoObjection(store.config, Run(store.config, EMPTY, tried), user, r, choice, stake, clientKey, beforeLock);
      if answer == Rejected(UniqueConflict) {
        answer := LookAgain(pid, user, r, choice, stake, clientKey, beforeLock, tried);
      }
    }

    // The transaction; tried is the trace it ran after.
    method TryOnce(pid: ProcessId, user: UserId, r: RoundId, choice: Color, stake: int, clientKey: string, beforeLock: bool)
      returns (answer: BetAnswer, ghost tried: seq<Action>)
      requires store.Valid() && ValidAmount(stake)
      modifies store, store.book
      ensures store.Valid() && old(store.trace) <= tried <= store.trace && old(store.foreign) <= store.foreign
      ensures match Objection(store.config, Run(store.config, EMPTY, tried), user, r, choice, stake, clientKey, beforeLock)
              case None =>
                && answer.Placed? && |old(store.bets)| <= answer.bet < |store.bets|
                && store.bets[answer.bet].clientKey == clientKey && IsSameBet(store.bets[answer.bet], user, r, choice, stake)
              case Some(reason) => answer == Rejected(reason)
      ensures store.foreign == old(store.foreign) ==>
                && Run(store.config, EMPTY, tried) == old(store.View())
                && (if answer.Placed?
                    then answer.bet == |old(store.bets)| && BetTaken(old(store.View()), store.View(), user, r, choice, stake, clientKey)
                    else store.View() == old(store.View()))
    {
      store.Interleave(pid);
      BetsKeptBetween(store.config, old(store.trace), store.trace);
      tried := store.trace;
      answer := store.CreateBetTx(user, r, choice, stake, clientKey, beforeLock);
    }

    // The second lookup, after the transaction hit a unique constraint; tried is the trace it ran after.
    method LookAgain(pid: ProcessId, user: UserId, r: RoundId, choice: Color, stake: int, clientKey: string, beforeLock: bool,
                     ghost tried: seq<Action>)
      returns (answer: BetAnswer)
      requires store.Valid() && tried <= store.trace
      requires Objection(store.config, Run(store.config, EMPTY, tried), user, r, choice, stake, clientKey, beforeLock) == Some(UniqueConflict)
      modifies store, store.book
      ensures store.Valid() && old(store.trace) <= store.trace && old(store.foreign) <= store.foreign
      ensures answer.AlreadyPlaced? || answer == Rejected(KeyReused)
      ensures answer.AlreadyPlaced? ==> answer.bet < |store.bets| && store.bets[answer.bet].clientKey == clientKey &&
                                        IsSameBet(store.bets[answer.bet], user, r, choice, stake)
      ensures answer == Rejected(KeyReused) ==>
                HeldByAnother(store.bets, user, r, choice, stake, clientKey) || OpeningTaken(store.book.ledger, user)
      ensures store.foreign == old(store.foreign) ==>
                store.View() == old(store.View()) && (!ClientKeyUsed(store.bets, clientKey) ==> answer == Rejected(KeyReused))
    {
      store.Interleave(pid);
      ConflictHasCause(store.config, tried, store.trace, user, r, choice, stake, clientKey, beforeLock);
      var existing := store.FindBetByKey(clientKey);
      if existing.Some? && IsSameBet(store.bets[existing.value], user, r, choice, stake) {
        return AlreadyPlaced(existing.value);
      }
      return Rejected(KeyReused);
    }
  }

  // A different bet holds this client key.
  ghost predicate HeldByAnother(bets: seq<Bet>, user: UserId, r: RoundId, choice: Color, stake: int, clientKey: string) {
    exists b :: 0 <= b < |bets| && bets[b].clientKey == clientKey &&
                !(bets[b].user == user && bets[b].round == r && bets[b].choice == choice && bets[b].stake == stake)
  }

  // Somebody else's ledger row holds the key of this user's opening coins.
  ghost predicate OpeningTaken(ledger: seq<Row>, user: UserId) {
    var row := FindRow(ledger, InitialCoins(user));
    row.Some? && row.value.user != user
  }

  lemma HolderIsUnique(c: Config, trace: seq<Action>, bet: BetId)
    requires ConfigOk(c) && bet < |Run(c, EMPTY, trace).bets|
    ensures var bets := Run(c, EMPTY, trace).bets;
            forall b :: 0 <= b < |bets| && bets[b].clientKey == bets[bet].clientKey ==> b == bet
  {
    ReachableIsOk(c, trace);
  }

  // A unique constraint that turned a bet down goes back to the client key, and then some bet holds it from
  // there on, or to the bettor's opening coins.
  lemma ConflictHasCause(c: Config, tried: seq<Action>, trace: seq<Action>, user: UserId, r: RoundId, choice: Color, stake: int,
                         clientKey: string, beforeLock: bool)
    requires ConfigOk(c) && tried <= trace
    requires Objection(c, Run(c, EMPTY, tried), user, r, choice, stake, clientKey, beforeLock) == Some(UniqueConflict)
    ensures ClientKeyUsed(Run(c, EMPTY, trace).bets, clientKey) || OpeningTaken(Run(c, EMPTY, trace).bank.ledger, user)
  {
    if ClientKeyUsed(Run(c, EMPTY, tried).bets, clientKey) {
      KeyStaysUsed(c, tried, trace, clientKey);
    } else {
      ForeignOpening(c, tried, trace, user);
    }
  }

  lemma KeyStaysUsed(c: Config, earlier: seq<Action>, trace: seq<Action>, clientKey: string)
    requires ConfigOk(c) && earlier <= trace && ClientKeyUsed(Run(c, EMPTY, earlier).bets, clientKey)
    ensures ClientKeyUsed(Run(c, EMPTY, trace).bets, clientKey)
  {
    var bets, bets' := Run(c, EMPTY, earlier).bets, Run(c, EMPTY, trace).bets;
    BetsKeptBetween(c, earlier, trace);
    var b :| 0 <= b < |bets| && bets[b].clientKey == clientKey;
    assert SameOffer(bets[b], bets'[b]);
  }

  lemma ForeignOpening(c: Config, earlier: seq<Action>, trace: seq<Action>, user: UserId)
    requires ConfigOk(c) && earlier <= trace
    requires var bank := Run(c, EMPTY, earlier).bank; user !in bank.wallets && FindRow(bank.ledger, InitialCoins(user)).Some?
    ensures OpeningTaken(Run(c, EMPTY, trace).bank.ledger, user)
  {
    ReachableIsOk(c, earlier);
    ReachableIsOk(c, trace);
    LedgerKept(c, earlier, trace, InitialCoins(user));
    OpeningStaysTaken(Run(c, EMPTY, earlier).bank, Run(c, EMPTY, trace).bank, user);
  }

  lemma OpeningStaysTaken(bank: Bank, bank': Bank, user: UserId)
    requires Agrees(bank, user) && KeysUnique(bank'.ledger) && bank.ledger <= bank'.ledger
    requires user !in bank.wallets && FindRow(bank.ledger, InitialCoins(user)).Some?
    ensures OpeningTaken(bank'.ledger, user)
  {
    NoRowsNoTrace(bank.ledger, user);
    var i :| 0 <= i < |bank.ledger| && bank.ledger[i].key == InitialCoins(user);
    assert bank'.ledger[i] == bank.ledger[i];
    HolderIsFound(bank'.ledger, i);
  }

  lemma HolderIsFound(ledger: seq<Row>, i: nat)
    requires KeysUnique(ledger) && i < |ledger|
    ensures FindRow(ledger, ledger[i].key) == Some(ledger[i])
  {
    var found := FindRow(ledger, ledger[i].key);
    var j :| 0 <= j < |ledger| && ledger[j] == found.value;
    assert ledger[j].key == ledger[i].key;
  }
}
