// settleRound with its loops, while other engines and administrators keep working on the same tables.
module SettlementService {
  import opened Types
  import opened Ledger
  import opened LedgerLaws
  import opened Bets
  import opened Game
  import opened GameMoney
  import opened GameRounds
  import opened GameSafety
  import opened GameTheorems
  import opened GameRefinement
  import opened GameProgress
  import opened GamePots
  import opened GameStore

  const WINNER_USER_BATCH_SIZE: nat := 250
  const WINNER_SETTLEMENT_CONCURRENCY: nat := 100

  datatype Outcome = Settled(stats: Stats, creditedUsers: nat) | Failed(error: SettlementError)

  // What still holds of a round under settlement when other calls went on in between.
  lemma Later(c: Config, earlier: seq<Action>, trace: seq<Action>, r: RoundId, result: Color)
    requires ConfigOk(c) && earlier <= trace && SettlementAllows(Run(c, EMPTY, earlier), r, result)
    ensures var s, s' := Run(c, EMPTY, earlier), Run(c, EMPTY, trace);
            SettlementAllows(s', r, result) && OnlyDecides(s.bets, s'.bets, r) && Positive(s.bets) && Positive(s'.bets)
  {
    var s, since := Run(c, EMPTY, earlier), trace[|earlier|..];
    assert trace == earlier + since;
    RunInTwo(c, EMPTY, earlier, since);
    ReachableIsOk(c, earlier);
    ReachableIsOk(c, trace);
    BetsArePositive(s.bank, s.bets);
    BetsArePositive(Run(c, EMPTY, trace).bank, Run(c, EMPTY, trace).bets);
    assert SettlementOk(s, r);
    RunOnlyDecides(c, s, since, r);
    RunKeepsSettlement(c, s, since, r, result);
  }

  lemma SettledUserIsFewer(bets: seq<Bet>, bets': seq<Bet>, r: RoundId, result: Color, user: UserId)
    requires OnlyDecides(bets, bets', r) && Positive(bets')
    requires user in PendingWinners(bets, r, result) && Sum(PendingWins(r, result, user), bets') == 0
    ensures Sum(WinnersIn(r, result), bets') < Sum(WinnersIn(r, result), bets)
  {
    var i :| 0 <= i < |bets| && PendingWinner(bets[i], r, result, user);
    ZeroSumMeansNone(PendingWins(r, result, user), bets');
    assert Weight(PendingWins(r, result, user), bets'[i]) == 0;
    assert Same(bets[i], bets'[i]) || Decides(bets[i], bets'[i]);
    WinnersBecomeFewer(bets, bets', r, result);
  }

  lemma WinnerIsListed(bets: seq<Bet>, r: RoundId, result: Color)
    ensures PendingWinners(bets, r, result) == {} <==> forall i :: 0 <= i < |bets| ==> !PendingWinner(bets[i], r, result, bets[i].user)
  {
    if i :| 0 <= i < |bets| && PendingWinner(bets[i], r, result, bets[i].user) {
      assert bets[i].user in PendingWinners(bets, r, result);
    }
  }

  lemma NobodyLeft(bets: seq<Bet>, r: RoundId, result: Color)
    requires Positive(bets)
    ensures PendingWinners(bets, r, result) == {} <==> Sum(WinnersIn(r, result), bets) == 0
  {
    WinnerIsListed(bets, r, result);
    ZeroSumMeansNone(WinnersIn(r, result), bets);
    assert forall i :: 0 <= i < |bets| ==>
      (Weight(WinnersIn(r, result), bets[i]) == 0 <==> !PendingWinner(bets[i], r, result, bets[i].user));
  }

  lemma PositiveWinsMeanPending(bets: seq<Bet>, r: RoundId, result: Color, user: UserId)
    requires Positive(bets) && Sum(PendingWins(r, result, user), bets) != 0
    ensures user in PendingWinners(bets, r, result)
  {
    ZeroSumMeansNone(PendingWins(r, result, user), bets);
    var i :| 0 <= i < |bets| && Weight(PendingWins(r, result, user), bets[i]) != 0;
    assert bets[i] in bets;
  }

  // No pending bet of the round chose another colour.
  predicate NoLoserLeft(bets: seq<Bet>, r: RoundId, result: Color) {
    forall i :: 0 <= i < |bets| && bets[i].round == r && bets[i].status == Pending ==> bets[i].choice == result
  }

  lemma NoLoserComesBack(bets: seq<Bet>, bets': seq<Bet>, r: RoundId, result: Color)
    requires OnlyDecides(bets, bets', r) && NoLoserLeft(bets, r, result)
    ensures NoLoserLeft(bets', r, result)
  {
    forall i | 0 <= i < |bets'| && bets'[i].round == r && bets'[i].status == Pending ensures bets'[i].choice == result {
      assert i < |bets| && Same(bets[i], bets'[i]);
    }
  }

  lemma NothingPending(bets: seq<Bet>, r: RoundId, result: Color)
    requires Positive(bets) && NoLoserLeft(bets, r, result) && Sum(WinnersIn(r, result), bets) == 0
    ensures Sum(PendingIn(r), bets) == 0
  {
    ZeroSumMeansNone(WinnersIn(r, result), bets);
    ZeroSumMeansNone(PendingIn(r), bets);
    forall i | 0 <= i < |bets| ensures Weight(PendingIn(r), bets[i]) == 0 {
      assert Weight(WinnersIn(r, result), bets[i]) == 0;
    }
  }

  lemma {:induction false} PendingWinsStayZero(bets: seq<Bet>, bets': seq<Bet>, r: RoundId, result: Color, user: UserId)
    requires OnlyDecides(bets, bets', r) && Positive(bets) && Positive(bets')
    ensures Sum(PendingWins(r, result, user), bets) == 0 ==> Sum(PendingWins(r, result, user), bets') == 0
  {
    ZeroSumMeansNone(PendingWins(r, result, user), bets);
    ZeroSumMeansNone(PendingWins(r, result, user), bets');
    if Sum(PendingWins(r, result, user), bets) == 0 {
      forall i | 0 <= i < |bets'| ensures Weight(PendingWins(r, result, user), bets'[i]) == 0 {
        if i < |bets| {
          assert Weight(PendingWins(r, result, user), bets[i]) == 0;
          assert Same(bets[i], bets'[i]) || Decides(bets[i], bets'[i]);
        }
      }
    }
  }

  // The pending winners of round r in the state a trace leads to.
  function Left(c: Config, trace: seq<Action>, r: RoundId, result: Color): int {
    Sum(WinnersIn(r, result), Run(c, EMPTY, trace).bets)
  }

  lemma {:induction false} NeverMoreLeft(c: Config, earlier: seq<Action>, trace: seq<Action>, r: RoundId, result: Color)
    requires ConfigOk(c) && earlier <= trace && SettlementAllows(Run(c, EMPTY, earlier), r, result)
    ensures SettlementAllows(Run(c, EMPTY, trace), r, result)
    ensures 0 <= Left(c, trace, r, result) <= Left(c, earlier, r, result)
  {
    Later(c, earlier, trace, r, result);
    WinnersBecomeFewer(Run(c, EMPTY, earlier).bets, Run(c, EMPTY, trace).bets, r, result);
  }

  lemma UserSettled(c: Config, earlier: seq<Action>, trace: seq<Action>, r: RoundId, result: Color, user: UserId)
    requires ConfigOk(c) && earlier <= trace && SettlementAllows(Run(c, EMPTY, earlier), r, result)
    requires user in PendingWinners(Run(c, EMPTY, earlier).bets, r, result)
    requires Sum(PendingWins(r, result, user), Run(c, EMPTY, trace).bets) == 0
    ensures Left(c, trace, r, result) < Left(c, earlier, r, result)
  {
    Later(c, earlier, trace, r, result);
    SettledUserIsFewer(Run(c, EMPTY, earlier).bets, Run(c, EMPTY, trace).bets, r, result, user);
  }

  lemma StaysSettled(c: Config, earlier: seq<Action>, trace: seq<Action>, r: RoundId, result: Color, user: UserId)
    requires ConfigOk(c) && earlier <= trace && SettlementAllows(Run(c, EMPTY, earlier), r, result)
    requires Sum(PendingWins(r, result, user), Run(c, EMPTY, earlier).bets) == 0
    ensures Sum(PendingWins(r, result, user), Run(c, EMPTY, trace).bets) == 0
  {
    Later(c, earlier, trace, r, result);
    PendingWinsStayZero(Run(c, EMPTY, earlier).bets, Run(c, EMPTY, trace).bets, r, result, user);
  }

  lemma CreditSettles(c: Config, earlier: seq<Action>, trace: seq<Action>, r: RoundId, result: Color, user: UserId)
    requires ConfigOk(c) && earlier <= trace && SettlementAllows(Run(c, EMPTY, earlier), r, result)
    requires Sum(PendingWins(r, result, user), Run(c, EMPTY, earlier).bets) != 0
    requires Run(c, EMPTY, trace).bets == MarkWinner(Run(c, EMPTY, earlier).bets, r, result, user)
    ensures Sum(PendingWins(r, result, user), Run(c, EMPTY, trace).bets) == 0
    ensures Left(c, trace, r, result) < Left(c, earlier, r, result)
  {
    Later(c, earlier, trace, r, result);
    NoWinnerLeft(Run(c, EMPTY, earlier).bets, r, result, user);
    PositiveWinsMeanPending(Run(c, EMPTY, earlier).bets, r, result, user);
    UserSettled(c, earlier, trace, r, result, user);
  }

  lemma NobodyLeftIn(c: Config, trace: seq<Action>, r: RoundId, result: Color)
    requires ConfigOk(c)
    ensures PendingWinners(Run(c, EMPTY, trace).bets, r, result) == {} <==> Left(c, trace, r, result) == 0
  {
    var s := Run(c, EMPTY, trace);
    ReachableIsOk(c, trace);
    BetsArePositive(s.bank, s.bets);
    NobodyLeft(s.bets, r, result);
  }

  lemma RoundIsDecided(c: Config, losersDone: seq<Action>, winnersDone: seq<Action>, trace: seq<Action>, r: RoundId, result: Color)
    requires ConfigOk(c) && losersDone <= winnersDone <= trace
    requires SettlementAllows(Run(c, EMPTY, losersDone), r, result)
    requires NoLoserLeft(Run(c, EMPTY, losersDone).bets, r, result) && Left(c, winnersDone, r, result) == 0
    ensures SettlementAllows(Run(c, EMPTY, trace), r, result) && Sum(PendingIn(r), Run(c, EMPTY, trace).bets) == 0
  {
    NeverMoreLeft(c, losersDone, winnersDone, r, result);
    NeverMoreLeft(c, winnersDone, trace, r, result);
    Later(c, losersDone, trace, r, result);
    NoLoserComesBack(Run(c, EMPTY, losersDone).bets, Run(c, EMPTY, trace).bets, r, result);
    NothingPending(Run(c, EMPTY, trace).bets, r, result);
  }

  // What a process that has settled knows about the row and the bets.
  lemma SettledIsFinal(c: Config, trace: seq<Action>, pid: ProcessId)
    requires ConfigOk(c) && ProcessOf(Run(c, EMPTY, trace), pid).Settling? && ProcessOf(Run(c, EMPTY, trace), pid).stage.Settled?
    ensures var s := Run(c, EMPTY, trace);
            var p := ProcessOf(s, pid);
            && SettlementAllows(s, p.round, p.result)
            && s.settlements[p.round].success
            && s.settlements[p.round].stats == StatsOf(s.bets, p.round)
            && Sum(PendingIn(p.round), s.bets) == 0
  {
    ReachableIsOk(c, trace);
    var s := Run(c, EMPTY, trace);
    assert ProcessOk(c, s, ProcessOf(s, pid));
    assert SettlementOk(s, ProcessOf(s, pid).round);
  }

  // A process that begins to settle agrees with whatever row there is.
  lemma BeginnersAgree(c: Config, trace: seq<Action>, pid: ProcessId)
    requires ConfigOk(c) && ProcessOf(Run(c, EMPTY, trace), pid).Settling?
    ensures var s := Run(c, EMPTY, trace);
            var p := ProcessOf(s, pid);
            p.round in s.settlements ==> s.settlements[p.round].result == p.result
  {
    ReachableIsOk(c, trace);
    SettlersAgree(c, Run(c, EMPTY, trace), pid, pid);
  }

  predicate SafeCaps(c: Config) { WIN_PAYOUT_MULTIPLIER * c.userCap <= MAX_SAFE_INTEGER }

  // The user is owed money for round r and cannot get it: the wallet is inactive, or an administrator
  // wrote a row under the settlement key.
  ghost predicate Blocked(s: State, r: RoundId, result: Color, u: UserId) {
    && u in s.bank.wallets
    && Sum(PendingWins(r, result, u), s.bets) != 0
    && (!s.bank.wallets[u].active || FindRow(s.bank.ledger, Key.SettlementCredit(r, u)).Some?)
  }

  // Why a settlement failed. With a safe user cap the payout guard is not among the reasons.
  ghost predicate Explained(c: Config, s: State, r: RoundId, result: Color, error: SettlementError) {
    SafeCaps(c) ==> error.WalletRefused? && Blocked(s, r, result, error.user)
  }

  lemma RefusalIsExplained(c: Config, trace: seq<Action>, r: RoundId, result: Color, user: UserId, error: SettlementError)
    requires ConfigOk(c) && SettlementAllows(Run(c, EMPTY, trace), r, result)
    requires var s := Run(c, EMPTY, trace);
             && Sum(PendingWins(r, result, user), s.bets) != 0
             && Refuses(s.bank, r, user, Sum(Due(r, result, user), s.bets), error)
    ensures Explained(c, Run(c, EMPTY, trace), r, result, error)
  {
    ReachableIsOk(c, trace);
    if SafeCaps(c) {
      var s := Run(c, EMPTY, trace);
      PendingWinnerHasWallet(s.bank, s.bets, r, result, user);
      PayoutGuardIsUnreachable(c, s, r, result, user);
      CreditPostsIff(s.bank, r, user, Sum(Due(r, result, user), s.bets));
    }
  }

  // No listed payout is too large when the user cap is safe.
  ghost predicate Payable(c: Config, winners: seq<WinnerPayout>) {
    SafeCaps(c) ==> forall i :: 0 <= i < |winners| ==> winners[i].total <= MAX_SAFE_INTEGER
  }

  lemma DuesArePayable(c: Config, trace: seq<Action>, r: RoundId, result: Color, winners: seq<WinnerPayout>)
    requires ConfigOk(c)
    requires forall i :: 0 <= i < |winners| ==> winners[i].total == Sum(Due(r, result, winners[i].user), Run(c, EMPTY, trace).bets)
    ensures Payable(c, winners)
  {
    ReachableIsOk(c, trace);
    if SafeCaps(c) {
      forall i | 0 <= i < |winners| ensures winners[i].total <= MAX_SAFE_INTEGER {
        PayoutGuardIsUnreachable(c, Run(c, EMPTY, trace), r, result, winners[i].user);
      }
    }
  }

  // The steps of a stretch of trace all work on round r, touch no money, or open, close and reopen wallets.
  ghost predicate OnlyThisWork(earlier: seq<Action>, trace: seq<Action>, r: RoundId, result: Color) {
    forall i :: |earlier| <= i < |trace| ==> SettlementWork(trace[i], r, result)
  }

  // The one-pass outcome between two states.
  ghost predicate OnePass(s: State, s': State, r: RoundId, result: Color) {
    && s'.bets == Decide(s.bets, r, result)
    && forall u :: u in s.bank.wallets ==> PaidAsInOnePass(s, s', r, result, u)
  }

  lemma WorkIsOnePass(c: Config, earlier: seq<Action>, trace: seq<Action>, r: RoundId, result: Color)
    requires ConfigOk(c) && earlier <= trace && OnlyThisWork(earlier, trace, r, result)
    requires Sum(PendingIn(r), Run(c, EMPTY, trace).bets) == 0
    ensures OnePass(Run(c, EMPTY, earlier), Run(c, EMPTY, trace), r, result)
  {
    var since := trace[|earlier|..];
    assert trace == earlier + since;
    RunInTwo(c, EMPTY, earlier, since);
    ReachableIsOk(c, earlier);
    forall i | 0 <= i < |since| ensures SettlementWork(since[i], r, result) { assert since[i] == trace[|earlier| + i]; }
    CrashAndRetryEqualsOnePass(c, Run(c, EMPTY, earlier), Run(c, EMPTY, trace), r, result);
  }

  // What a settling call leaves behind, whatever others did while it ran.
  lemma SettledDespiteOthers(c: Config, earlier: seq<Action>, trace: seq<Action>, r: RoundId, result: Color)
    requires ConfigOk(c) && earlier <= trace && Closed(Run(c, EMPTY, earlier), r)
    requires SettlementAllows(Run(c, EMPTY, trace), r, result) && Sum(PendingIn(r), Run(c, EMPTY, trace).bets) == 0
    ensures SettledBetween(Run(c, EMPTY, earlier), Run(c, EMPTY, trace), r, result)
  {
    var since := trace[|earlier|..];
    assert trace == earlier + since;
    RunInTwo(c, EMPTY, earlier, since);
    ReachableIsOk(c, earlier);
    SettlementSurvivesInterference(c, Run(c, EMPTY, earlier), since, r, result);
  }

  lemma SettlersWorkOnClosedRounds(c: Config, trace: seq<Action>, pid: ProcessId)
    requires ConfigOk(c) && ProcessOf(Run(c, EMPTY, trace), pid).Settling?
    ensures Closed(Run(c, EMPTY, trace), ProcessOf(Run(c, EMPTY, trace), pid).round)
  {
    ReachableIsOk(c, trace);
    assert ProcessOk(c, Run(c, EMPTY, trace), ProcessOf(Run(c, EMPTY, trace), pid));
  }

  // The own steps of a settling call: the row, the count, the record, or the end of the call. What it does
  // to bets and wallets any call may do.
  ghost predicate OnlySettles(earlier: seq<Action>, trace: seq<Action>, pid: ProcessId) {
    forall i :: |earlier| <= i < |trace| && Belongs(trace[i], pid) ==>
      trace[i].BeginSettlement? || trace[i].CountBets? || trace[i].CompleteSettlement? || trace[i].Crash?
  }

  // A credited user is owed nothing any more, and nobody else's winnings change.
  lemma CreditedUserLeaves(bets: seq<Bet>, r: RoundId, result: Color, user: UserId)
    requires Positive(bets) && Sum(PendingWins(r, result, user), bets) != 0
    ensures user in PendingWinners(bets, r, result)
    ensures PendingWinners(MarkWinner(bets, r, result, user), r, result) == PendingWinners(bets, r, result) - {user}
  {
    PositiveWinsMeanPending(bets, r, result, user);
    var bets' := MarkWinner(bets, r, result, user);
    forall u ensures u in PendingWinners(bets', r, result) <==> u in PendingWinners(bets, r, result) && u != user {
      if u != user { OthersStayOwed(bets, r, result, user, u); }
    }
  }

  lemma OthersStayOwed(bets: seq<Bet>, r: RoundId, result: Color, user: UserId, other: UserId)
    requires other != user
    ensures other in PendingWinners(MarkWinner(bets, r, result, user), r, result) <==> other in PendingWinners(bets, r, result)
  {
    var bets' := MarkWinner(bets, r, result, user);
    if i :| 0 <= i < |bets| && PendingWinner(bets[i], r, result, other) { assert PendingWinner(bets'[i], r, result, other); }
    if i :| 0 <= i < |bets'| && PendingWinner(bets'[i], r, result, other) { assert PendingWinner(bets[i], r, result, other); }
  }

  lemma LosersAreNoWinners(bets: seq<Bet>, r: RoundId, result: Color)
    ensures PendingWinners(MarkLosers(bets, r, result), r, result) == PendingWinners(bets, r, result)
  {
    var bets' := MarkLosers(bets, r, result);
    forall u ensures u in PendingWinners(bets', r, result) <==> u in PendingWinners(bets, r, result) {
      if i :| 0 <= i < |bets| && PendingWinner(bets[i], r, result, u) { assert PendingWinner(bets'[i], r, result, u); }
      if i :| 0 <= i < |bets'| && PendingWinner(bets'[i], r, result, u) { assert PendingWinner(bets[i], r, result, u); }
    }
  }

  // What one winner's transaction does to the number of winners left, and to the number of pending wins.
  lemma AfterWinnerTx(c: Config, earlier: seq<Action>, trace: seq<Action>, r: RoundId, result: Color, user: UserId, credited: bool)
    requires ConfigOk(c) && earlier <= trace && SettlementAllows(Run(c, EMPTY, earlier), r, result)
    requires var before, after := Run(c, EMPTY, earlier).bets, Run(c, EMPTY, trace).bets;
             if credited then Sum(PendingWins(r, result, user), before) != 0 && after == MarkWinner(before, r, result, user)
             else after == before
    ensures var before, after := Run(c, EMPTY, earlier).bets, Run(c, EMPTY, trace).bets;
            && (credited ==> Sum(PendingWins(r, result, user), after) == 0)
            && (if credited then 1 else 0) + |PendingWinners(after, r, result)| == |PendingWinners(before, r, result)|
    ensures 0 <= Left(c, trace, r, result) && Left(c, trace, r, result) + (if credited then 1 else 0) <= Left(c, earlier, r, result)
  {
    var s := Run(c, EMPTY, earlier);
    NeverMoreLeft(c, earlier, trace, r, result);
    if credited {
      CreditSettles(c, earlier, trace, r, result, user);
      ReachableIsOk(c, earlier);
      BetsArePositive(s.bank, s.bets);
      CreditedUserLeaves(s.bets, r, result, user);
    }
  }

  lemma NothingPendingMeansNoWinner(c: Config, trace: seq<Action>, r: RoundId, result: Color)
    requires ConfigOk(c) && Sum(PendingIn(r), Run(c, EMPTY, trace).bets) == 0
    ensures PendingWinners(Run(c, EMPTY, trace).bets, r, result) == {}
  {
    var s := Run(c, EMPTY, trace);
    ReachableIsOk(c, trace);
    BetsArePositive(s.bank, s.bets);
    ZeroSumMeansNone(PendingIn(r), s.bets);
    forall i | 0 <= i < |s.bets| ensures !PendingWinner(s.bets[i], r, result, s.bets[i].user) {
      assert Weight(PendingIn(r), s.bets[i]) == 0;
    }
    WinnerIsListed(s.bets, r, result);
  }

  class Service {
    const store: Store

    constructor (s: Store)
      ensures store == s
    {
      store := s;
    }

    // The call pid works on the settlement row of round r, which carries this result.
    ghost predicate At(pid: ProcessId, p: Process, r: RoundId, result: Color)
      reads store, store.book
    {
      store.Valid() && ProcessOf(store.View(), pid) == p && SettlementAllows(store.View(), r, result)
    }

    ghost function Remaining(r: RoundId, result: Color): int
      reads store
    {
      Left(store.config, store.trace, r, result)
    }

    // The users who are still owed their winnings.
    ghost function Owing(r: RoundId, result: Color): nat
      reads store
    {
      |PendingWinners(store.bets, r, result)|
    }

    // What has gone on since an earlier moment: more steps, and of the call's own only settling ones.
    ghost predicate Since(earlier: seq<Action>, foreign: nat, pid: ProcessId)
      reads store
    {
      earlier <= store.trace && foreign <= store.foreign && OnlySettles(earlier, store.trace, pid)
    }

    method Pause(pid: ProcessId, ghost p: Process, r: RoundId, result: Color)
      requires At(pid, p, r, result)
      modifies store, store.book
      ensures At(pid, p, r, result) && Since(old(store.trace), old(store.foreign), pid)
      ensures store.foreign == old(store.foreign) ==> store.View() == old(store.View())
      ensures 0 <= Remaining(r, result) <= old(Remaining(r, result))
    {
      store.Interleave(pid);
      NeverMoreLeft(store.config, old(store.trace), store.trace, r, result);
    }

    method SettleWinnerUser(pid: ProcessId, ghost p: Process, r: RoundId, result: Color, winner: WinnerPayout)
      returns (credited: bool, error: Option<SettlementError>)
      requires At(pid, p, r, result) && Payable(store.config, [winner])
      modifies store, store.book
      ensures At(pid, p, r, result) && Since(old(store.trace), old(store.foreign), pid)
      ensures error.None? ==> Sum(PendingWins(r, result, winner.user), store.bets) == 0
      ensures 0 <= Remaining(r, result) && Remaining(r, result) + (if credited then 1 else 0) <= old(Remaining(r, result))
      ensures store.foreign == old(store.foreign) ==> (if credited then 1 else 0) + Owing(r, result) == old(Owing(r, result))
      ensures error.Some? ==> Explained(store.config, store.View(), r, result, error.value)
    {
      Pause(pid, p, r, result);
      if winner.total > MAX_SAFE_INTEGER {
        assert [winner][0] == winner;
        return false, Some(PayoutTooLarge);
      }
      credited, error := PayWinner(pid, p, r, result, winner.user);
    }

    method PayWinner(pid: ProcessId, ghost p: Process, r: RoundId, result: Color, user: UserId)
      returns (credited: bool, error: Option<SettlementError>)
      requires At(pid, p, r, result)
      modifies store, store.book
      ensures At(pid, p, r, result) && Since(old(store.trace), old(store.foreign), pid)
      ensures error.None? ==> Sum(PendingWins(r, result, user), store.bets) == 0
      ensures 0 <= Remaining(r, result) && Remaining(r, result) + (if credited then 1 else 0) <= old(Remaining(r, result))
      ensures (if credited then 1 else 0) + Owing(r, result) == old(Owing(r, result))
      ensures error.Some? ==> Explained(store.config, store.View(), r, result, error.value)
    {
      credited, error := store.SettleWinnerTx(r, result, user);
      if error.Some? { RefusalIsExplained(store.config, old(store.trace), r, result, user, error.value); }
      AfterWinnerTx(store.config, old(store.trace), store.trace, r, result, user, credited);
    }

    // settleWinningUsers. The loop ends because every batch that is not empty leaves fewer pending
    // winners behind, whoever settled them.
    method SettleWinningUsers(pid: ProcessId, ghost p: Process, r: RoundId, result: Color)
      returns (creditedUsers: nat, error: Option<SettlementError>)
      requires At(pid, p, r, result)
      modifies store, store.book
      ensures At(pid, p, r, result) && Since(old(store.trace), old(store.foreign), pid)
      ensures error.None? ==> Remaining(r, result) == 0
      ensures error.Some? ==> Explained(store.config, store.View(), r, result, error.value)
      ensures creditedUsers + Remaining(r, result) <= old(Remaining(r, result))
      ensures store.foreign == old(store.foreign) ==> creditedUsers + Owing(r, result) == old(Owing(r, result))
    {
      creditedUsers, error := 0, None;
      Pause(pid, p, r, result);
      while true
        invariant error.None?
        invariant At(pid, p, r, result) && Since(old(store.trace), old(store.foreign), pid)
        invariant 0 <= Remaining(r, result) && creditedUsers + Remaining(r, result) <= old(Remaining(r, result))
        invariant store.foreign == old(store.foreign) ==> creditedUsers + Owing(r, result) == old(Owing(r, result))
        decreases Remaining(r, result)
      {
        var winners := store.FindPendingWinners(r, result, WINNER_USER_BATCH_SIZE);
        NobodyLeftIn(store.config, store.trace, r, result);
        if winners == [] {
          assert forall u :: !Listed(winners, u);
          return;
        }
        DuesArePayable(store.config, store.trace, r, result, winners);
        var credited;
        credited, error := SettleBatches(pid, p, r, result, winners);
        creditedUsers := creditedUsers + credited;
        if error.Some? { return; }
      }
    }

    // The inner loop over slices of the batch.
    method SettleBatches(pid: ProcessId, ghost p: Process, r: RoundId, result: Color, winners: seq<WinnerPayout>)
      returns (creditedUsers: nat, error: Option<SettlementError>)
      requires At(pid, p, r, result) && winners != [] && winners[0].user in PendingWinners(store.bets, r, result)
      requires Payable(store.config, winners)
      modifies store, store.book
      ensures At(pid, p, r, result) && Since(old(store.trace), old(store.foreign), pid)
      ensures 0 <= Remaining(r, result) && creditedUsers + Remaining(r, result) <= old(Remaining(r, result))
      ensures store.foreign == old(store.foreign) ==> creditedUsers + Owing(r, result) == old(Owing(r, result))
      ensures error.None? ==> Remaining(r, result) < old(Remaining(r, result))
      ensures error.Some? ==> Explained(store.config, store.View(), r, result, error.value)
    {
      creditedUsers, error := 0, None;
      NeverMoreLeft(store.config, store.trace, store.trace, r, result);
      var index := 0;
      while index < |winners|
        invariant At(pid, p, r, result) && Since(old(store.trace), old(store.foreign), pid)
        invariant 0 <= Remaining(r, result) && creditedUsers + Remaining(r, result) <= old(Remaining(r, result))
        invariant store.foreign == old(store.foreign) ==> creditedUsers + Owing(r, result) == old(Owing(r, result))
        invariant index == 0 ==> store.trace == old(store.trace)
        invariant index > 0 ==> Remaining(r, result) < old(Remaining(r, result))
        invariant error.None?
        decreases |winners| - index
      {
        var end := if index + WINNER_SETTLEMENT_CONCURRENCY < |winners| then index + WINNER_SETTLEMENT_CONCURRENCY else |winners|;
        var credited;
        credited, error := SettleSlice(pid, p, r, result, winners[index..end]);
        if index == 0 && error.None? {
          UserSettled(store.config, old(store.trace), store.trace, r, result, winners[0].user);
        }
        creditedUsers := creditedUsers + credited;
        if error.Some? { return; }
        index := index + WINNER_SETTLEMENT_CONCURRENCY;
      }
    }

    // One slice. The source runs its transactions at the same time; here other calls, among them
    // transactions for the same users, may come between any two of them.
    method SettleSlice(pid: ProcessId, ghost p: Process, r: RoundId, result: Color, winners: seq<WinnerPayout>)
      returns (creditedUsers: nat, error: Option<SettlementError>)
      requires At(pid, p, r, result) && winners != [] && Payable(store.config, winners)
      modifies store, store.book
      ensures At(pid, p, r, result) && Since(old(store.trace), old(store.foreign), pid)
      ensures 0 <= Remaining(r, result) && creditedUsers + Remaining(r, result) <= old(Remaining(r, result))
      ensures store.foreign == old(store.foreign) ==> creditedUsers + Owing(r, result) == old(Owing(r, result))
      ensures error.None? ==> Sum(PendingWins(r, result, winners[0].user), store.bets) == 0
      ensures error.Some? ==> Explained(store.config, store.View(), r, result, error.value)
    {
      creditedUsers, error := 0, None;
      NeverMoreLeft(store.config, store.trace, store.trace, r, result);
      var i := 0;
      while i < |winners|
        invariant 0 <= i <= |winners|
        invariant At(pid, p, r, result) && Since(old(store.trace), old(store.foreign), pid)
        invariant 0 <= Remaining(r, result) && creditedUsers + Remaining(r, result) <= old(Remaining(r, result))
        invariant store.foreign == old(store.foreign) ==> creditedUsers + Owing(r, result) == old(Owing(r, result))
        invariant i > 0 ==> Sum(PendingWins(r, result, winners[0].user), store.bets) == 0
        invariant error.None?
      {
        ghost var start := store.trace;
        var credited;
        credited, error := SettleWinnerUser(pid, p, r, result, winners[i]);
        if i > 0 { StaysSettled(store.config, start, store.trace, r, result, winners[0].user); }
        if credited { creditedUsers := creditedUsers + 1; }
        if error.Some? { return; }
        i := i + 1;
      }
    }

    // settleRound. With a safe user cap it fails only on a winner whose wallet is inactive or whose settlement
    // key is taken. When it succeeds nothing of the round is pending, the recorded totals are those of the
    // bets, and whatever others did meanwhile, bets are decided and winning pots raised as in one pass; if
    // the others left money alone, the whole outcome is the one-pass outcome.
    method SettleRound(pid: ProcessId) returns (outcome: Outcome)
      requires store.Valid()
      requires ProcessOf(store.View(), pid).Settling? && ProcessOf(store.View(), pid).stage.Beginning?
      modifies store, store.book
      ensures store.Valid() && Since(old(store.trace), old(store.foreign), pid)
      ensures outcome.Settled? && store.foreign == old(store.foreign) ==>
                var p := old(ProcessOf(store.View(), pid));
                outcome.creditedUsers == |PendingWinners(old(store.bets), p.round, p.result)|
      ensures outcome.Failed? ==>
                var p := old(ProcessOf(store.View(), pid));
                ProcessOf(store.View(), pid) == Idle && Explained(store.config, store.View(), p.round, p.result, outcome.error)
      ensures outcome.Settled? ==>
                var p := old(ProcessOf(store.View(), pid));
                && ProcessOf(store.View(), pid) == p.(stage := Stage.Settled)
                && SettlementAllows(store.View(), p.round, p.result)
                && store.settlements[p.round].success
                && outcome.stats == store.settlements[p.round].stats && Totals(outcome.stats, store.bets, p.round)
                && Sum(PendingIn(p.round), store.bets) == 0
                && SettledBetween(old(store.View()), store.View(), p.round, p.result)
                && (OnlyThisWork(old(store.trace), store.trace, p.round, p.result) ==>
                      OnePass(old(store.View()), store.View(), p.round, p.result))
    {
      var p := store.processes[pid];
      BeginnersAgree(store.config, store.trace, pid);
      SettlersWorkOnClosedRounds(store.config, store.trace, pid);
      var row := store.BeginRoundSettlement(pid);
      if row.success {
        SettledIsFinal(store.config, store.trace, pid);
        NothingPendingMeansNoWinner(store.config, store.trace, p.round, p.result);
        store.Interleave(pid);
        SettledIsFinal(store.config, store.trace, pid);
        var stats := store.ReadStats(p.round);
        Conclude(old(store.trace), p.round, p.result);
        return Outcome.Settled(stats, 0);
      }
      outcome := SettleBets(pid, p);
      if outcome.Settled? {
        SettledIsFinal(store.config, store.trace, pid);
        Conclude(old(store.trace), p.round, p.result);
      }
    }

    lemma Conclude(earlier: seq<Action>, r: RoundId, result: Color)
      requires store.Valid() && earlier <= store.trace && Closed(Run(store.config, EMPTY, earlier), r)
      requires SettlementAllows(store.View(), r, result) && Sum(PendingIn(r), store.bets) == 0
      ensures Totals(StatsOf(store.bets, r), store.bets, r)
      ensures SettledBetween(Run(store.config, EMPTY, earlier), store.View(), r, result)
      ensures OnlyThisWork(earlier, store.trace, r, result) ==> OnePass(Run(store.config, EMPTY, earlier), store.View(), r, result)
    {
      StatsAreTotals(store.bets, r);
      SettledDespiteOthers(store.config, earlier, store.trace, r, result);
      if OnlyThisWork(earlier, store.trace, r, result) { WorkIsOnePass(store.config, earlier, store.trace, r, result); }
    }

    // Losers, winners, the count and the final record.
    method SettleBets(pid: ProcessId, p: Process) returns (outcome: Outcome)
      requires p.Settling? && At(pid, p.(stage := Working), p.round, p.result)
      modifies store, store.book
      ensures store.Valid() && Since(old(store.trace), old(store.foreign), pid)
      ensures outcome.Settled? && store.foreign == old(store.foreign) ==> outcome.creditedUsers == old(Owing(p.round, p.result))
      ensures outcome.Failed? ==> ProcessOf(store.View(), pid) == Idle &&
                                  Explained(store.config, store.View(), p.round, p.result, outcome.error)
      ensures outcome.Settled? ==>
                && ProcessOf(store.View(), pid) == p.(stage := Stage.Settled)
                && p.round in store.settlements && outcome.stats == store.settlements[p.round].stats
    {
      MarkLosers(pid, p.(stage := Working), p.round, p.result);
      ghost var losersDone := store.trace;
      var creditedUsers, error := SettleWinningUsers(pid, p.(stage := Working), p.round, p.result);
      NobodyLeftIn(store.config, store.trace, p.round, p.result);
      if error.Some? {
        store.Forget(pid);
        return Outcome.Failed(error.value);
      }
      outcome := RecordTotals(pid, p, losersDone, creditedUsers);
    }

    method MarkLosers(pid: ProcessId, ghost p: Process, r: RoundId, result: Color)
      requires At(pid, p, r, result)
      modifies store, store.book
      ensures At(pid, p, r, result) && Since(old(store.trace), old(store.foreign), pid)
      ensures NoLoserLeft(store.bets, r, result)
      ensures store.foreign == old(store.foreign) ==> Owing(r, result) == old(Owing(r, result))
    {
      Pause(pid, p, r, result);
      LosersAreNoWinners(store.bets, r, result);
      var losers := store.MarkLosingBets(r, result);
    }

    method RecordTotals(pid: ProcessId, p: Process, ghost losersDone: seq<Action>, creditedUsers: nat) returns (outcome: Outcome)
      requires p.Settling? && At(pid, p.(stage := Working), p.round, p.result) && losersDone <= store.trace
      requires SettlementAllows(Run(store.config, EMPTY, losersDone), p.round, p.result)
      requires NoLoserLeft(Run(store.config, EMPTY, losersDone).bets, p.round, p.result) && Remaining(p.round, p.result) == 0
      modifies store, store.book
      ensures store.Valid() && Since(old(store.trace), old(store.foreign), pid)
      ensures outcome.Settled? && outcome.creditedUsers == creditedUsers && ProcessOf(store.View(), pid) == p.(stage := Stage.Settled)
      ensures p.round in store.settlements && outcome.stats == store.settlements[p.round].stats
    {
      Pause(pid, p.(stage := Working), p.round, p.result);
      ghost var counting := store.trace;
      var stats := store.CountBets(pid);
      if stats.pending > 0 {
        // ROUND_SETTLEMENT_INCOMPLETE never happens.
        RoundIsDecided(store.config, losersDone, old(store.trace), counting, p.round, p.result);
        assert false;
      }
      CountIsNotNegative(store.config, counting, p.round);
      store.Interleave(pid);
      store.CompleteRoundSettlement(pid);
      return Outcome.Settled(stats, creditedUsers);
    }
  }

  lemma CountIsNotNegative(c: Config, trace: seq<Action>, r: RoundId)
    requires ConfigOk(c)
    ensures StatsOf(Run(c, EMPTY, trace).bets, r).pending >= 0
  {
    ReachableIsOk(c, trace);
    BetsArePositive(Run(c, EMPTY, trace).bank, Run(c, EMPTY, trace).bets);
    SumCoversBet(PendingIn(r), Run(c, EMPTY, trace).bets, 0);
  }
}
