// The whole coin game: one invariant, kept by every action, hence true after every run.
module GameSafety {
  import opened Types
  import opened Ledger
  import opened LedgerLaws
  import opened Bets
  import opened Game
  import opened GameMoney
  import opened GameRounds

  // Won and lost bets follow the recorded result of their round.
  ghost predicate Disposed(s: State, bet: Bet) {
    && bet.round < |s.rounds|
    && (bet.status == Won || bet.status == Lost ==> bet.round in s.settlements)
    && (bet.status == Won ==> bet.choice == s.settlements[bet.round].result)
    && (bet.status == Lost ==> bet.choice != s.settlements[bet.round].result)
  }

  // A user who was paid for a round has no pending winner left there.
  ghost predicate NoLateWinner(s: State, r: RoundId, u: UserId) {
    Sum(PaidTo(r, u), s.bets) > 0 ==>
      r in s.settlements && Sum(PendingWins(r, s.settlements[r].result, u), s.bets) == 0
  }

  ghost predicate SettledOk(s: State) {
    && (forall i :: 0 <= i < |s.bets| ==> Disposed(s, s.bets[i]))
    && (forall r: RoundId, u: UserId :: NoLateWinner(s, r, u))
  }

  ghost predicate CapsOk(c: Config, bets: seq<Bet>) {
    && (forall r: RoundId, u: UserId :: Sum(LiveOfUser(r, u), bets) <= c.userCap)
    && (forall r: RoundId, k: Color :: Sum(LiveOfColor(r, k), bets) <= c.colorCap)
  }

  ghost predicate ConfigOk(c: Config) {
    Injective(c.hash) && c.userCap > 0 && c.colorCap > 0
  }

  ghost predicate Inv(c: Config, s: State) {
    BooksOk(s.bank, s.bets) && ControlOk(c, s) && SettledOk(s) && CapsOk(c, s.bets)
  }

  // ---------------------------------------------------------------- changes of the bets table

  // Only pending bets change, they change once, and never in whose they are or what they bet.
  ghost predicate OnlyPendingChange(bets: seq<Bet>, bets': seq<Bet>) {
    && |bets'| == |bets|
    && forall i :: 0 <= i < |bets| ==>
         bets'[i] == bets[i] ||
         (bets[i].status == Pending && bets'[i].status != Pending &&
          bets'[i] == bets[i].(status := bets'[i].status, payout := bets'[i].payout))
  }

  lemma BulkUpdatesTouchPendingOnly(bets: seq<Bet>, r: RoundId, result: Color, user: UserId)
    ensures OnlyPendingChange(bets, MarkLosers(bets, r, result))
    ensures OnlyPendingChange(bets, MarkWinner(bets, r, result, user))
  {
  }

  lemma CancellingTouchesPendingOnly(bets: seq<Bet>, bets': seq<Bet>, order: seq<BetId>)
    requires CancelsExactly(bets, bets', order) && DistinctPending(bets, order)
    ensures OnlyPendingChange(bets, bets')
  {
    forall i | 0 <= i < |bets| && bets'[i] != bets[i]
      ensures bets[i].status == Pending && bets'[i] == CancelBet(bets[i])
    {
      assert i in order;
      var k :| 0 <= k < |order| && order[k] == i;
    }
  }

  predicate OfRound(m: Measure, r: RoundId) {
    m == AllIn(r) || m == WonIn(r) || m == LostIn(r) || m == PaidIn(r) || m == PendingIn(r)
  }

  lemma UntouchedRoundKeepsSum(bets: seq<Bet>, bets': seq<Bet>, r: RoundId, m: Measure)
    requires OfRound(m, r) && OnlyPendingChange(bets, bets')
    requires forall i :: 0 <= i < |bets| && bets[i].round == r ==> bets'[i] == bets[i]
    ensures Sum(m, bets') == Sum(m, bets)
  {
    SumSame(m, bets', bets);
  }

  lemma NothingPendingMeansFixed(bets: seq<Bet>, bets': seq<Bet>, r: RoundId)
    requires Positive(bets) && OnlyPendingChange(bets, bets') && Sum(PendingIn(r), bets) == 0
    ensures StatsOf(bets', r) == StatsOf(bets, r)
  {
    ZeroSumMeansNone(PendingIn(r), bets);
    forall i | 0 <= i < |bets| && bets[i].round == r ensures bets'[i] == bets[i] {
      assert Weight(PendingIn(r), bets[i]) == 0;
    }
    UntouchedRoundKeepsSum(bets, bets', r, AllIn(r));
    UntouchedRoundKeepsSum(bets, bets', r, WonIn(r));
    UntouchedRoundKeepsSum(bets, bets', r, LostIn(r));
    UntouchedRoundKeepsSum(bets, bets', r, PaidIn(r));
    UntouchedRoundKeepsSum(bets, bets', r, PendingIn(r));
  }

  lemma CapsSurvive(c: Config, bets: seq<Bet>, bets': seq<Bet>)
    requires CapsOk(c, bets) && OnlyPendingChange(bets, bets') && Positive(bets)
    ensures CapsOk(c, bets')
  {
    forall r: RoundId, u: UserId ensures Sum(LiveOfUser(r, u), bets') <= c.userCap {
      SumBelow(LiveOfUser(r, u), LiveOfUser(r, u), bets', bets, 1);
    }
    forall r: RoundId, k: Color ensures Sum(LiveOfColor(r, k), bets') <= c.colorCap {
      SumBelow(LiveOfColor(r, k), LiveOfColor(r, k), bets', bets, 1);
    }
  }

  lemma PendingWinsFall(bets: seq<Bet>, bets': seq<Bet>, r: RoundId, result: Color, u: UserId)
    requires OnlyPendingChange(bets, bets') && Positive(bets) && Positive(bets')
    ensures 0 <= Sum(PendingWins(r, result, u), bets') <= Sum(PendingWins(r, result, u), bets)
  {
    SumBelow(PendingWins(r, result, u), PendingWins(r, result, u), bets', bets, 1);
    SumCoversBet(PendingWins(r, result, u), bets', 0);
  }

  // Rounds, processes and settlement rows do not notice such a change.
  lemma ControlSurvives(c: Config, s: State, s': State)
    requires ControlOk(c, s) && RoundsOk(c, s'.rounds) && RoundsAdvance(s.rounds, s'.rounds)
    requires s'.processes == s.processes && s'.settlements == s.settlements
    requires forall r, stats :: r in s.settlements && Final(s, r, stats) ==> Final(s', r, stats)
    ensures ControlOk(c, s')
  {
    forall r | r in s.settlements && s.settlements[r].success ensures Final(s', r, s.settlements[r].stats) {
      assert SettlementOk(s, r);
    }
    if 0 in s.processes { CopiesStayOk(c, s, s', s.processes[0]); }
    ControlAfter(c, s, s', 0);
  }

  lemma BetsChangeKeepsControl(c: Config, s: State, s': State)
    requires ControlOk(c, s) && BooksOk(s.bank, s.bets) && OnlyPendingChange(s.bets, s'.bets)
    requires RoundsOk(c, s'.rounds) && RoundsAdvance(s.rounds, s'.rounds)
    requires s'.processes == s.processes && s'.settlements == s.settlements
    ensures ControlOk(c, s')
  {
    BetsArePositive(s.bank, s.bets);
    forall r, stats | r in s.settlements && Final(s, r, stats) ensures Final(s', r, stats) {
      NothingPendingMeansFixed(s.bets, s'.bets, r);
    }
    ControlSurvives(c, s, s');
  }

  // Steps that do not touch bets or wallets need only the control half.
  lemma SettledSurvivesControl(s: State, s': State)
    requires SettledOk(s) && s'.bets == s.bets && |s.rounds| <= |s'.rounds|
    requires forall r :: r in s.settlements ==> r in s'.settlements && s'.settlements[r].result == s.settlements[r].result
    ensures SettledOk(s')
  {
    forall i | 0 <= i < |s'.bets| ensures Disposed(s', s'.bets[i]) { assert Disposed(s, s.bets[i]); }
    forall r: RoundId, u: UserId ensures NoLateWinner(s', r, u) { assert NoLateWinner(s, r, u); }
  }

  // ---------------------------------------------------------------- settlement steps

  lemma LosersKeepInv(c: Config, s: State, r: RoundId, result: Color)
    requires Inv(c, s)
    ensures Inv(c, LosersStep(s, r, result))
  {
    if SettlementAllows(s, r, result) {
      var bets' := MarkLosers(s.bets, r, result);
      var s' := s.(bets := bets');
      LosersKeepBooks(s.bank, s.bets, r, result);
      BetsArePositive(s.bank, s.bets);
      BetsArePositive(s.bank, bets');
      BulkUpdatesTouchPendingOnly(s.bets, r, result, 0);
      BetsChangeKeepsControl(c, s, s');
      CapsSurvive(c, s.bets, bets');
      forall i | 0 <= i < |bets'| ensures Disposed(s', bets'[i]) { assert Disposed(s, s.bets[i]); }
      forall q: RoundId, u: UserId ensures NoLateWinner(s', q, u) {
        assert NoLateWinner(s, q, u);
        SumSame(PaidTo(q, u), bets', s.bets);
        if q in s.settlements { PendingWinsFall(s.bets, bets', q, s.settlements[q].result, u); }
      }
    }
  }

  // A user with pending winners has not been paid for the round yet.
  lemma UnpaidWhilePending(c: Config, s: State, r: RoundId, result: Color, user: UserId)
    requires Inv(c, s) && SettlementAllows(s, r, result)
    requires Sum(PendingWins(r, result, user), s.bets) != 0
    ensures Sum(PaidTo(r, user), s.bets) == 0
  {
    assert NoLateWinner(s, r, user);
    BetsArePositive(s.bank, s.bets);
    SumCoversBet(PaidTo(r, user), s.bets, 0);
  }

  lemma NoWinnerLeft(bets: seq<Bet>, r: RoundId, result: Color, user: UserId)
    requires Positive(bets)
    ensures Sum(PendingWins(r, result, user), MarkWinner(bets, r, result, user)) == 0
  {
    var bets' := MarkWinner(bets, r, result, user);
    ZeroSumMeansNone(PendingWins(r, result, user), bets');
    assert forall i :: 0 <= i < |bets'| ==> Weight(PendingWins(r, result, user), bets'[i]) == 0;
  }

  lemma WinnerKeepsSettled(c: Config, s: State, r: RoundId, result: Color, user: UserId, bank: Bank)
    requires Inv(c, s) && SettlementAllows(s, r, result)
    ensures SettledOk(s.(bank := bank, bets := MarkWinner(s.bets, r, result, user)))
  {
    var bets' := MarkWinner(s.bets, r, result, user);
    var s' := s.(bank := bank, bets := bets');
    BetsArePositive(s.bank, s.bets);
    BulkUpdatesTouchPendingOnly(s.bets, r, result, user);
    forall i | 0 <= i < |bets'| ensures Disposed(s', bets'[i]) { assert Disposed(s, s.bets[i]); }
    forall i | 0 <= i < |s.bets| ensures s.bets[i].status == Pending ==> s.bets[i].payout == 0 { assert BetOk(s.bank, s.bets[i]); }
    forall q: RoundId, u: UserId ensures NoLateWinner(s', q, u) {
      assert NoLateWinner(s, q, u);
      WinnerShiftsSums(s.bets, r, result, user, q, u);
      if q == r && u == user { NoWinnerLeft(s.bets, r, result, user); }
      if q in s.settlements { PendingWinsFall(s.bets, bets', q, s.settlements[q].result, u); }
    }
  }

  // In a reachable state the settlement of a user is never taken for a replay.
  lemma SettleUserMovesOrWaits(c: Config, s: State, r: RoundId, result: Color, user: UserId)
    requires Inv(c, s) && SettlementAllows(s, r, result)
    ensures var posted := Post(s.bank, CreditMovement(r, user, Sum(Due(r, result, user), s.bets)));
            SettleUser(s, r, result, user) ==
              if Sum(PendingWins(r, result, user), s.bets) != 0 && Sum(Due(r, result, user), s.bets) <= MAX_SAFE_INTEGER && posted.Moved?
              then s.(bank := posted.bank, bets := MarkWinner(s.bets, r, result, user))
              else s
  {
    if Sum(PendingWins(r, result, user), s.bets) != 0 {
      UnpaidWhilePending(c, s, r, result, user);
      PendingCreditIsNeverReplayed(s.bank, s.bets, r, user, Sum(Due(r, result, user), s.bets));
    }
  }

  lemma WinnerKeepsInv(c: Config, s: State, r: RoundId, result: Color, user: UserId)
    requires Inv(c, s)
    ensures Inv(c, WinnerStep(s, r, result, user))
  {
    if SettlementAllows(s, r, result) {
      var s' := SettleUser(s, r, result, user);
      SettleUserMovesOrWaits(c, s, r, result, user);
      if s' != s {
        UnpaidWhilePending(c, s, r, result, user);
        WinnerKeepsBooks(s.bank, s.bets, r, result, user);
        BetsArePositive(s.bank, s.bets);
        BulkUpdatesTouchPendingOnly(s.bets, r, result, user);
        BetsChangeKeepsControl(c, s, s');
        CapsSurvive(c, s.bets, s'.bets);
        WinnerKeepsSettled(c, s, r, result, user, s'.bank);
      }
    }
  }

  // ---------------------------------------------------------------- cancelling rounds

  lemma CancelKeepsSettled(s: State, s': State)
    requires SettledOk(s) && OnlyPendingChange(s.bets, s'.bets) && Positive(s.bets) && Positive(s'.bets)
    requires forall i :: 0 <= i < |s.bets| && s'.bets[i] != s.bets[i] ==> s'.bets[i].status == Cancelled
    requires s'.settlements == s.settlements && |s.rounds| <= |s'.rounds|
    ensures SettledOk(s')
  {
    forall i | 0 <= i < |s'.bets| ensures Disposed(s', s'.bets[i]) { assert Disposed(s, s.bets[i]); }
    forall q: RoundId, u: UserId ensures NoLateWinner(s', q, u) {
      assert NoLateWinner(s, q, u);
      SumSame(PaidTo(q, u), s'.bets, s.bets);
      if q in s.settlements { PendingWinsFall(s.bets, s'.bets, q, s.settlements[q].result, u); }
    }
  }

  lemma ListedBetsArePending(s: State, rounds: set<RoundId>, order: seq<BetId>)
    requires ListsPending(s, rounds, order)
    ensures DistinctPending(s.bets, order)
  {
    forall i | 0 <= i < |order| ensures order[i] < |s.bets| && s.bets[order[i]].status == Pending {
      assert order[i] in order;
    }
  }

  lemma RefundsKeepInv(c: Config, s: State, rounds: set<RoundId>, order: seq<BetId>, recovery: bool, rounds': seq<Round>)
    requires Inv(c, s) && ListsPending(s, rounds, order)
    requires RefundEach(Books(s.bank, s.bets), order, recovery).Some?
    requires RoundsOk(c, rounds') && RoundsAdvance(s.rounds, rounds')
    ensures var b := RefundEach(Books(s.bank, s.bets), order, recovery).value;
            Inv(c, s.(rounds := rounds', bank := b.bank, bets := b.bets))
  {
    var b := RefundEach(Books(s.bank, s.bets), order, recovery).value;
    var s' := s.(rounds := rounds', bank := b.bank, bets := b.bets);
    ListedBetsArePending(s, rounds, order);
    RefundingEachKeepsBooks(Books(s.bank, s.bets), order, recovery);
    CancellingTouchesPendingOnly(s.bets, b.bets, order);
    BetsArePositive(s.bank, s.bets);
    BetsArePositive(b.bank, b.bets);
    BetsChangeKeepsControl(c, s, s');
    CancelKeepsSettled(s, s');
    CapsSurvive(c, s.bets, b.bets);
  }

  lemma CancelKeepsRounds(c: Config, rounds: seq<Round>, r: RoundId, result: Option<Color>)
    requires RoundsOk(c, rounds) && r < |rounds| && Active(rounds[r].status)
    requires result == None || result == rounds[r].result
    ensures RoundsOk(c, rounds[r := rounds[r].(status := CancelledRound, result := result)])
    ensures RoundsAdvance(rounds, rounds[r := rounds[r].(status := CancelledRound, result := result)])
  {
    assert RoundOk(c, rounds, r);
    UpdateKeepsRounds(c, rounds, r, rounds[r].(status := CancelledRound, result := result));
  }

  lemma RestartKeepsRounds(c: Config, rounds: seq<Round>, seed: Seed)
    requires RoundsOk(c, rounds)
    ensures var rounds' := CancelActive(rounds) + [NewRound(c, LatestNumber(rounds) + 1, Open, seed)];
            RoundsOk(c, rounds') && RoundsAdvance(rounds, rounds')
  {
    var cancelled := CancelActive(rounds);
    forall i: RoundId | i < |cancelled|
      ensures RoundOk(c, cancelled, i) && rounds[i].number == i + 1 && Advances(rounds[i], cancelled[i])
    {
      assert RoundOk(c, rounds, i);
    }
    LatestIsCount(rounds);
    AppendKeepsRounds(c, cancelled, Open, seed);
  }

  lemma CancelTxKeepsInv(c: Config, s: State, targets: set<RoundId>, order: seq<BetId>, recovery: bool, rounds: seq<Round>)
    requires Inv(c, s) && RoundsOk(c, rounds) && RoundsAdvance(s.rounds, rounds)
    ensures Inv(c, CancelTx(s, targets, order, recovery, rounds))
  {
    if ListsPending(s, targets, order) && RefundEach(Books(s.bank, s.bets), order, recovery).Some? {
      RefundsKeepInv(c, s, targets, order, recovery, rounds);
    }
  }

  lemma RecoverKeepsInv(c: Config, s: State, pid: ProcessId, r: RoundId, order: seq<BetId>)
    requires Inv(c, s)
    ensures Inv(c, RecoverTx(s, pid, r, order))
  {
    ProcessKeepsInv(c, s, pid, Numbering);
    ProcessKeepsInv(c, s, pid, Idle);
    if r < |s.rounds| && Active(s.rounds[r].status) {
      var rounds := s.rounds[r := s.rounds[r].(status := CancelledRound, result := None)];
      CancelKeepsRounds(c, s.rounds, r, None);
      CancelTxKeepsInv(c, s, {r}, order, true, rounds);
      ProcessKeepsInv(c, CancelTx(s, {r}, order, true, rounds), pid, Numbering);
    }
  }

  lemma ForceStartKeepsInv(c: Config, s: State, seed: Seed, order: seq<BetId>)
    requires Inv(c, s)
    ensures Inv(c, ForceStartTx(c, s, seed, order))
  {
    var rounds := CancelActive(s.rounds) + [NewRound(c, LatestNumber(s.rounds) + 1, Open, seed)];
    RestartKeepsRounds(c, s.rounds, seed);
    CancelTxKeepsInv(c, s, ActiveRounds(s.rounds), order, false, rounds);
  }

  lemma ForceStopKeepsInv(c: Config, s: State, order: seq<BetId>)
    requires Inv(c, s)
    ensures Inv(c, ForceStopTx(s, order))
  {
    var found := FindActive(s.rounds);
    if found.Some? {
      var r := found.value;
      CancelKeepsRounds(c, s.rounds, r, s.rounds[r].result);
      CancelTxKeepsInv(c, s, {r}, order, false, s.rounds[r := s.rounds[r].(status := CancelledRound)]);
    }
  }

  // ---------------------------------------------------------------- bets and wallets

  lemma NewBetKeepsStats(bets: seq<Bet>, bet: Bet, r: RoundId)
    requires bet.round != r
    ensures StatsOf(bets + [bet], r) == StatsOf(bets, r)
  {
    SumAppend(AllIn(r), bets, bet);
    SumAppend(WonIn(r), bets, bet);
    SumAppend(LostIn(r), bets, bet);
    SumAppend(PaidIn(r), bets, bet);
    SumAppend(PendingIn(r), bets, bet);
  }

  lemma NewBetKeepsCaps(c: Config, bets: seq<Bet>, bet: Bet)
    requires CapsOk(c, bets) && bet.status == Pending
    requires Sum(LiveOfUser(bet.round, bet.user), bets) + bet.stake <= c.userCap
    requires Sum(LiveOfColor(bet.round, bet.choice), bets) + bet.stake <= c.colorCap
    ensures CapsOk(c, bets + [bet])
  {
    forall r: RoundId, u: UserId ensures Sum(LiveOfUser(r, u), bets + [bet]) <= c.userCap { SumAppend(LiveOfUser(r, u), bets, bet); }
    forall r: RoundId, k: Color ensures Sum(LiveOfColor(r, k), bets + [bet]) <= c.colorCap { SumAppend(LiveOfColor(r, k), bets, bet); }
  }

  lemma NewBetKeepsSettled(s: State, s': State, bet: Bet)
    requires SettledOk(s) && s'.bets == s.bets + [bet] && s'.settlements == s.settlements && s'.rounds == s.rounds
    requires bet.round < |s.rounds| && bet.round !in s.settlements && bet.status == Pending
    ensures SettledOk(s')
  {
    forall i | 0 <= i < |s'.bets| ensures Disposed(s', s'.bets[i]) { if i < |s.bets| { assert Disposed(s, s.bets[i]); } }
    forall r: RoundId, u: UserId ensures NoLateWinner(s', r, u) {
      assert NoLateWinner(s, r, u);
      SumAppend(PaidTo(r, u), s.bets, bet);
      if r in s.settlements { SumAppend(PendingWins(r, s.settlements[r].result, u), s.bets, bet); }
    }
  }

  // What an accepted bet satisfied, and that its debit is new.
  lemma PlaceBetAddsOrNothing(c: Config, s: State, user: UserId, r: RoundId, choice: Color, stake: int, clientKey: string, beforeLock: bool)
    requires Inv(c, s)
    ensures var s' := PlaceBetTx(c, s, user, r, choice, stake, clientKey, beforeLock);
            var bet := Bet(user, r, choice, stake, clientKey, Pending, 0);
            var posted := Post(s.bank, DebitMovement(bet, |s.bets|));
            s' == s ||
            (s' == s.(bank := posted.bank, bets := s.bets + [bet]) && posted.Moved? && ValidAmount(stake) &&
             r < |s.rounds| && s.rounds[r].status == Open && beforeLock && !s.paused && !ClientKeyUsed(s.bets, clientKey) &&
             Sum(LiveOfUser(r, user), s.bets) + stake <= c.userCap && Sum(LiveOfColor(r, choice), s.bets) + stake <= c.colorCap)
  {
    NewDebitIsNeverReplayed(s.bank, s.bets, Bet(user, r, choice, stake, clientKey, Pending, 0));
  }

  lemma PlaceBetKeepsInv(c: Config, s: State, user: UserId, r: RoundId, choice: Color, stake: int, clientKey: string, beforeLock: bool)
    requires Inv(c, s)
    ensures Inv(c, PlaceBetTx(c, s, user, r, choice, stake, clientKey, beforeLock))
  {
    var s' := PlaceBetTx(c, s, user, r, choice, stake, clientKey, beforeLock);
    var bet := Bet(user, r, choice, stake, clientKey, Pending, 0);
    PlaceBetAddsOrNothing(c, s, user, r, choice, stake, clientKey, beforeLock);
    if s' != s {
      assert r in s.settlements ==> SettlementOk(s, r);
      BettingKeepsBooks(s.bank, s.bets, bet);
      forall q, stats | q in s.settlements && Final(s, q, stats) ensures Final(s', q, stats) { NewBetKeepsStats(s.bets, bet, q); }
      ControlSurvives(c, s, s');
      NewBetKeepsSettled(s, s', bet);
      NewBetKeepsCaps(c, s.bets, bet);
    }
  }

  // ---------------------------------------------------------------- all the rest

  lemma ProcessKeepsInv(c: Config, s: State, pid: ProcessId, p: Process)
    requires Inv(c, s) && ProcessOk(c, s, p)
    ensures Inv(c, Become(s, pid, p))
  {
    OnlyProcessMoves(c, s, pid, p);
    SettledSurvivesControl(s, Become(s, pid, p));
  }

  lemma AccountKeepsBooks(s: State, a: Action)
    requires BooksOk(s.bank, s.bets) && IsAccount(a)
    ensures var s' := AccountAction(s, a);
            && BooksOk(s'.bank, s'.bets)
            && s'.bets == s.bets && s'.rounds == s.rounds && s'.settlements == s.settlements && s'.processes == s.processes
  {
    match a {
      case Register(user) => if EnsureWallet(s.bank, user).Some? { OpeningKeepsBooks(s.bank, s.bets, user); }
      case SetWalletActive(user, active) =>
        if user in s.bank.wallets { ActivatingKeepsBooks(s.bank, s.bets, user, active); }
      case AdjustWallet(user, amount, direction, reference, key) =>
        var m := AdjustmentMovement(user, amount, direction, reference, key);
        if Post(s.bank, m).Moved? { AdjustingKeepsBooks(s.bank, s.bets, m); }
      case SetPaused(_) =>
    }
  }

  lemma AccountKeepsInv(c: Config, s: State, a: Action)
    requires Inv(c, s) && IsAccount(a)
    ensures Inv(c, AccountAction(s, a))
  {
    var s' := AccountAction(s, a);
    AccountKeepsBooks(s, a);
    ControlSurvives(c, s, s');
    SettledSurvivesControl(s, s');
  }

  lemma ControlActionKeepsInv(c: Config, s: State, a: Action)
    requires Inv(c, s) && Injective(c.hash) && IsControl(a)
    ensures Inv(c, ControlAction(c, s, a))
  {
    BetsArePositive(s.bank, s.bets);
    ControlActionIsGood(c, s, a);
    SettledSurvivesControl(s, ControlAction(c, s, a));
  }

  lemma StepKeepsInv(c: Config, s: State, a: Action)
    requires Inv(c, s) && ConfigOk(c)
    ensures Inv(c, Step(c, s, a))
  {
    if IsControl(a) {
      ControlActionKeepsInv(c, s, a);
    } else if IsAccount(a) {
      AccountKeepsInv(c, s, a);
    } else {
      match a
      case PlaceBet(user, r, choice, stake, clientKey, beforeLock) => PlaceBetKeepsInv(c, s, user, r, choice, stake, clientKey, beforeLock);
      case SettleLosers(r, result) => LosersKeepInv(c, s, r, result);
      case SettleWinner(r, result, user) => WinnerKeepsInv(c, s, r, result, user);
      case ForceStart(seed, order) => ForceStartKeepsInv(c, s, seed, order);
      case ForceStop(order) => ForceStopKeepsInv(c, s, order);
      case RecoverRound(pid, order) =>
        if ProcessOf(s, pid).Recovering? { RecoverKeepsInv(c, s, pid, ProcessOf(s, pid).round, order); }
    }
  }

  lemma EmptyIsOk(c: Config)
    requires ConfigOk(c)
    ensures Inv(c, EMPTY)
  {
    forall u: UserId ensures Agrees(EMPTY.bank, u) && Conserved(EMPTY.bank, [], u) {}
  }

  // Every state of every run from the empty database satisfies the invariant.
  lemma {:induction false} RunKeepsInv(c: Config, s: State, actions: seq<Action>)
    requires ConfigOk(c) && Inv(c, s)
    ensures Inv(c, Run(c, s, actions))
  {
    if |actions| > 0 {
      RunKeepsInv(c, s, actions[..|actions| - 1]);
      StepKeepsInv(c, Run(c, s, actions[..|actions| - 1]), actions[|actions| - 1]);
    }
  }

  lemma ReachableIsOk(c: Config, actions: seq<Action>)
    requires ConfigOk(c)
    ensures Inv(c, Run(c, EMPTY, actions))
  {
    EmptyIsOk(c);
    RunKeepsInv(c, EMPTY, actions);
  }

  // Some run from the empty database leads to s.
  ghost predicate Reachable(c: Config, s: State) {
    exists actions :: Run(c, EMPTY, actions) == s
  }

  lemma ReachableHoldsInv(c: Config, s: State)
    requires ConfigOk(c) && Reachable(c, s)
    ensures Inv(c, s)
  {
    var actions :| Run(c, EMPTY, actions) == s;
    ReachableIsOk(c, actions);
  }
}
