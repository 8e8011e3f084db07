// What the invariant means for every run of the coin game.
module GameTheorems {
  import opened Types
  import opened Ledger
  import opened LedgerLaws
  import opened Bets
  import opened Results
  import opened Game
  import opened GameMoney
  import opened GameRounds
  import opened GameSafety

  // ---------------------------------------------------------------- money

  // Every coin of a wallet is accounted for, and the ledger tells the same balance.
  lemma CoinsAreConserved(c: Config, s: State, u: UserId)
    requires ConfigOk(c) && Reachable(c, s)
    ensures u in s.bank.wallets ==>
              var w := s.bank.wallets[u];
              && w.Total() == 1000 + RowSum(AdjustedFor(u), s.bank.ledger)
                              - Sum(Staked(u), s.bets) + Sum(Returned(u), s.bets)
              && w.Total() == RowSum(NetOf(u), s.bank.ledger)
              && w.version + 1 == RowSum(SuccessesOf(u), s.bank.ledger)
              && w.deposit >= 0 && w.winning >= 0
  {
    ReachableHoldsInv(c, s);
    assert Agrees(s.bank, u) && Conserved(s.bank, s.bets, u);
  }

  // Each bet is debited once; it is refunded once when it was cancelled and never otherwise.
  lemma OneDispositionPerBet(c: Config, s: State, b: BetId)
    requires ConfigOk(c) && Reachable(c, s)
    ensures b < |s.bets| ==>
              && RowSum(DebitsFor(b), s.bank.ledger) == 1
              && RowSum(RefundsFor(b), s.bank.ledger) == (if s.bets[b].status == Cancelled then 1 else 0)
              && (s.bets[b].status == Won <==> s.bets[b].payout != 0)
              && (s.bets[b].status == Won ==> s.bets[b].payout == 2 * s.bets[b].stake)
  {
    ReachableHoldsInv(c, s);
    assert Receipted(s.bank, s.bets, b);
    if b < |s.bets| { assert BetOk(s.bank, s.bets[b]); }
  }

  // A user holds one settlement row for a round exactly when they won there; it pays their winnings.
  lemma OneCreditPerWinner(c: Config, s: State, r: RoundId, u: UserId)
    requires ConfigOk(c) && Reachable(c, s)
    ensures
            && RowSum(CreditedFor(r, u), s.bank.ledger) == Sum(PaidTo(r, u), s.bets)
            && RowSum(CreditsFor(r, u), s.bank.ledger) ==
               (if exists i :: 0 <= i < |s.bets| && s.bets[i].round == r && s.bets[i].user == u && s.bets[i].status == Won then 1 else 0)
  {
    ReachableHoldsInv(c, s);
    assert CreditedOnce(s.bank, s.bets, r, u);
    PaidMeansWon(s.bank, s.bets, r, u);
  }

  lemma PaidMeansWon(bank: Bank, bets: seq<Bet>, r: RoundId, u: UserId)
    requires BetsOk(bank, bets)
    ensures Sum(PaidTo(r, u), bets) > 0 <==>
              exists i :: 0 <= i < |bets| && bets[i].round == r && bets[i].user == u && bets[i].status == Won
  {
    BetsArePositive(bank, bets);
    ZeroSumMeansNone(PaidTo(r, u), bets);
    SumCoversBet(PaidTo(r, u), bets, 0);
    forall i | 0 <= i < |bets|
      ensures Weight(PaidTo(r, u), bets[i]) != 0 <==> bets[i].round == r && bets[i].user == u && bets[i].status == Won
    {
      assert BetOk(bank, bets[i]);
    }
  }

  // Calls that share a client key leave one bet and one debit row behind, however they interleave.
  lemma OneBetPerClientKey(c: Config, s: State)
    requires ConfigOk(c) && Reachable(c, s)
    ensures
            && (forall i, j :: 0 <= i < j < |s.bets| ==> s.bets[i].clientKey != s.bets[j].clientKey)
            && (forall i, j | 0 <= i < j < |s.bank.ledger| ::
                  IsStakeDebit(s.bank.ledger[i]) && IsStakeDebit(s.bank.ledger[j]) ==>
                    s.bank.ledger[i].key.StakeDebit? && s.bank.ledger[j].key.StakeDebit? &&
                    s.bank.ledger[i].key.clientKey != s.bank.ledger[j].key.clientKey)
  {
    ReachableHoldsInv(c, s);
    var ledger := s.bank.ledger;
    forall i, j | 0 <= i < j < |ledger| && IsStakeDebit(ledger[i]) && IsStakeDebit(ledger[j])
      ensures ledger[i].key.StakeDebit? && ledger[j].key.StakeDebit? && ledger[i].key.clientKey != ledger[j].key.clientKey
    {
      assert RowTrue(ledger[i], s.bets) && RowTrue(ledger[j], s.bets);
      assert ledger[i].key != ledger[j].key;
    }
  }

  // A fresh bet is accepted exactly under these conditions. A bettor without a wallet is given one with the
  // opening coins on the way; a key longer than 113 characters never fits.
  lemma BetIsAcceptedIff(c: Config, s: State, user: UserId, r: RoundId, choice: Color, stake: int, clientKey: string, beforeLock: bool)
    requires Inv(c, s) && ValidAmount(stake) && !ClientKeyUsed(s.bets, clientKey)
    ensures var s' := PlaceBetTx(c, s, user, r, choice, stake, clientKey, beforeLock);
            s' != s <==>
              && r < |s.rounds| && s.rounds[r].status == Open && beforeLock && !s.paused
              && Sum(LiveOfUser(r, user), s.bets) + stake <= c.userCap
              && Sum(LiveOfColor(r, choice), s.bets) + stake <= c.colorCap
              && (if user in s.bank.wallets then s.bank.wallets[user].active else FindRow(s.bank.ledger, InitialCoins(user)).None?)
              && stake <= Balance(s.bank, user)
              && |clientKey| <= 113
              && FindRow(s.bank.ledger, StakeDebit(|s.bets|, clientKey)).None?
  {
    var m := DebitMovement(Bet(user, r, choice, stake, clientKey, Pending, 0), |s.bets|);
    PlaceBetAddsOrNothing(c, s, user, r, choice, stake, clientKey, beforeLock);
    assert Agrees(s.bank, user);
    DebitPostsIff(s.bank, m);
  }

  // When a debit under an unused or foreign key goes through.
  lemma DebitPostsIff(bank: Bank, m: Movement)
    requires Agrees(bank, m.user) && ValidAmount(m.amount) && m.direction == Debit && m.key.StakeDebit?
    requires !Post(bank, m).Replayed?
    ensures Post(bank, m).Moved? <==>
              && (if m.user in bank.wallets then bank.wallets[m.user].active else FindRow(bank.ledger, InitialCoins(m.user)).None?)
              && m.amount <= Balance(bank, m.user)
              && KeyLength(m.key) <= KEY_COLUMN_LENGTH
              && FindRow(bank.ledger, m.key).None?
  {
    var ensured := EnsureWallet(bank, m.user);
    if FindRow(bank.ledger, m.key).None? && ensured.Some? {
      OpeningLeavesKeyFree(bank, m.user, m.key);
      DebitTakesDepositFirst(ensured.value.wallets[m.user], m);
    }
  }

  lemma OpeningLeavesKeyFree(bank: Bank, user: UserId, key: Key)
    requires EnsureWallet(bank, user).Some? && FindRow(bank.ledger, key).None? && key != InitialCoins(user)
    ensures FindRow(EnsureWallet(bank, user).value.ledger, key).None?
  {
  }

  // ---------------------------------------------------------------- caps

  lemma WonInRoundFollowsResult(c: Config, s: State, r: RoundId)
    requires Inv(c, s) && r in s.settlements
    ensures Sum(PaidIn(r), s.bets) <= WIN_PAYOUT_MULTIPLIER * Sum(LiveOfColor(r, s.settlements[r].result), s.bets)
  {
    forall i | 0 <= i < |s.bets|
      ensures Weight(PaidIn(r), s.bets[i]) <= WIN_PAYOUT_MULTIPLIER * Weight(LiveOfColor(r, s.settlements[r].result), s.bets[i])
    {
      assert Disposed(s, s.bets[i]) && BetOk(s.bank, s.bets[i]);
    }
    SumBelow(PaidIn(r), LiveOfColor(r, s.settlements[r].result), s.bets, s.bets, WIN_PAYOUT_MULTIPLIER);
  }

  // Stakes stay under their caps, so a round never pays more than twice the colour cap.
  lemma ExposureIsBounded(c: Config, s: State, r: RoundId, u: UserId, k: Color)
    requires ConfigOk(c) && Reachable(c, s)
    ensures
            && StakesOf(s.bets, LiveBetsOfUser(s.bets, r, u)) <= c.userCap
            && StakesOf(s.bets, LiveBetsOnColor(s.bets, r, k)) <= c.colorCap
            && PayoutsOf(s.bets, WithStatus(s.bets, r, Won)) <= 2 * c.colorCap
  {
    ReachableHoldsInv(c, s);
    MeasuresAreTotals(s.bets, r, u, k);
    if r in s.settlements {
      WonInRoundFollowsResult(c, s, r);
    } else {
      forall i | 0 <= i < |s.bets| ensures Weight(PaidIn(r), s.bets[i]) == 0 { assert Disposed(s, s.bets[i]); }
      BetsArePositive(s.bank, s.bets);
      ZeroSumMeansNone(PaidIn(r), s.bets);
    }
  }

  // The PAYOUT_TOO_LARGE and REFUND_TOO_LARGE guards never fire when twice the user cap is a safe integer.
  lemma PayoutGuardIsUnreachable(c: Config, s: State, r: RoundId, result: Color, u: UserId)
    requires Inv(c, s) && WIN_PAYOUT_MULTIPLIER * c.userCap <= MAX_SAFE_INTEGER
    ensures Sum(Due(r, result, u), s.bets) <= MAX_SAFE_INTEGER
    ensures forall b :: 0 <= b < |s.bets| ==> s.bets[b].stake <= MAX_SAFE_INTEGER
  {
    forall b | 0 <= b < |s.bets| ensures 0 < s.bets[b].stake <= MAX_SAFE_INTEGER { assert BetOk(s.bank, s.bets[b]); }
    SumBelow(Due(r, result, u), LiveOfUser(r, u), s.bets, s.bets, WIN_PAYOUT_MULTIPLIER);
  }

  // ---------------------------------------------------------------- rounds

  // At most one round is active, and it is the newest; round numbers are 1, 2, 3, ... without a gap.
  lemma OneActiveRoundAndNoGap(c: Config, s: State)
    requires ConfigOk(c) && Reachable(c, s)
    ensures
            && (forall i, j :: 0 <= i < j < |s.rounds| ==> !(Active(s.rounds[i].status) && Active(s.rounds[j].status)))
            && (forall i :: 0 <= i < |s.rounds| ==> s.rounds[i].number == i + 1)
  {
    ReachableHoldsInv(c, s);
    forall i: RoundId | i < |s.rounds| ensures s.rounds[i].number == i + 1 && (Active(s.rounds[i].status) ==> i == |s.rounds| - 1) {
      assert RoundOk(c, s.rounds, i);
    }
  }

  // One step never takes a status back, forgets a decision, a number or a seed, or drops a round.
  lemma StepAdvances(c: Config, s: State, a: Action)
    requires ControlOk(c, s) && Injective(c.hash) && Positive(s.bets)
    ensures RoundsAdvance(s.rounds, Step(c, s, a).rounds)
  {
    if IsControl(a) {
      ControlActionIsGood(c, s, a);
    } else if a.ForceStart? {
      RestartKeepsRounds(c, s.rounds, a.seed);
    } else if a.ForceStop? {
      StopAdvances(c, s, a.order);
    } else if a.RecoverRound? {
      RecoveryAdvances(c, s, a.pid, a.order);
    }
  }

  lemma StopAdvances(c: Config, s: State, order: seq<BetId>)
    requires ControlOk(c, s)
    ensures RoundsAdvance(s.rounds, ForceStopTx(s, order).rounds)
  {
    var r := FindActive(s.rounds);
    if r.Some? { CancelKeepsRounds(c, s.rounds, r.value, s.rounds[r.value].result); }
  }

  lemma RecoveryAdvances(c: Config, s: State, pid: ProcessId, order: seq<BetId>)
    requires ControlOk(c, s)
    ensures RoundsAdvance(s.rounds, RecoverStep(s, pid, order).rounds)
  {
    var p := ProcessOf(s, pid);
    if p.Recovering? && p.round < |s.rounds| && Active(s.rounds[p.round].status) { CancelKeepsRounds(c, s.rounds, p.round, None); }
  }

  lemma {:induction false} StatusNeverGoesBack(c: Config, s: State, actions: seq<Action>, r: RoundId)
    requires ConfigOk(c) && Inv(c, s) && r < |s.rounds|
    ensures var s' := Run(c, s, actions); r < |s'.rounds| && Advances(s.rounds[r], s'.rounds[r])
  {
    if |actions| > 0 {
      var earlier := actions[..|actions| - 1];
      StatusNeverGoesBack(c, s, earlier, r);
      RunKeepsInv(c, s, earlier);
      BetsArePositive(Run(c, s, earlier).bank, Run(c, s, earlier).bets);
      StepAdvances(c, Run(c, s, earlier), actions[|actions| - 1]);
    }
  }

  // A step either adds one bet to an open round or changes pending bets only.
  lemma StepOnBets(c: Config, s: State, a: Action)
    requires Inv(c, s) && ConfigOk(c)
    ensures var s' := Step(c, s, a); OnlyPendingChange(s.bets, s'.bets) || OneMoreBet(s, s')
  {
    if IsControl(a) {
      BetsArePositive(s.bank, s.bets);
      ControlActionIsGood(c, s, a);
    } else if IsAccount(a) {
      AccountKeepsBooks(s, a);
    } else {
      match a
      case PlaceBet(user, r, choice, stake, clientKey, beforeLock) =>
        PlaceBetAddsOrNothing(c, s, user, r, choice, stake, clientKey, beforeLock);
      case SettleLosers(r, result) => BulkUpdatesTouchPendingOnly(s.bets, r, result, 0);
      case SettleWinner(r, result, user) => BulkUpdatesTouchPendingOnly(s.bets, r, result, user);
      case ForceStart(seed, order) =>
        CancelTouchesPendingOnly(s, ActiveRounds(s.rounds), order, false,
                                 CancelActive(s.rounds) + [NewRound(c, LatestNumber(s.rounds) + 1, Open, seed)]);
      case ForceStop(order) =>
        var r := FindActive(s.rounds);
        if r.Some? { CancelTouchesPendingOnly(s, {r.value}, order, false, s.rounds[r.value := s.rounds[r.value].(status := CancelledRound)]); }
      case RecoverRound(pid, order) =>
        var p := ProcessOf(s, pid);
        if p.Recovering? && p.round < |s.rounds| {
          CancelTouchesPendingOnly(s, {p.round}, order, true,
                                   s.rounds[p.round := s.rounds[p.round].(status := CancelledRound, result := None)]);
        }
    }
  }

  ghost predicate OneMoreBet(s: State, s': State) {
    && |s'.bets| == |s.bets| + 1
    && s'.bets[..|s.bets|] == s.bets
    && s'.bets[|s.bets|].status == Pending
    && s'.bets[|s.bets|].round < |s.rounds|
    && s.rounds[s'.bets[|s.bets|].round].status == Open
  }

  lemma CancelTouchesPendingOnly(s: State, targets: set<RoundId>, order: seq<BetId>, recovery: bool, rounds: seq<Round>)
    requires BooksOk(s.bank, s.bets)
    ensures OnlyPendingChange(s.bets, CancelTx(s, targets, order, recovery, rounds).bets)
  {
    if ListsPending(s, targets, order) && RefundEach(Books(s.bank, s.bets), order, recovery).Some? {
      ListedBetsArePending(s, targets, order);
      RefundingEachKeepsBooks(Books(s.bank, s.bets), order, recovery);
      CancellingTouchesPendingOnly(s.bets, RefundEach(Books(s.bank, s.bets), order, recovery).value.bets, order);
    }
  }

  // Once a round has left OPEN it never gets another bet, whatever engines and administrators do next.
  lemma {:induction false} NoBetAfterOpen(c: Config, s: State, actions: seq<Action>, r: RoundId)
    requires ConfigOk(c) && Inv(c, s) && r < |s.rounds| && Rank(s.rounds[r].status) > Rank(Open)
    ensures Sum(AllIn(r), Run(c, s, actions).bets) == Sum(AllIn(r), s.bets)
  {
    if |actions| > 0 {
      var earlier := actions[..|actions| - 1];
      NoBetAfterOpen(c, s, earlier, r);
      RunKeepsInv(c, s, earlier);
      StatusNeverGoesBack(c, s, earlier, r);
      NoBetInStep(c, Run(c, s, earlier), actions[|actions| - 1], r);
    }
  }

  lemma NoBetInStep(c: Config, s: State, a: Action, r: RoundId)
    requires ConfigOk(c) && Inv(c, s) && r < |s.rounds| && Rank(s.rounds[r].status) > Rank(Open)
    ensures Sum(AllIn(r), Step(c, s, a).bets) == Sum(AllIn(r), s.bets)
  {
    StepOnBets(c, s, a);
    SameOrOneElsewhere(s, Step(c, s, a), r);
  }

  lemma SameOrOneElsewhere(s: State, s': State, r: RoundId)
    requires OnlyPendingChange(s.bets, s'.bets) || OneMoreBet(s, s')
    requires r < |s.rounds| && Rank(s.rounds[r].status) > Rank(Open)
    ensures Sum(AllIn(r), s'.bets) == Sum(AllIn(r), s.bets)
  {
    if OnlyPendingChange(s.bets, s'.bets) {
      SumSame(AllIn(r), s'.bets, s.bets);
    } else {
      assert s'.bets == s.bets + [s'.bets[|s.bets|]];
      SumAppend(AllIn(r), s.bets, s'.bets[|s.bets|]);
    }
  }

  // A bet that was won, lost or cancelled stays exactly as it is, for ever.
  lemma {:induction false} DecidedBetsAreFixed(c: Config, s: State, actions: seq<Action>, b: BetId)
    requires ConfigOk(c) && Inv(c, s) && b < |s.bets| && s.bets[b].status != Pending
    ensures b < |Run(c, s, actions).bets| && Run(c, s, actions).bets[b] == s.bets[b]
  {
    if |actions| > 0 {
      var earlier := actions[..|actions| - 1];
      DecidedBetsAreFixed(c, s, earlier, b);
      RunKeepsInv(c, s, earlier);
      var m := Run(c, s, earlier);
      StepOnBets(c, m, actions[|actions| - 1]);
      var s' := Step(c, m, actions[|actions| - 1]);
      if !OnlyPendingChange(m.bets, s'.bets) { assert s'.bets[..|m.bets|][b] == m.bets[b]; }
    }
  }

  // Commit and reveal: the seed is shown only by a completed round, it is the committed one, and unless
  // an administrator chose the result, the result is the colour of that seed.
  lemma RevealIsSecret(c: Config, rounds: seq<Round>, r: RoundId)
    requires r < |rounds| && RoundOk(c, rounds, r) && Injective(c.hash)
    ensures rounds[r].seedReveal.Some? ==> rounds[r].seedReveal.value == rounds[r].secret
  {
  }

  lemma CommitReveal(c: Config, s: State, r: RoundId)
    requires ConfigOk(c) && Reachable(c, s)
    ensures r < |s.rounds| ==>
              var round := s.rounds[r];
              && (round.seedReveal.Some? <==> round.status == Completed)
              && (round.status == Completed ==>
                    && c.hash(round.seedReveal.value) == round.hash
                    && round.seedReveal == Some(round.secret)
                    && round.result.Some?
                    && (!round.forced ==> Draws(round.hash, round.result.value)))
  {
    ReachableHoldsInv(c, s);
    if r < |s.rounds| {
      assert RoundOk(c, s.rounds, r);
      ResultIsDrawn(s.rounds[r].hash, ResultOf(s.rounds[r].hash));
      RevealIsSecret(c, s.rounds, r);
    }
  }

  // The mark that excuses a round is set only by a forced result on a round nobody had decided.
  lemma StepForces(c: Config, s: State, a: Action, r: RoundId)
    requires ControlOk(c, s) && r < |s.rounds|
    ensures var s' := Step(c, s, a);
            r < |s'.rounds| && s'.rounds[r].forced != s.rounds[r].forced ==>
              a.ForceResult? && s.rounds[r].decided.None? && s'.rounds[r].result == Some(a.result)
  {
    if IsControl(a) { ControlForces(c, s, a, r); }
  }

  lemma ControlForces(c: Config, s: State, a: Action, r: RoundId)
    requires ControlOk(c, s) && r < |s.rounds| && IsControl(a)
    ensures var s' := ControlAction(c, s, a);
            r < |s'.rounds| && s'.rounds[r].forced != s.rounds[r].forced ==>
              a.ForceResult? && s.rounds[r].decided.None? && s'.rounds[r].result == Some(a.result)
  {
    if a.ResolveRound? {
      ResolveForcesNothing(c, s, a.pid, a.read, r);
    } else if !a.ForceResult? && !a.CreateRound? && !a.OpenRound? && !a.LockRound? && !a.FinishRound? {
      assert ControlAction(c, s, a).rounds == s.rounds;
    }
  }

  lemma ResolveForcesNothing(c: Config, s: State, pid: ProcessId, read: Option<Seed>, r: RoundId)
    requires r < |s.rounds|
    ensures var s' := ResolveStep(c, s, pid, read); r < |s'.rounds| && s'.rounds[r].forced == s.rounds[r].forced
  {
  }

  lemma ControlStartsUnforced(c: Config, s: State, a: Action)
    requires IsControl(a)
    ensures forall r :: |s.rounds| <= r < |ControlAction(c, s, a).rounds| ==> !ControlAction(c, s, a).rounds[r].forced
  {
    if a.ResolveRound? {
      assert |ResolveStep(c, s, a.pid, a.read).rounds| == |s.rounds|;
    } else if !a.CreateRound? && !a.OpenRound? && !a.LockRound? && !a.ForceResult? && !a.FinishRound? {
      assert ControlAction(c, s, a).rounds == s.rounds;
    }
  }

  lemma RoundsStartUnforced(c: Config, s: State, a: Action)
    ensures forall r :: |s.rounds| <= r < |Step(c, s, a).rounds| ==> !Step(c, s, a).rounds[r].forced
  {
    if IsControl(a) { ControlStartsUnforced(c, s, a); }
  }

  // The k-th action of a run forces this result on round r, which nobody had decided by then.
  ghost predicate Forces(c: Config, actions: seq<Action>, k: nat, r: RoundId, result: Option<Color>)
    requires k < |actions|
  {
    var before := Run(c, EMPTY, actions[..k]);
    actions[k].ForceResult? && r < |before.rounds| && before.rounds[r].decided.None? && result == Some(actions[k].result)
  }

  // In every run a round is excused only because some action forced the result it was decided with.
  lemma {:induction false} OnlyForceResultForces(c: Config, actions: seq<Action>, r: RoundId)
    requires ConfigOk(c)
    ensures var s := Run(c, EMPTY, actions);
            r < |s.rounds| && s.rounds[r].forced ==>
              exists k :: 0 <= k < |actions| && Forces(c, actions, k, r, s.rounds[r].decided)
  {
    var n := |actions| - 1;
    var s := Run(c, EMPTY, actions);
    if n >= 0 && r < |s.rounds| && s.rounds[r].forced {
      var before := Run(c, EMPTY, actions[..n]);
      ReachableIsOk(c, actions[..n]);
      RoundsStartUnforced(c, before, actions[n]);
      StepForces(c, before, actions[n], r);
      BetsArePositive(before.bank, before.bets);
      StepAdvances(c, before, actions[n]);
      if before.rounds[r].forced {
        OnlyForceResultForces(c, actions[..n], r);
        var k :| 0 <= k < n && Forces(c, actions[..n], k, r, before.rounds[r].decided);
        assert actions[..n][..k] == actions[..k];
        assert Forces(c, actions, k, r, s.rounds[r].decided);
      } else {
        StepKeepsInv(c, before, actions[n]);
        assert RoundOk(c, s.rounds, r);
        assert Forces(c, actions, n, r, s.rounds[r].decided);
      }
    }
  }

  // In every run without a forced result, a completed round shows the seed it had committed to, and its
  // result is the colour of that seed.
  lemma ResultIsColourOfCommittedSeed(c: Config, actions: seq<Action>, r: RoundId)
    requires ConfigOk(c) && forall i :: 0 <= i < |actions| ==> !actions[i].ForceResult?
    ensures var s := Run(c, EMPTY, actions);
            r < |s.rounds| && s.rounds[r].status == Completed ==>
              var round := s.rounds[r];
              && round.seedReveal == Some(round.secret)
              && c.hash(round.secret) == round.hash
              && round.result.Some? && Draws(c.hash(round.secret), round.result.value)
  {
    CommitReveal(c, Run(c, EMPTY, actions), r);
    OnlyForceResultForces(c, actions, r);
  }

  lemma SeedsHashApart(hash: Seed -> Digest, x: Seed, y: Seed)
    requires Injective(hash) && x != y
    ensures hash(x) != hash(y)
  {
  }

  // A wrong or missing seed sends the engine to recovery; it does not come back to complete the round.
  lemma BadSeedLeadsToRecovery(c: Config, s: State, pid: ProcessId, read: Option<Seed>)
    requires ControlOk(c, s) && Injective(c.hash)
    requires ProcessOf(s, pid).Driving?
    requires var copy := ProcessOf(s, pid).copy; copy.status == Locked || copy.status == Resolving
    requires read != Some(s.rounds[ProcessOf(s, pid).copy.round].secret)
    ensures var s' := ResolveStep(c, s, pid, read);
            s'.rounds == s.rounds && ProcessOf(s', pid) == Recovering(ProcessOf(s, pid).copy.round)
  {
    var copy := ProcessOf(s, pid).copy;
    assert ProcessOk(c, s, ProcessOf(s, pid));
    assert RoundOk(c, s.rounds, copy.round);
    if read.Some? { SeedsHashApart(c.hash, read.value, s.rounds[copy.round].secret); }
  }

  // ---------------------------------------------------------------- settlement

  // Each figure counts the bets of the round its name says; the payout is the sum of what won bets pay.
  ghost predicate Totals(stats: Stats, bets: seq<Bet>, r: RoundId) {
    && stats.total == |InRound(bets, r)|
    && stats.winning == |WithStatus(bets, r, Won)|
    && stats.losing == |WithStatus(bets, r, Lost)|
    && stats.pending == |WithStatus(bets, r, Pending)|
    && stats.payout == PayoutsOf(bets, WithStatus(bets, r, Won))
  }

  lemma StatsAreTotals(bets: seq<Bet>, r: RoundId)
    ensures Totals(StatsOf(bets, r), bets, r)
  {
    CountsAreCardinalities(bets, r);
    MeasuresAreTotals(bets, r, 0, Red);
  }

  // A finished settlement left nothing pending: every bet of the round not refunded is won and paid twice
  // its stake if it chose the result, lost and paid nothing if it did not; the recorded totals are exact.
  lemma FinishedSettlementIsExact(c: Config, s: State, r: RoundId)
    requires ConfigOk(c) && Reachable(c, s)
    ensures r in s.settlements && s.settlements[r].success ==>
              && Totals(s.settlements[r].stats, s.bets, r) && s.settlements[r].stats.pending == 0
              && forall i :: 0 <= i < |s.bets| && s.bets[i].round == r ==> BetIsSettled(s.bets[i], s.settlements[r].result)
  {
    ReachableHoldsInv(c, s);
    StatsAreTotals(s.bets, r);
    if r in s.settlements && s.settlements[r].success { SuccessIsExact(c, s, r); }
  }

  predicate BetIsSettled(bet: Bet, result: Color) {
    && bet.status != Pending
    && (bet.status == Won ==> bet.choice == result && bet.payout == 2 * bet.stake)
    && (bet.status == Lost ==> bet.choice != result && bet.payout == 0)
  }

  lemma SuccessIsExact(c: Config, s: State, r: RoundId)
    requires Inv(c, s) && r in s.settlements && s.settlements[r].success
    ensures s.settlements[r].stats == StatsOf(s.bets, r) && s.settlements[r].stats.pending == 0
    ensures forall i :: 0 <= i < |s.bets| && s.bets[i].round == r ==> BetIsSettled(s.bets[i], s.settlements[r].result)
  {
    assert SettlementOk(s, r);
    BetsArePositive(s.bank, s.bets);
    ZeroSumMeansNone(PendingIn(r), s.bets);
    forall i | 0 <= i < |s.bets| && s.bets[i].round == r ensures BetIsSettled(s.bets[i], s.settlements[r].result) {
      assert Weight(PendingIn(r), s.bets[i]) == 0;
      assert Disposed(s, s.bets[i]) && BetOk(s.bank, s.bets[i]);
    }
  }

  // Engines agree on a result: what a process settles with is what is recorded, so the result conflict
  // of settleRound never stops one that got as far as settling.
  lemma SettlersAgree(c: Config, s: State, p: ProcessId, q: ProcessId)
    requires Inv(c, s) && ProcessOf(s, p).Settling? && ProcessOf(s, q).Settling?
    requires ProcessOf(s, p).round == ProcessOf(s, q).round
    ensures ProcessOf(s, p).result == ProcessOf(s, q).result
    ensures ProcessOf(s, p).round in s.settlements ==> s.settlements[ProcessOf(s, p).round].result == ProcessOf(s, p).result
  {
    assert ProcessOk(c, s, ProcessOf(s, p)) && ProcessOk(c, s, ProcessOf(s, q));
    if ProcessOf(s, p).round in s.settlements { assert SettlementOk(s, ProcessOf(s, p).round); }
  }

  // While the user is unpaid, a row under the settlement key is no settlement: only an administrator can have put it there.
  lemma KeyIsFreeOrForeign(bank: Bank, bets: seq<Bet>, r: RoundId, user: UserId)
    requires BooksOk(bank, bets) && Sum(PaidTo(r, user), bets) == 0
    ensures var row := FindRow(bank.ledger, Key.SettlementCredit(r, user)); row.Some? ==> !IsSettlement(row.value)
  {
    var row := FindRow(bank.ledger, Key.SettlementCredit(r, user));
    assert CreditedOnce(bank, bets, r, user);
    if row.Some? {
      var k :| 0 <= k < |bank.ledger| && bank.ledger[k] == row.value;
      assert RowTrue(bank.ledger[k], bets);
      CountCoversRow(CreditsFor(r, user), bank.ledger, row.value);
    }
  }

  lemma CreditPostsIff(bank: Bank, r: RoundId, user: UserId, amount: int)
    requires user in bank.wallets && ValidAmount(amount)
    requires !Post(bank, CreditMovement(r, user, amount)).Replayed?
    ensures Post(bank, CreditMovement(r, user, amount)).Moved? <==>
              bank.wallets[user].active && FindRow(bank.ledger, Key.SettlementCredit(r, user)).None?
  {
  }

  // A winner's transaction goes through exactly when their wallet is active and nobody wrote another
  // kind of row under the settlement key; such a row can only be an administrator's.
  lemma WinnerIsPaidIff(c: Config, s: State, r: RoundId, result: Color, user: UserId)
    requires Inv(c, s) && SettlementAllows(s, r, result)
    requires Sum(PendingWins(r, result, user), s.bets) != 0 && WIN_PAYOUT_MULTIPLIER * c.userCap <= MAX_SAFE_INTEGER
    ensures user in s.bank.wallets
    ensures Sum(PendingWins(r, result, user), SettleUser(s, r, result, user).bets) == 0 <==>
              s.bank.wallets[user].active && FindRow(s.bank.ledger, Key.SettlementCredit(r, user)).None?
    ensures FindRow(s.bank.ledger, Key.SettlementCredit(r, user)).Some? ==>
              !IsSettlement(FindRow(s.bank.ledger, Key.SettlementCredit(r, user)).value)
  {
    var due := Sum(Due(r, result, user), s.bets);
    PendingWinnerHasWallet(s.bank, s.bets, r, result, user);
    PayoutGuardIsUnreachable(c, s, r, result, user);
    UnpaidWhilePending(c, s, r, result, user);
    PendingCreditIsNeverReplayed(s.bank, s.bets, r, user, due);
    CreditPostsIff(s.bank, r, user, due);
    BetsArePositive(s.bank, s.bets);
    NoWinnerLeft(s.bets, r, result, user);
    KeyIsFreeOrForeign(s.bank, s.bets, r, user);
  }
}
