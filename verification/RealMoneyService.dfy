// The real-money services over their tables, written as the source has them.
module RealMoneyService {
  import opened Types
  import opened RealMoney
  import opened RealMoneyLaws
  import opened RealMoneySafety
  import opened RealMoneyExact

  datatype BetAnswer = Placed(bet: BetId) | AlreadyPlaced(bet: BetId) | BetRefused

  datatype WithdrawalAnswer = NewlyRequested(withdrawal: WithdrawalId) | AlreadyRequested(withdrawal: WithdrawalId) | WithdrawalRefused

  datatype DecisionAnswer = Decided(status: WithdrawalStatus) | Idempotent | NotFound | InvalidTransition

  datatype SettlementAnswer = SettledNow(totalBets: int, totalPayout: int) | AlreadySettled | SettlementFailed

  predicate SameBet(b: Bet, user: UserId, r: RoundId, choice: Color, stake: int) {
    b.user == user && b.round == r && b.choice == choice && b.stake == stake
  }

  // Steps only the settleRound call takes.
  predicate Belongs(a: Action, call: CallId) {
    match a
    case StartSettling(d, _, _) => d == call
    case SettleRound(d) => d == call
    case AbortSettling(d) => d == call
    case RecordFailure(d) => d == call
    case Forget(d) => d == call
    case _ => false
  }

  lemma OthersKeepCall(c: Config, s: State, a: Action, call: CallId)
    requires Inv(c, s) && ConfigOk(c) && !Belongs(a, call)
    ensures CallOf(Step(c, s, a), call) == CallOf(s, call)
  {
    match a
    case SettleRound(d) =>
      if CallOf(s, d).Some? && CallOf(s, d).value.Running? {
        SettlementSucceedsIff(c, s, CallOf(s, d).value.round, CallOf(s, d).value.result);
      }
    case RefundRound(r, order) => if ListsPending(s, r, order) { RefundingWorks(c, s, order); }
    case _ =>
  }

  class Store {
    const config: Config
    var wallets: map<UserId, Wallet>
    var ledger: seq<Row>
    var bets: seq<Bet>
    var withdrawals: seq<Withdrawal>
    var settlements: map<RoundId, Settlement>
    var audit: set<string>
    var open: set<RoundId>
    var closed: set<RoundId>
    var early: set<RoundId>
    // What each running settleRound call remembers, kept here so that interleavings can be spoken about.
    var calls: map<CallId, Call>
    // Every step taken since the tables were empty.
    ghost var trace: seq<Action>

    function View(): State
      reads this
    {
      State(wallets, ledger, bets, withdrawals, settlements, audit, open, closed, early, calls)
    }

    ghost predicate Valid()
      reads this
    {
      ConfigOk(config) && View() == Run(config, EMPTY, trace)
    }

    constructor (c: Config)
      requires ConfigOk(c)
      ensures Valid() && config == c && View() == EMPTY
    {
      config := c;
      wallets, ledger, bets, withdrawals, settlements := map[], [], [], [], map[];
      audit, open, closed, early, calls, trace := {}, {}, {}, {}, map[], [];
    }

    lemma IsReachable()
      requires Valid()
      ensures Inv(config, View())
    {
      RunKeepsInv(config, trace);
    }

    method Restore(s: State)
      modifies this
      ensures View() == s && trace == old(trace)
    {
      wallets, ledger, bets, withdrawals := s.wallets, s.ledger, s.bets, s.withdrawals;
      settlements, audit, open, closed := s.settlements, s.audit, s.open, s.closed;
      early, calls := s.early, s.calls;
    }

    ghost method Record(before: State, a: Action)
      requires ConfigOk(config) && before == Run(config, EMPTY, trace) && View() == Step(config, before, a)
      modifies this`trace
      ensures Valid() && trace == old(trace) + [a]
    {
      RunOneMore(config, EMPTY, trace, a);
      trace := trace + [a];
    }

    // What other calls do between two steps of this one, which is a settleRound call or none.
    method Interleave(me: Option<CallId>)
      requires Valid()
      modifies this
      ensures Valid() && old(trace) <= trace
      ensures me.Some? ==> CallOf(View(), me.value) == CallOf(old(View()), me.value)
      ensures |trace| == |old(trace)| ==> View() == old(View())
    {
      var actions: seq<Action> := *;
      var i := 0;
      while i < |actions|
        invariant 0 <= i <= |actions|
        invariant Valid() && old(trace) <= trace
        invariant me.Some? ==> CallOf(View(), me.value) == CallOf(old(View()), me.value)
        invariant |trace| == |old(trace)| ==> View() == old(View())
      {
        if me.None? || !Belongs(actions[i], me.value) {
          IsReachable();
          if me.Some? { OthersKeepCall(config, View(), actions[i], me.value); }
          ghost var before := View();
          Restore(Step(config, View(), actions[i]));
          Record(before, actions[i]);
        }
        i := i + 1;
      }
    }

    // ---------------------------------------------------------------- wallets

    // lockWallet creates the row if there is none; moveWallet writes a ledger row and both pots.
    method MoveWallet(m: Move) returns (error: Option<MoveError>)
      modifies this`wallets, this`ledger
      ensures error.None? <==> Apply(old(View()), m).Moved?
      ensures error.Some? ==> Apply(old(View()), m) == Stopped(error.value) && View() == old(View())
      ensures error.None? ==> View() == Apply(old(View()), m).state
    {
      var wallet := if m.user in wallets then wallets[m.user] else Wallet(0, 0, 0, false);
      var availableAfter := wallet.available + m.availableDelta;
      var lockedAfter := wallet.locked + m.lockedDelta;
      if availableAfter < 0 || lockedAfter < 0 { return Some(BalanceConflict); }
      if KeyTaken(ledger, m.key) { return Some(UniqueConflict); }
      ledger := ledger + [Row(m.user, m.kind, m.amount, wallet.available, availableAfter, wallet.locked, lockedAfter, m.key)];
      wallets := wallets[m.user := Wallet(availableAfter, lockedAfter, wallet.version + 1, wallet.frozen)];
      return None;
    }

    // ---------------------------------------------------------------- bets

    method FindBet(clientKey: string) returns (found: Option<BetId>)
      ensures found.None? <==> !BetKeyUsed(bets, clientKey)
      ensures found.Some? ==> found.value < |bets| && bets[found.value].clientKey == clientKey
    {
      found := None;
      for i := 0 to |bets|
        invariant found.None? <==> forall k :: 0 <= k < i ==> bets[k].clientKey != clientKey
        invariant found.Some? ==> found.value < |bets| && bets[found.value].clientKey == clientKey
      {
        if bets[i].clientKey == clientKey { found := Some(i); }
      }
    }

    method PendingStakes(r: RoundId, choice: Color) returns (onRound: int, onColor: int)
      ensures onRound == Sum(PendingIn(r), bets) && onColor == Sum(PendingOn(r, choice), bets)
    {
      onRound, onColor := 0, 0;
      for i := 0 to |bets|
        invariant onRound == Sum(PendingIn(r), bets[..i]) && onColor == Sum(PendingOn(r, choice), bets[..i])
      {
        assert bets[..i + 1][..i] == bets[..i];
        if bets[i].round == r && bets[i].status == Pending {
          onRound := onRound + bets[i].stake;
          if bets[i].choice == choice { onColor := onColor + bets[i].stake; }
        }
      }
      assert bets[..|bets|] == bets;
    }

    method PlaceBetTx(user: UserId, r: RoundId, choice: Color, stake: int, clientKey: string, beforeLock: bool) returns (placed: Option<BetId>)
      requires Valid() && 0 < stake <= config.betCap
      modifies this
      ensures Valid() && trace == old(trace) + [PlaceBet(user, r, choice, stake, clientKey, beforeLock)]
      ensures View() == RealMoney.PlaceBetTx(config, old(View()), user, r, choice, stake, clientKey, beforeLock)
      ensures if CanBet(config, old(View()), user, r, choice, stake, clientKey, beforeLock)
              then placed == Some(|old(bets)|) && BetHeld(old(View()), View(), user, r, choice, stake, clientKey)
              else placed == None && View() == old(View())
    {
      ghost var before := View();
      IsReachable();
      BetIsHeldIff(config, before, user, r, choice, stake, clientKey, beforeLock);
      placed := CreateBet(user, r, choice, stake, clientKey, beforeLock);
      Record(before, PlaceBet(user, r, choice, stake, clientKey, beforeLock));
    }

    method CreateBet(user: UserId, r: RoundId, choice: Color, stake: int, clientKey: string, beforeLock: bool) returns (placed: Option<BetId>)
      requires 0 < stake <= config.betCap
      modifies this
      ensures View() == RealMoney.PlaceBetTx(config, old(View()), user, r, choice, stake, clientKey, beforeLock) && trace == old(trace)
      ensures placed == if View() != old(View()) then Some(|old(bets)|) else None
    {
      placed := None;
      if r !in open || !beforeLock { return; }
      var onRound, onColor := PendingStakes(r, choice);
      if onRound + stake > config.roundCap || onColor + stake > config.colorCap { return; }
      var wallet := WalletOf(View(), user);
      if wallet.frozen || wallet.available < stake { return; }
      var existing := FindBet(clientKey);
      if existing.Some? { return; }
      var bet := Bet(user, r, choice, stake, clientKey, Pending, 0);
      var id := |bets|;
      var error := MoveWallet(LockMove(bet, id));
      if error.Some? { return; }
      bets := bets + [bet];
      return Some(id);
    }

    // placeBet: the key is looked up before the transaction, which the unique key guards once more. A used
    // key answers with its bet if that is the same one and is refused if it is not; a request that meets no
    // other step is placed exactly when it can be.
    method PlaceBetRequest(user: UserId, r: RoundId, choice: Color, stake: int, clientKey: string, beforeLock: bool) returns (answer: BetAnswer)
      requires Valid() && stake > 0
      modifies this
      ensures Valid() && old(trace) <= trace
      ensures stake > config.betCap ==> answer == BetRefused && View() == old(View())
      ensures !answer.BetRefused? ==> answer.bet < |bets| &&
                                      var bet := bets[answer.bet];
                                      bet.clientKey == clientKey && bet.user == user && bet.round == r && bet.choice == choice && bet.stake == stake
      ensures answer.Placed? ==> bets[answer.bet].status == Pending && !BetKeyUsed(old(bets), clientKey)
      ensures answer.AlreadyPlaced? ==> BetKeyUsed(old(bets), clientKey)
      ensures forall b: BetId :: stake <= config.betCap && b < |old(bets)| && old(bets)[b].clientKey == clientKey ==>
                && View() == old(View())
                && var bet := old(bets)[b];
                   answer == if bet.user == user && bet.round == r && bet.choice == choice && bet.stake == stake then AlreadyPlaced(b) else BetRefused
      ensures stake <= config.betCap && !BetKeyUsed(old(bets), clientKey) ==> |trace| > |old(trace)|
      ensures |trace| == |old(trace)| + 1 ==>
                if CanBet(config, old(View()), user, r, choice, stake, clientKey, beforeLock)
                then answer == Placed(|old(bets)|) && BetHeld(old(View()), View(), user, r, choice, stake, clientKey)
                else answer == BetRefused && View() == old(View())
    {
      if stake > config.betCap { return BetRefused; }
      var existing := FindBet(clientKey);
      if existing.Some? {
        IsReachable();
        return if SameBet(bets[existing.value], user, r, choice, stake) then AlreadyPlaced(existing.value) else BetRefused;
      }
      Interleave(None);
      var placed := PlaceBetTx(user, r, choice, stake, clientKey, beforeLock);
      return if placed.Some? then Placed(placed.value) else BetRefused;
    }

    // ---------------------------------------------------------------- withdrawals

    method FindWithdrawal(clientKey: string) returns (found: Option<WithdrawalId>)
      ensures found.None? <==> !WithdrawalKeyUsed(withdrawals, clientKey)
      ensures found.Some? ==> found.value < |withdrawals| && withdrawals[found.value].clientKey == clientKey
    {
      found := None;
      for i := 0 to |withdrawals|
        invariant found.None? <==> forall k :: 0 <= k < i ==> withdrawals[k].clientKey != clientKey
        invariant found.Some? ==> found.value < |withdrawals| && withdrawals[found.value].clientKey == clientKey
      {
        if withdrawals[i].clientKey == clientKey { found := Some(i); }
      }
    }

    method RequestTx(user: UserId, amount: int, clientKey: string) returns (requested: Option<WithdrawalId>)
      requires Valid() && 0 < config.minWithdrawal <= amount <= config.maxWithdrawal
      modifies this
      ensures Valid() && trace == old(trace) + [RequestWithdrawal(user, amount, clientKey)]
      ensures View() == RealMoney.RequestTx(config, old(View()), user, amount, clientKey)
      ensures if CanRequest(config, old(View()), user, amount, clientKey)
              then requested == Some(|old(withdrawals)|) && WithdrawalHeld(old(View()), View(), user, amount, clientKey)
              else requested == None && View() == old(View())
    {
      ghost var before := View();
      IsReachable();
      WithdrawalIsHeldIff(config, before, user, amount, clientKey);
      requested := CreateRequest(user, amount, clientKey);
      Record(before, RequestWithdrawal(user, amount, clientKey));
    }

    method CreateRequest(user: UserId, amount: int, clientKey: string) returns (requested: Option<WithdrawalId>)
      requires 0 < config.minWithdrawal <= amount <= config.maxWithdrawal
      modifies this
      ensures View() == RealMoney.RequestTx(config, old(View()), user, amount, clientKey) && trace == old(trace)
      ensures requested == if View() != old(View()) then Some(|old(withdrawals)|) else None
    {
      requested := None;
      var existing := FindWithdrawal(clientKey);
      if WalletOf(View(), user).available < amount || existing.Some? { return; }
      var w := Withdrawal(user, amount, clientKey, Requested);
      var id := |withdrawals|;
      var error := MoveWallet(HoldMove(w, id));
      if error.Some? { return; }
      withdrawals := withdrawals + [w];
      return Some(id);
    }

    // requestWithdrawal: an existing request under the key is returned as it is, whoever made it. A request
    // that meets no other step is taken exactly when it can be.
    method RequestWithdrawalCall(user: UserId, amount: int, clientKey: string) returns (answer: WithdrawalAnswer)
      requires Valid() && config.minWithdrawal > 0
      modifies this
      ensures Valid() && old(trace) <= trace
      ensures !(config.minWithdrawal <= amount <= config.maxWithdrawal) ==> answer == WithdrawalRefused && View() == old(View())
      ensures answer.NewlyRequested? ==> answer.withdrawal < |withdrawals| && withdrawals[answer.withdrawal] == Withdrawal(user, amount, clientKey, Requested)
      ensures forall w: WithdrawalId ::
                config.minWithdrawal <= amount <= config.maxWithdrawal && w < |old(withdrawals)| && old(withdrawals)[w].clientKey == clientKey ==>
                  answer == AlreadyRequested(w) && View() == old(View())
      ensures answer.AlreadyRequested? ==> answer.withdrawal < |old(withdrawals)| && old(withdrawals)[answer.withdrawal].clientKey == clientKey
      ensures config.minWithdrawal <= amount <= config.maxWithdrawal && !WithdrawalKeyUsed(old(withdrawals), clientKey) ==> |trace| > |old(trace)|
      ensures |trace| == |old(trace)| + 1 ==>
                if CanRequest(config, old(View()), user, amount, clientKey)
                then answer == NewlyRequested(|old(withdrawals)|) && WithdrawalHeld(old(View()), View(), user, amount, clientKey)
                else answer == WithdrawalRefused && View() == old(View())
    {
      if amount < config.minWithdrawal || amount > config.maxWithdrawal { return WithdrawalRefused; }
      var existing := FindWithdrawal(clientKey);
      if existing.Some? {
        IsReachable();
        return AlreadyRequested(existing.value);
      }
      Interleave(None);
      var requested := RequestTx(user, amount, clientKey);
      return if requested.Some? then NewlyRequested(requested.value) else WithdrawalRefused;
    }

    // decideWithdrawal. An approval needs a requested withdrawal, a payment an approved one, a rejection
    // either; what is allowed always goes through, for its movement is never refused.
    method DecideWithdrawal(id: WithdrawalId, decision: Decision, auditKey: string) returns (answer: DecisionAnswer)
      requires Valid()
      modifies this
      ensures Valid() && trace == old(trace) + [Decide(id, decision, auditKey)]
      ensures View() == DecideTx(old(View()), id, decision, auditKey)
      ensures answer.Idempotent? <==> auditKey in old(audit)
      ensures answer.NotFound? <==> auditKey !in old(audit) && id >= |old(withdrawals)|
      ensures answer.InvalidTransition? <==>
                auditKey !in old(audit) && id < |old(withdrawals)| &&
                var status := old(withdrawals)[id].status;
                (decision == Approve ==> status != Requested) && (decision == Reject ==> status != Requested && status != Approved) &&
                (decision == MarkPaid ==> status != Approved)
      ensures answer.Decided? ==> id < |old(withdrawals)| && DecisionDone(old(View()), View(), id, decision, auditKey) &&
                                  answer.status == (match decision case Approve => Approved case Reject => Rejected case MarkPaid => Paid)
      ensures !answer.Decided? ==> View() == old(View())
    {
      ghost var before := View();
      IsReachable();
      if auditKey !in audit && id < |withdrawals| { DecisionIsDoneIff(config, before, id, decision, auditKey); }
      answer := DecideNow(id, decision, auditKey);
      Record(before, Decide(id, decision, auditKey));
    }

    method DecideNow(id: WithdrawalId, decision: Decision, auditKey: string) returns (answer: DecisionAnswer)
      requires Inv(config, View())
      modifies this
      ensures View() == DecideTx(old(View()), id, decision, auditKey) && trace == old(trace)
      ensures answer.Idempotent? <==> auditKey in old(audit)
      ensures answer.NotFound? <==> auditKey !in old(audit) && id >= |old(withdrawals)|
      ensures answer.Decided? ==> withdrawals[id].status == answer.status
      ensures answer.Decided? <==> View() != old(View())
    {
      if auditKey in audit { return Idempotent; }
      if id >= |withdrawals| { return NotFound; }
      var w := withdrawals[id];
      match NextStatus(w.status, decision) {
        case Invalid => return InvalidTransition;
        case Goes(status) =>
          if decision == Reject {
            OpenWithdrawalEnds(config, View(), id, ReleaseMove(w, id), w.(status := Rejected));
            var _ := MoveWallet(ReleaseMove(w, id));
          } else if decision == MarkPaid {
            OpenWithdrawalEnds(config, View(), id, PayMove(w, id), w.(status := Paid));
            var _ := MoveWallet(PayMove(w, id));
          }
          withdrawals := withdrawals[id := w.(status := status)];
          audit := audit + {auditKey};
          return Decided(status);
      }
    }

    // ---------------------------------------------------------------- settlement

    // One turn of the settlement loop.
    method SettleBet(id: BetId, result: Color) returns (ok: bool, payout: int)
      requires id < |bets|
      modifies this`wallets, this`ledger, this`bets
      ensures ok <==> SettleOne(config, old(View()), id, result).Some?
      ensures ok ==> SettleOne(config, old(View()), id, result) == Some(View()) && bets == old(bets)[id := Settled(config, old(bets)[id], result)]
      ensures payout == if old(bets)[id].choice == result then old(bets)[id].stake * config.multiplier else 0
    {
      var bet := bets[id];
      var won := bet.choice == result;
      payout := if won then bet.stake * config.multiplier else 0;
      var error := MoveWallet(SettleMove(config, bet, id, result));
      if error.Some? { return false, payout; }
      bets := bets[id := bet.(status := if won then Won else Lost, payout := payout)];
      ok := true;
    }

    // The loop of settleRound, with its running total.
    method SettleBets(r: RoundId, result: Color) returns (ok: bool, totalBets: int, totalPayout: int)
      modifies this`wallets, this`ledger, this`bets
      ensures ok <==> SettleBelow(config, old(View()), r, result, |old(bets)|).Some?
      ensures ok ==> SettleBelow(config, old(View()), r, result, |old(bets)|) == Some(View())
      ensures ok ==> totalBets == Sum(CountPending(r), old(bets)) && totalPayout == PayoutOf(config, old(bets), r, result)
    {
      ghost var start := View();
      totalBets, totalPayout := 0, 0;
      var i := 0;
      while i < |bets|
        invariant 0 <= i <= |bets| == |start.bets|
        invariant SettleBelow(config, start, r, result, i) == Some(View())
        invariant forall k :: i <= k < |bets| ==> bets[k] == start.bets[k]
        invariant totalBets == Sum(CountPending(r), start.bets[..i])
        invariant totalPayout == config.multiplier * Sum(PendingOn(r, result), start.bets[..i])
      {
        OneMoreTotal(config, start.bets, r, result, i);
        if bets[i].round == r && bets[i].status == Pending {
          var payout := SettleNext(start, i, r, result);
          if payout.None? {
            SettlingStops(config, start, r, result, i + 1);
            ok := false;
            return;
          }
          totalBets := totalBets + 1;
          totalPayout := totalPayout + payout.value;
        }
        i := i + 1;
      }
      assert start.bets[..i] == start.bets;
      ok := true;
    }

    // The turn of a pending bet; None is the error that ends the loop.
    method SettleNext(ghost start: State, id: BetId, r: RoundId, result: Color) returns (payout: Option<int>)
      requires id < |bets| == |start.bets| && SettleBelow(config, start, r, result, id) == Some(View())
      requires start.bets[id].round == r && start.bets[id].status == Pending && bets[id] == start.bets[id]
      modifies this`wallets, this`ledger, this`bets
      ensures SettleBelow(config, start, r, result, id + 1) == if payout.None? then None else Some(View())
      ensures payout.Some? ==> |bets| == |old(bets)| && forall k :: id < k < |bets| ==> bets[k] == old(bets)[k]
      ensures payout.Some? ==> payout.value == if start.bets[id].choice == result then start.bets[id].stake * config.multiplier else 0
    {
      var ok, paid := SettleBet(id, result);
      payout := if ok then Some(paid) else None;
    }

    // settleRound, on any round. aborted says that the database aborts the transaction, lost that the failure
    // cannot be recorded. What is recorded goes over whatever another engine recorded in the meantime.
    method SettleRoundCall(call: CallId, r: RoundId, result: Color, aborted: bool, lost: bool) returns (answer: SettlementAnswer)
      requires Valid() && call !in calls
      modifies this
      ensures Valid() && old(trace) <= trace && call !in calls
      ensures answer.SettledNow? ==>
                SettledExactly(config, old(bets), bets, r, result, answer.totalBets, answer.totalPayout)
                && r in settlements && settlements[r] == Settlement(result, Success, answer.totalBets, answer.totalPayout)
      ensures answer.AlreadySettled? ==> bets == old(bets) && wallets == old(wallets) && r in settlements && settlements[r].status == Success
      ensures answer.SettlementFailed? && !lost ==> r in settlements && settlements[r].status == Failed
      ensures !aborted ==> (answer.SettlementFailed? <==> r in old(settlements) && old(settlements)[r].status == Failed && old(settlements)[r].result != result)
    {
      StartCall(call, r, result);
      if aborted {
        AbortCall(call, r, result);
        answer := SettlementFailed;
      } else {
        answer := SettleRoundTx(call, r, result);
      }
      if answer.SettlementFailed? {
        Interleave(Some(call));
        EndCall(call, r, result, lost);
      }
    }

    method StartCall(call: CallId, r: RoundId, result: Color)
      requires Valid() && call !in calls
      modifies this
      ensures Valid() && trace == old(trace) + [StartSettling(call, r, result)]
      ensures View() == old(View()).(calls := old(calls)[call := Running(r, result)])
    {
      ghost var before := View();
      calls := calls[call := Running(r, result)];
      Record(before, StartSettling(call, r, result));
    }

    method AbortCall(call: CallId, r: RoundId, result: Color)
      requires Valid() && CallOf(View(), call) == Some(Running(r, result))
      modifies this
      ensures Valid() && trace == old(trace) + [AbortSettling(call)]
      ensures View() == old(View()).(calls := old(calls)[call := Failing(r, result)])
    {
      ghost var before := View();
      calls := calls[call := Failing(r, result)];
      Record(before, AbortSettling(call));
    }

    // The catch branch.
    method EndCall(call: CallId, r: RoundId, result: Color, lost: bool)
      requires Valid() && CallOf(View(), call) == Some(Failing(r, result))
      modifies this
      ensures Valid() && old(trace) <= trace && call !in calls
      ensures !lost ==> r in settlements && settlements[r].status == Failed
    {
      ghost var before := View();
      if !lost {
        settlements := settlements[r := if r in settlements then settlements[r].(status := Failed) else Settlement(result, Failed, 0, 0)];
      }
      calls := calls - {call};
      Record(before, if lost then Forget(call) else RecordFailure(call));
    }

    // The transaction of settleRound.
    method SettleRoundTx(call: CallId, r: RoundId, result: Color) returns (answer: SettlementAnswer)
      requires Valid() && CallOf(View(), call) == Some(Running(r, result))
      modifies this
      ensures Valid() && trace == old(trace) + [SettleRound(call)]
      ensures CallOf(View(), call) == if answer.SettlementFailed? then Some(Failing(r, result)) else None
      ensures answer.SettledNow? ==>
                SettledExactly(config, old(bets), bets, r, result, answer.totalBets, answer.totalPayout)
                && r in settlements && settlements[r] == Settlement(result, Success, answer.totalBets, answer.totalPayout)
      ensures answer.AlreadySettled? ==> bets == old(bets) && wallets == old(wallets) && r in settlements && settlements[r].status == Success
      ensures answer.SettlementFailed? <==> r in old(settlements) && old(settlements)[r].status == Failed && old(settlements)[r].result != result
    {
      ghost var before := View();
      answer := SettleOrRefuse(r, result);
      if answer.SettlementFailed? {
        calls := calls[call := Failing(r, result)];
      } else {
        if r !in closed { early := early + {r}; }
        calls := calls - {call};
      }
      assert Step(config, before, SettleRound(call)) == SettleStep(config, before, call);
      Record(before, SettleRound(call));
    }

    method SettleOrRefuse(r: RoundId, result: Color) returns (answer: SettlementAnswer)
      requires Valid()
      modifies this`wallets, this`ledger, this`bets, this`settlements
      ensures SettleTx(config, old(View()), r, result) == if answer.SettlementFailed? then None else Some(View())
      ensures answer.SettlementFailed? ==> View() == old(View())
      ensures answer.AlreadySettled? ==> View() == old(View()) && r in settlements && settlements[r].status == Success
      ensures answer.SettledNow? ==>
                SettledExactly(config, old(bets), bets, r, result, answer.totalBets, answer.totalPayout)
                && r in settlements && settlements[r] == Settlement(result, Success, answer.totalBets, answer.totalPayout)
      ensures answer.SettlementFailed? <==> r in old(settlements) && old(settlements)[r].status == Failed && old(settlements)[r].result != result
    {
      IsReachable();
      SettlingIsExact(config, bets, r, result);
      SettlingWorks(config, View(), r, result, |bets|);
      if r in settlements && settlements[r].status == Success { return AlreadySettled; }
      if r in settlements && settlements[r].result != result { return SettlementFailed; }
      var ok, totalBets, totalPayout := SettleBets(r, result);
      settlements := settlements[r := Settlement(result, Success, totalBets, totalPayout)];
      return SettledNow(totalBets, totalPayout);
    }

    // refundRound: every pending bet of the round is given back, and nothing can refuse it.
    method RefundRoundCall(r: RoundId) returns (refunded: nat)
      requires Valid()
      modifies this
      ensures Valid() && |trace| == |old(trace)| + 1 && old(trace) <= trace
      ensures refunded == |PendingBets(old(bets), r)| && RefundedRound(old(bets), bets, r)
    {
      ghost var before := View();
      IsReachable();
      var order := FindPending(r);
      RefundBets(order);
      refunded := |order|;
      ListHasAllPending(before, r, order);
      RefundingIsExact(before, View(), r, order);
      Record(before, RefundRound(r, order));
    }

    method FindPending(r: RoundId) returns (order: seq<BetId>)
      ensures ListsPending(View(), r, order) && DistinctPending(bets, order)
    {
      order := [];
      for i := 0 to |bets|
        invariant forall k, l :: 0 <= k < l < |order| ==> order[k] < order[l]
        invariant forall k :: 0 <= k < |order| ==> order[k] < i && bets[order[k]].status == Pending && bets[order[k]].round == r
        invariant forall b: BetId :: b < i && bets[b].status == Pending && bets[b].round == r ==> b in order
      {
        if bets[i].status == Pending && bets[i].round == r { order := order + [i]; }
      }
    }

    method RefundBets(order: seq<BetId>)
      requires ConfigOk(config) && BooksOk(config, View()) && LedgerUnique(ledger) && DistinctPending(bets, order)
      modifies this`wallets, this`ledger, this`bets
      ensures RefundEach(old(View()), order) == Some(View())
      ensures RefundsExactly(old(bets), bets, order)
    {
      ghost var start := View();
      var i := 0;
      while i < |order|
        invariant 0 <= i <= |order|
        invariant RefundEach(start, order[..i]) == Some(View())
      {
        NextRefund(config, start, order, i);
        RefundBet(order[i]);
        i := i + 1;
      }
      assert order[..i] == order;
      RefundingWorks(config, start, order);
    }

    method RefundBet(id: BetId)
      requires RefundOne(View(), id).Some?
      modifies this`wallets, this`ledger, this`bets
      ensures RefundOne(old(View()), id) == Some(View())
    {
      var bet := bets[id];
      var error := MoveWallet(RefundMove(bet, id));
      bets := bets[id := bet.(status := Refunded)];
    }
  }

  lemma ListHasAllPending(s: State, r: RoundId, order: seq<BetId>)
    requires ListsPending(s, r, order)
    ensures |order| == |PendingBets(s.bets, r)|
  {
    DistinctLength(order);
    assert Members(order) == PendingBets(s.bets, r);
  }

  function Members(order: seq<BetId>): set<BetId> { set b | b in order }

  lemma {:induction false} DistinctLength(order: seq<BetId>)
    requires forall i, j :: 0 <= i < j < |order| ==> order[i] != order[j]
    ensures |Members(order)| == |order|
  {
    if |order| > 0 {
      var n := |order| - 1;
      DistinctLength(order[..n]);
      assert order[n] !in order[..n];
      assert Members(order) == Members(order[..n]) + {order[n]};
    }
  }

  lemma NextRefund(c: Config, s: State, order: seq<BetId>, i: nat)
    requires ConfigOk(c) && BooksOk(c, s) && LedgerUnique(s.ledger) && DistinctPending(s.bets, order) && i < |order|
    requires RefundEach(s, order[..i]).Some?
    ensures RefundEach(s, order[..i + 1]) == RefundOne(RefundEach(s, order[..i]).value, order[i])
    ensures RefundEach(s, order[..i + 1]).Some?
  {
    assert order[..i + 1][..i] == order[..i];
    RefundingWorks(c, s, order[..i + 1]);
  }

  lemma OneMoreTotal(c: Config, bets: seq<Bet>, r: RoundId, result: Color, i: nat)
    requires i < |bets|
    ensures Sum(CountPending(r), bets[..i + 1]) ==
            Sum(CountPending(r), bets[..i]) + (if bets[i].round == r && bets[i].status == Pending then 1 else 0)
    ensures c.multiplier * Sum(PendingOn(r, result), bets[..i + 1]) ==
            c.multiplier * Sum(PendingOn(r, result), bets[..i]) +
            (if bets[i].round == r && bets[i].status == Pending && bets[i].choice == result then bets[i].stake * c.multiplier else 0)
  {
    assert bets[..i + 1][..i] == bets[..i];
  }

  // The pending bets of the round are refunded, and nothing else changed.
  ghost predicate RefundedRound(bets: seq<Bet>, bets': seq<Bet>, r: RoundId) {
    && |bets'| == |bets|
    && forall i :: 0 <= i < |bets| ==>
         bets'[i] == if bets[i].round == r && bets[i].status == Pending then bets[i].(status := Refunded) else bets[i]
  }

  lemma RefundingIsExact(s: State, t: State, r: RoundId, order: seq<BetId>)
    requires ListsPending(s, r, order) && RefundsExactly(s.bets, t.bets, order)
    ensures RefundedRound(s.bets, t.bets, r)
  {
    forall i | 0 <= i < |s.bets|
      ensures t.bets[i] == if s.bets[i].round == r && s.bets[i].status == Pending then s.bets[i].(status := Refunded) else s.bets[i]
    {
      if i in order { var k :| 0 <= k < |order| && order[k] == i; }
    }
  }

  lemma {:induction false} SettlingStops(c: Config, s: State, r: RoundId, result: Color, n: nat)
    requires n <= |s.bets| && SettleBelow(c, s, r, result, n).None?
    ensures SettleBelow(c, s, r, result, |s.bets|).None?
    decreases |s.bets| - n
  {
    if n < |s.bets| { SettlingStops(c, s, r, result, n + 1); }
  }
}
