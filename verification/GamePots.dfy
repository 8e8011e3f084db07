// Both pots of a wallet are what its ledger rows make of them. So what settlement did to a wallet can be
// told apart from everything else that happened to it meanwhile.
module GamePots {
  import opened Types
  import opened Ledger
  import opened LedgerLaws
  import opened Bets
  import opened Game
  import opened GameMoney
  import opened GameRounds
  import opened GameSafety
  import opened GameTheorems
  import opened GameProgress

  datatype Pots = Pots(deposit: int, winning: int) {
    function Raised(amount: int): Pots { this.(winning := winning + amount) }
  }

  function PotsIn(bank: Bank, u: UserId): Pots {
    if u in bank.wallets then Pots(bank.wallets[u].deposit, bank.wallets[u].winning) else Pots(0, 0)
  }

  // What a ledger row says happened to the pots of its user.
  function AfterRow(p: Pots, row: Row): Pots {
    if row.status == Failed then p
    else if row.direction == Debit then
      var fromDeposit := if row.amount <= p.deposit then row.amount else p.deposit;
      Pots(p.deposit - fromDeposit, p.winning - (row.amount - fromDeposit))
    else if row.kind == BetWinCredit then p.Raised(row.amount)
    else p.(deposit := p.deposit + row.amount)
  }

  function Replay(p: Pots, rows: seq<Row>, u: UserId): Pots {
    if |rows| == 0 then p
    else
      var earlier := Replay(p, rows[..|rows| - 1], u);
      if rows[|rows| - 1].user == u then AfterRow(earlier, rows[|rows| - 1]) else earlier
  }

  lemma ReplayAppend(p: Pots, rows: seq<Row>, row: Row, u: UserId)
    ensures Replay(p, rows + [row], u) == (if row.user == u then AfterRow(Replay(p, rows, u), row) else Replay(p, rows, u))
  {
    assert (rows + [row])[..|rows|] == rows;
  }

  lemma {:induction false} ReplayInTwo(p: Pots, first: seq<Row>, second: seq<Row>, u: UserId)
    ensures Replay(p, first + second, u) == Replay(Replay(p, first, u), second, u)
  {
    if |second| == 0 {
      assert first + second == first;
    } else {
      var n := |second| - 1;
      assert first + second == (first + second[..n]) + [second[n]];
      ReplayInTwo(p, first, second[..n], u);
      ReplayAppend(p, first + second[..n], second[n], u);
    }
  }

  // ---------------------------------------------------------------- every step writes down what it does

  // The later bank is the earlier one with some rows added, and its pots are those rows replayed.
  ghost predicate Replays(bank: Bank, bank': Bank, u: UserId) {
    && bank.ledger <= bank'.ledger
    && PotsIn(bank', u) == Replay(PotsIn(bank, u), bank'.ledger[|bank.ledger|..], u)
  }

  lemma SameBankReplays(bank: Bank, bank': Bank, u: UserId)
    requires bank'.ledger == bank.ledger && PotsIn(bank', u) == PotsIn(bank, u)
    ensures Replays(bank, bank', u)
  {
    assert bank'.ledger[|bank.ledger|..] == [];
  }

  lemma OneRowReplays(bank: Bank, bank': Bank, row: Row, u: UserId)
    requires bank'.ledger == bank.ledger + [row]
    requires PotsIn(bank', u) == (if row.user == u then AfterRow(PotsIn(bank, u), row) else PotsIn(bank, u))
    ensures Replays(bank, bank', u)
  {
    assert bank'.ledger[|bank.ledger|..] == [] + [row];
    ReplayAppend(PotsIn(bank, u), [], row, u);
  }

  lemma ReplaysIsTransitive(one: Bank, two: Bank, three: Bank, u: UserId)
    requires Replays(one, two, u) && Replays(two, three, u)
    ensures Replays(one, three, u)
  {
    var first, second := two.ledger[|one.ledger|..], three.ledger[|two.ledger|..];
    assert three.ledger[|one.ledger|..] == first + second;
    ReplayInTwo(PotsIn(one, u), first, second, u);
  }

  lemma OpeningReplays(bank: Bank, user: UserId, u: UserId)
    requires EnsureWallet(bank, user).Some?
    ensures Replays(bank, EnsureWallet(bank, user).value, u)
  {
    if user in bank.wallets {
      SameBankReplays(bank, bank, u);
    } else {
      OneRowReplays(bank, EnsureWallet(bank, user).value, OpeningRow(user), u);
    }
  }

  lemma PostReplays(bank: Bank, m: Movement, u: UserId)
    requires Post(bank, m).Moved?
    ensures Replays(bank, Post(bank, m).bank, u)
  {
    var ensured := EnsureWallet(bank, m.user).value;
    OpeningReplays(bank, m.user, u);
    OneRowReplays(ensured, Post(bank, m).bank, Post(bank, m).row, u);
    ReplaysIsTransitive(bank, ensured, Post(bank, m).bank, u);
  }

  lemma RefundReplays(books: Books, id: BetId, recovery: bool, u: UserId)
    requires RefundOne(books, id, recovery).Some?
    ensures Replays(books.bank, RefundOne(books, id, recovery).value.bank, u)
  {
    var m := RefundMovement(books.bets[id], id, recovery);
    if Post(books.bank, m).Moved? { PostReplays(books.bank, m, u); } else { SameBankReplays(books.bank, books.bank, u); }
  }

  lemma {:induction false} RefundsReplay(books: Books, order: seq<BetId>, recovery: bool, u: UserId)
    requires RefundEach(books, order, recovery).Some?
    ensures Replays(books.bank, RefundEach(books, order, recovery).value.bank, u)
  {
    if |order| == 0 {
      SameBankReplays(books.bank, books.bank, u);
    } else {
      var earlier := RefundEach(books, order[..|order| - 1], recovery).value;
      RefundsReplay(books, order[..|order| - 1], recovery, u);
      RefundReplays(earlier, order[|order| - 1], recovery, u);
      ReplaysIsTransitive(books.bank, earlier.bank, RefundEach(books, order, recovery).value.bank, u);
    }
  }

  lemma CancelReplays(s: State, targets: set<RoundId>, order: seq<BetId>, recovery: bool, rounds: seq<Round>, u: UserId)
    ensures Replays(s.bank, CancelTx(s, targets, order, recovery, rounds).bank, u)
  {
    SameBankReplays(s.bank, s.bank, u);
    if RefundEach(Books(s.bank, s.bets), order, recovery).Some? { RefundsReplay(Books(s.bank, s.bets), order, recovery, u); }
  }

  lemma RecoveryReplays(s: State, pid: ProcessId, order: seq<BetId>, u: UserId)
    ensures Replays(s.bank, RecoverStep(s, pid, order).bank, u)
  {
    SameBankReplays(s.bank, s.bank, u);
    var p := ProcessOf(s, pid);
    if p.Recovering? && p.round < |s.rounds| {
      CancelReplays(s, {p.round}, order, true, s.rounds[p.round := s.rounds[p.round].(status := CancelledRound, result := None)], u);
    }
  }

  lemma ForceStopReplays(s: State, order: seq<BetId>, u: UserId)
    ensures Replays(s.bank, ForceStopTx(s, order).bank, u)
  {
    SameBankReplays(s.bank, s.bank, u);
    var found := FindActive(s.rounds);
    if found.Some? {
      var r := found.value;
      CancelReplays(s, {r}, order, false, s.rounds[r := s.rounds[r].(status := CancelledRound)], u);
    }
  }

  lemma AccountReplays(s: State, a: Action, u: UserId)
    requires IsAccount(a)
    ensures Replays(s.bank, AccountAction(s, a).bank, u)
  {
    SameBankReplays(s.bank, s.bank, u);
    match a
    case Register(user) => if EnsureWallet(s.bank, user).Some? { OpeningReplays(s.bank, user, u); }
    case SetWalletActive(user, active) => SameBankReplays(s.bank, AccountAction(s, a).bank, u);
    case AdjustWallet(user, amount, direction, reference, key) =>
      var m := AdjustmentMovement(user, amount, direction, reference, key);
      if Post(s.bank, m).Moved? { PostReplays(s.bank, m, u); }
    case SetPaused(_) =>
  }

  lemma BetReplays(c: Config, s: State, user: UserId, r: RoundId, choice: Color, stake: int, clientKey: string, beforeLock: bool, u: UserId)
    ensures Replays(s.bank, PlaceBetTx(c, s, user, r, choice, stake, clientKey, beforeLock).bank, u)
  {
    SameBankReplays(s.bank, s.bank, u);
    var m := DebitMovement(Bet(user, r, choice, stake, clientKey, Pending, 0), |s.bets|);
    if Post(s.bank, m).Moved? { PostReplays(s.bank, m, u); }
  }

  lemma WinnerReplays(s: State, r: RoundId, result: Color, user: UserId, u: UserId)
    ensures Replays(s.bank, WinnerStep(s, r, result, user).bank, u)
  {
    SameBankReplays(s.bank, s.bank, u);
    var m := CreditMovement(r, user, Sum(Due(r, result, user), s.bets));
    if Post(s.bank, m).Moved? { PostReplays(s.bank, m, u); }
  }

  lemma StepReplays(c: Config, s: State, a: Action, u: UserId)
    requires Inv(c, s) && ConfigOk(c)
    ensures Replays(s.bank, Step(c, s, a).bank, u)
  {
    SameBankReplays(s.bank, s.bank, u);
    if IsControl(a) {
      BetsArePositive(s.bank, s.bets);
      ControlActionIsGood(c, s, a);
    } else if IsAccount(a) {
      AccountReplays(s, a, u);
    } else {
      match a
      case PlaceBet(user, r, choice, stake, clientKey, beforeLock) => BetReplays(c, s, user, r, choice, stake, clientKey, beforeLock, u);
      case SettleWinner(r, result, user) => WinnerReplays(s, r, result, user, u);
      case SettleLosers(_, _) =>
      case RecoverRound(pid, order) => RecoveryReplays(s, pid, order, u);
      case ForceStart(seed, order) =>
        CancelReplays(s, ActiveRounds(s.rounds), order, false,
                      CancelActive(s.rounds) + [NewRound(c, LatestNumber(s.rounds) + 1, Open, seed)], u);
      case ForceStop(order) => ForceStopReplays(s, order, u);
    }
  }

  lemma {:induction false} RunReplays(c: Config, s: State, actions: seq<Action>, u: UserId)
    requires Inv(c, s) && ConfigOk(c)
    ensures Replays(s.bank, Run(c, s, actions).bank, u)
  {
    if |actions| == 0 {
      SameBankReplays(s.bank, s.bank, u);
    } else {
      var earlier := actions[..|actions| - 1];
      RunReplays(c, s, earlier, u);
      RunKeepsInv(c, s, earlier);
      StepReplays(c, Run(c, s, earlier), actions[|actions| - 1], u);
      ReplaysIsTransitive(s.bank, Run(c, s, earlier).bank, Run(c, s, actions).bank, u);
    }
  }

  // In every reachable state the ledger alone determines both pots of every wallet.
  lemma LedgerDeterminesPots(c: Config, s: State, u: UserId)
    requires ConfigOk(c) && Reachable(c, s)
    ensures PotsIn(s.bank, u) == Replay(Pots(0, 0), s.bank.ledger, u)
  {
    var actions :| Run(c, EMPTY, actions) == s;
    EmptyIsOk(c);
    RunReplays(c, EMPTY, actions, u);
    assert s.bank.ledger[0..] == s.bank.ledger;
  }

  // ---------------------------------------------------------------- settlement, told apart from the rest

  predicate CreditsRound(row: Row, r: RoundId, u: UserId) { IsSettlement(row) && row.reference == r && row.user == u }

  // The rows that are not the user's credit for round r.
  function Others(rows: seq<Row>, r: RoundId, u: UserId): seq<Row> {
    if |rows| == 0 then []
    else
      var earlier := Others(rows[..|rows| - 1], r, u);
      if CreditsRound(rows[|rows| - 1], r, u) then earlier else earlier + [rows[|rows| - 1]]
  }

  lemma RaisedRow(p: Pots, amount: int, row: Row)
    ensures AfterRow(p.Raised(amount), row) == AfterRow(p, row).Raised(amount)
  {
  }

  // A raise of the winning pot may come before or after any other row: debits take the deposit pot first.
  lemma {:induction false} RaiseCommutes(p: Pots, amount: int, rows: seq<Row>, u: UserId)
    ensures Replay(p.Raised(amount), rows, u) == Replay(p, rows, u).Raised(amount)
  {
    if |rows| > 0 {
      RaiseCommutes(p, amount, rows[..|rows| - 1], u);
      RaisedRow(Replay(p, rows[..|rows| - 1], u), amount, rows[|rows| - 1]);
    }
  }

  lemma {:induction false} CreditsCommute(p: Pots, rows: seq<Row>, r: RoundId, u: UserId)
    ensures Replay(p, rows, u) == Replay(p.Raised(RowSum(CreditedFor(r, u), rows)), Others(rows, r, u), u)
  {
    if |rows| > 0 {
      var earlier, row := rows[..|rows| - 1], rows[|rows| - 1];
      var before := RowSum(CreditedFor(r, u), earlier);
      CreditsCommute(p, earlier, r, u);
      if CreditsRound(row, r, u) {
        assert Replay(p, rows, u) == Replay(p, earlier, u).Raised(row.amount);
        RaiseCommutes(p.Raised(before), row.amount, Others(earlier, r, u), u);
        assert p.Raised(before).Raised(row.amount) == p.Raised(RowSum(CreditedFor(r, u), rows));
      } else {
        assert RowSum(CreditedFor(r, u), rows) == before;
        ReplayAppend(p.Raised(before), Others(earlier, r, u), row, u);
      }
    }
  }

  lemma {:induction false} RowSumInTwo(m: RowMeasure, first: seq<Row>, second: seq<Row>)
    ensures RowSum(m, first + second) == RowSum(m, first) + RowSum(m, second)
  {
    if |second| == 0 {
      assert first + second == first;
    } else {
      var n := |second| - 1;
      assert (first + second)[..|first| + n] == first + second[..n];
      RowSumInTwo(m, first, second[..n]);
    }
  }

  lemma {:induction false} NewBetsElsewhere(bets: seq<Bet>, n: nat, r: RoundId, u: UserId)
    requires n <= |bets| && forall i :: n <= i < |bets| ==> bets[i].round != r
    ensures Sum(PaidTo(r, u), bets) == Sum(PaidTo(r, u), bets[..n])
    decreases |bets|
  {
    if n == |bets| {
      assert bets[..n] == bets;
    } else {
      NewBetsElsewhere(bets[..|bets| - 1], n, r, u);
      assert bets[..|bets| - 1][..n] == bets[..n];
    }
  }

  // How a bet of the round ends: as one pass decides it, unless a cancelling transaction came first.
  predicate DecidedOrRefunded(bet: Bet, bet': Bet, result: Color) {
    if bet.status != Pending then bet' == bet
    else
      || bet' == CancelBet(bet)
      || bet' == if bet.choice == result then bet.(status := Won, payout := 2 * bet.stake)
                 else bet.(status := Lost, payout := 0)
  }

  // What the user got out of round r between two states of the bets table.
  function WonBetween(bets: seq<Bet>, bets': seq<Bet>, r: RoundId, u: UserId): int {
    Sum(PaidTo(r, u), bets') - Sum(PaidTo(r, u), bets)
  }

  ghost predicate NoneRefunded(bets: seq<Bet>, bets': seq<Bet>, r: RoundId) {
    forall i :: 0 <= i < |bets| && i < |bets'| && bets[i].round == r && bets[i].status == Pending ==> bets'[i].status != Cancelled
  }

  ghost predicate DecidedBetween(bets: seq<Bet>, bets': seq<Bet>, r: RoundId, result: Color) {
    && |bets| <= |bets'|
    && (forall i :: 0 <= i < |bets| && bets[i].round == r ==> DecidedOrRefunded(bets[i], bets'[i], result))
    && (forall i :: |bets| <= i < |bets'| ==> bets'[i].round != r)
  }

  // Settlement of round r as it shows between two states, whatever else went on: its bets are decided, and
  // each wallet is the old one with its winning pot raised once, on which all other rows acted as written.
  ghost predicate SettledBetween(s: State, s': State, r: RoundId, result: Color) {
    && DecidedBetween(s.bets, s'.bets, r, result)
    && s.bank.ledger <= s'.bank.ledger
    && (forall u: UserId :: RaisedBetween(s, s', r, u))
    && (NoneRefunded(s.bets, s'.bets, r) ==> forall u: UserId :: WonBetween(s.bets, s'.bets, r, u) == Sum(Due(r, result, u), s.bets))
  }

  ghost predicate RaisedBetween(s: State, s': State, r: RoundId, u: UserId)
    requires s.bank.ledger <= s'.bank.ledger
  {
    PotsIn(s'.bank, u) ==
    Replay(PotsIn(s.bank, u).Raised(WonBetween(s.bets, s'.bets, r, u)), Others(s'.bank.ledger[|s.bank.ledger|..], r, u), u)
  }

  lemma PotIsRaised(s: State, s': State, r: RoundId, u: UserId)
    requires CreditedOnce(s.bank, s.bets, r, u) && CreditedOnce(s'.bank, s'.bets, r, u) && Replays(s.bank, s'.bank, u)
    ensures RaisedBetween(s, s', r, u)
  {
    var since := s'.bank.ledger[|s.bank.ledger|..];
    assert s'.bank.ledger == s.bank.ledger + since;
    RowSumInTwo(CreditedFor(r, u), s.bank.ledger, since);
    CreditsCommute(PotsIn(s.bank, u), since, r, u);
  }

  lemma DecidedBetsFollowResult(c: Config, s: State, s': State, r: RoundId, result: Color)
    requires Inv(c, s) && Inv(c, s') && OnlyDecides(s.bets, s'.bets, r)
    requires SettlementAllows(s', r, result) && Sum(PendingIn(r), s'.bets) == 0
    ensures DecidedBetween(s.bets, s'.bets, r, result)
  {
    BetsArePositive(s'.bank, s'.bets);
    ZeroSumMeansNone(PendingIn(r), s'.bets);
    forall i | 0 <= i < |s.bets| && s.bets[i].round == r ensures DecidedOrRefunded(s.bets[i], s'.bets[i], result) {
      assert Same(s.bets[i], s'.bets[i]) || Decides(s.bets[i], s'.bets[i]);
      assert Weight(PendingIn(r), s'.bets[i]) == 0;
      assert Disposed(s', s'.bets[i]) && BetOk(s'.bank, s'.bets[i]);
    }
  }

  lemma AllIsDue(bets: seq<Bet>, bets': seq<Bet>, r: RoundId, result: Color, u: UserId)
    requires OnlyDecides(bets, bets', r) && DecidedBetween(bets, bets', r, result) && NoneRefunded(bets, bets', r)
    ensures WonBetween(bets, bets', r, u) == Sum(Due(r, result, u), bets)
  {
    var n := |bets|;
    NewBetsElsewhere(bets', n, r, u);
    forall i | 0 <= i < n
      ensures Weight(PaidTo(r, u), bets'[..n][i]) == Weight(PaidTo(r, u), bets[i]) + 1 * Weight(Due(r, result, u), bets[i])
    {
      assert bets'[..n][i] == bets'[i];
      assert Same(bets[i], bets'[i]) || Decides(bets[i], bets'[i]);
      assert bets[i].round == r ==> DecidedOrRefunded(bets[i], bets'[i], result);
    }
    SumShift(PaidTo(r, u), bets'[..n], PaidTo(r, u), Due(r, result, u), bets, 1);
  }

  // However settlement of a closed round is cut, retried and shared, and whatever users, engines and
  // administrators do in between: once nothing of it is pending, its bets are decided as in one pass, and
  // every winning pot was raised once by what its user won there.
  lemma SettlementSurvivesInterference(c: Config, s: State, actions: seq<Action>, r: RoundId, result: Color)
    requires ConfigOk(c) && Inv(c, s) && Closed(s, r)
    requires SettlementAllows(Run(c, s, actions), r, result) && Sum(PendingIn(r), Run(c, s, actions).bets) == 0
    ensures SettledBetween(s, Run(c, s, actions), r, result)
  {
    var s' := Run(c, s, actions);
    RunKeepsInv(c, s, actions);
    RunOnlyDecides(c, s, actions, r);
    RunOnlyAppends(c, s, actions);
    DecidedBetsFollowResult(c, s, s', r, result);
    forall u: UserId ensures RaisedBetween(s, s', r, u) {
      RunReplays(c, s, actions, u);
      assert CreditedOnce(s.bank, s.bets, r, u) && CreditedOnce(s'.bank, s'.bets, r, u);
      PotIsRaised(s, s', r, u);
    }
    if NoneRefunded(s.bets, s'.bets, r) {
      forall u: UserId ensures WonBetween(s.bets, s'.bets, r, u) == Sum(Due(r, result, u), s.bets) { AllIsDue(s.bets, s'.bets, r, result, u); }
    }
  }
}
