// Settlement in many crash-prone transactions does the same as settlement in one pass.
module GameRefinement {
  import opened Types
  import opened Ledger
  import opened LedgerLaws
  import opened Bets
  import opened Game
  import opened GameMoney
  import opened GameRounds
  import opened GameSafety

  // ---------------------------------------------------------------- the one-pass specification

  // What round r still owes the user lands in the winning pot, in one ledger row.
  function PaidWallet(s: State, r: RoundId, result: Color, u: UserId): Wallet
    requires u in s.bank.wallets
  {
    var w := s.bank.wallets[u];
    var due := Sum(Due(r, result, u), s.bets);
    if due == 0 then w else w.(winning := w.winning + due, version := w.version + 1)
  }

  function RowsOfUser(ledger: seq<Row>, u: UserId): seq<Row> {
    if |ledger| == 0 then []
    else RowsOfUser(ledger[..|ledger| - 1], u) + (if ledger[|ledger| - 1].user == u then [ledger[|ledger| - 1]] else [])
  }

  function PaidRows(s: State, r: RoundId, result: Color, u: UserId): seq<Row>
    requires u in s.bank.wallets
  {
    var total := s.bank.wallets[u].Total();
    var due := Sum(Due(r, result, u), s.bets);
    RowsOfUser(s.bank.ledger, u) +
    (if due == 0 then [] else [MakeRow(CreditMovement(r, u, due), total, total + due, Success)])
  }

  // Administrators may switch wallets on and off at any time; what is in a wallet is another matter.
  predicate SameMoney(w: Wallet, w': Wallet) { w' == w.(active := w'.active) }

  ghost predicate SameOutcomeFor(s: State, s': State, r: RoundId, result: Color, u: UserId)
    requires u in s.bank.wallets
  {
    && u in s'.bank.wallets
    && SameMoney(PaidWallet(s, r, result, u), PaidWallet(s', r, result, u))
    && PaidRows(s', r, result, u) == PaidRows(s, r, result, u)
  }

  // Two states that settling round r in one pass takes to the same bets and, for every user of the first,
  // the same money and the same ledger rows.
  ghost predicate SameOutcome(s: State, s': State, r: RoundId, result: Color) {
    && Decide(s'.bets, r, result) == Decide(s.bets, r, result)
    && forall u :: u in s.bank.wallets ==> SameOutcomeFor(s, s', r, result, u)
  }

  // ---------------------------------------------------------------- runs of settlement work

  // Steps that any number of engines and administrators may take without touching bets or wallets.
  predicate Quiet(a: Action) { IsControl(a) || a.SetPaused? }

  // Work on round r, in any number of calls and attempts, while users register and administrators switch
  // wallets off and on again. GamePots admits every other step as well.
  predicate SettlementWork(a: Action, r: RoundId, result: Color) {
    || Quiet(a)
    || a.Register?
    || a.SetWalletActive?
    || a == SettleLosers(r, result)
    || (a.SettleWinner? && a.round == r && a.result == result)
  }

  lemma QuietTouchesNoMoney(c: Config, s: State, a: Action)
    requires Inv(c, s) && ConfigOk(c) && Quiet(a)
    ensures Step(c, s, a).bets == s.bets && Step(c, s, a).bank == s.bank
  {
    if IsControl(a) {
      BetsArePositive(s.bank, s.bets);
      ControlActionIsGood(c, s, a);
    }
  }

  lemma LosersKeepOutcome(s: State, r: RoundId, result: Color)
    ensures SameOutcome(s, LosersStep(s, r, result), r, result)
  {
    if SettlementAllows(s, r, result) {
      var bets' := MarkLosers(s.bets, r, result);
      assert Decide(bets', r, result) == Decide(s.bets, r, result);
      forall u | u in s.bank.wallets ensures SameOutcomeFor(s, LosersStep(s, r, result), r, result, u) {
        SumSame(Due(r, result, u), bets', s.bets);
      }
    }
  }

  lemma RowsOfUserAppend(rows: seq<Row>, row: Row, u: UserId)
    ensures RowsOfUser(rows + [row], u) == RowsOfUser(rows, u) + (if row.user == u then [row] else [])
  {
    assert (rows + [row])[..|rows|] == rows;
  }

  lemma WinnerMovesDue(bets: seq<Bet>, r: RoundId, result: Color, user: UserId, u: UserId)
    requires Positive(bets)
    ensures Sum(Due(r, result, u), MarkWinner(bets, r, result, user)) == (if u == user then 0 else Sum(Due(r, result, u), bets))
  {
    var bets' := MarkWinner(bets, r, result, user);
    if u == user {
      forall i | 0 <= i < |bets'| ensures Weight(Due(r, result, u), bets'[i]) == 0 {}
      ZeroSumMeansNone(Due(r, result, u), bets');
    } else {
      SumSame(Due(r, result, u), bets', bets);
    }
  }

  lemma CreditPosts(bank: Bank, r: RoundId, user: UserId, due: int)
    requires user in bank.wallets && Post(bank, CreditMovement(r, user, due)).Moved?
    ensures var w := bank.wallets[user];
            Post(bank, CreditMovement(r, user, due)).bank ==
              Bank(bank.wallets[user := w.(winning := w.winning + due, version := w.version + 1)],
                   bank.ledger + [MakeRow(CreditMovement(r, user, due), w.Total(), w.Total() + due, Success)])
  {
  }

  lemma CreditMovesDueToWallet(bank: Bank, r: RoundId, user: UserId, due: int, u: UserId)
    requires user in bank.wallets && u in bank.wallets && Post(bank, CreditMovement(r, user, due)).Moved?
    ensures var bank' := Post(bank, CreditMovement(r, user, due)).bank;
            var w := bank.wallets[u];
            && bank'.wallets.Keys == bank.wallets.Keys
            && bank'.wallets[u] == (if u == user then w.(winning := w.winning + due, version := w.version + 1) else w)
            && RowsOfUser(bank'.ledger, u) == RowsOfUser(bank.ledger, u) +
                 (if u == user then [MakeRow(CreditMovement(r, u, due), w.Total(), w.Total() + due, Success)] else [])
  {
    var w := bank.wallets[user];
    var row := MakeRow(CreditMovement(r, user, due), w.Total(), w.Total() + due, Success);
    CreditPosts(bank, r, user, due);
    RowsOfUserAppend(bank.ledger, row, u);
  }

  // The state after a winner's transaction that went through.
  function Credited(s: State, r: RoundId, result: Color, user: UserId): State
    requires Post(s.bank, CreditMovement(r, user, Sum(Due(r, result, user), s.bets))).Moved?
  {
    s.(bank := Post(s.bank, CreditMovement(r, user, Sum(Due(r, result, user), s.bets))).bank,
       bets := MarkWinner(s.bets, r, result, user))
  }

  lemma CreditKeepsOutcomeFor(s: State, r: RoundId, result: Color, user: UserId, u: UserId)
    requires BetsOk(s.bank, s.bets) && user in s.bank.wallets && u in s.bank.wallets
    requires Sum(Due(r, result, user), s.bets) > 0
    requires Post(s.bank, CreditMovement(r, user, Sum(Due(r, result, user), s.bets))).Moved?
    ensures SameOutcomeFor(s, Credited(s, r, result, user), r, result, u)
  {
    BetsArePositive(s.bank, s.bets);
    WinnerMovesDue(s.bets, r, result, user, u);
    CreditMovesDueToWallet(s.bank, r, user, Sum(Due(r, result, user), s.bets), u);
  }

  lemma CreditKeepsOutcome(s: State, r: RoundId, result: Color, user: UserId)
    requires BetsOk(s.bank, s.bets) && user in s.bank.wallets && Sum(Due(r, result, user), s.bets) > 0
    requires Post(s.bank, CreditMovement(r, user, Sum(Due(r, result, user), s.bets))).Moved?
    ensures SameOutcome(s, Credited(s, r, result, user), r, result)
  {
    assert Decide(Credited(s, r, result, user).bets, r, result) == Decide(s.bets, r, result);
    forall u | u in s.bank.wallets ensures SameOutcomeFor(s, Credited(s, r, result, user), r, result, u) {
      CreditKeepsOutcomeFor(s, r, result, user, u);
    }
  }

  lemma WinnerKeepsOutcome(c: Config, s: State, r: RoundId, result: Color, user: UserId)
    requires Inv(c, s)
    ensures SameOutcome(s, WinnerStep(s, r, result, user), r, result)
  {
    SameBooksSameOutcome(s, s, r, result);
    if SettlementAllows(s, r, result) {
      SettleUserMovesOrWaits(c, s, r, result, user);
      if SettleUser(s, r, result, user) != s {
        PendingWinnerHasWallet(s.bank, s.bets, r, result, user);
        CreditKeepsOutcome(s, r, result, user);
      }
    }
  }

  lemma SameBooksSameOutcome(s: State, s': State, r: RoundId, result: Color)
    requires s'.bets == s.bets && s'.bank == s.bank
    ensures SameOutcome(s, s', r, result)
  {
  }

  lemma SameRowsSameOutcomeFor(s: State, bank: Bank, r: RoundId, result: Color, u: UserId)
    requires u in s.bank.wallets && u in bank.wallets && SameMoney(s.bank.wallets[u], bank.wallets[u])
    requires RowsOfUser(bank.ledger, u) == RowsOfUser(s.bank.ledger, u)
    ensures SameOutcomeFor(s, s.(bank := bank), r, result, u)
  {
  }

  lemma RegisteringKeepsOutcome(s: State, user: UserId, r: RoundId, result: Color)
    ensures SameOutcome(s, AccountAction(s, Register(user)), r, result)
  {
    SameBooksSameOutcome(s, s, r, result);
    if user !in s.bank.wallets && EnsureWallet(s.bank, user).Some? {
      var bank := EnsureWallet(s.bank, user).value;
      forall u | u in s.bank.wallets ensures SameOutcomeFor(s, s.(bank := bank), r, result, u) {
        RowsOfUserAppend(s.bank.ledger, OpeningRow(user), u);
        SameRowsSameOutcomeFor(s, bank, r, result, u);
      }
    }
  }

  lemma ActivatingKeepsOutcome(s: State, user: UserId, active: bool, r: RoundId, result: Color)
    ensures SameOutcome(s, AccountAction(s, SetWalletActive(user, active)), r, result)
  {
    SameBooksSameOutcome(s, s, r, result);
    if user in s.bank.wallets {
      var bank := s.bank.(wallets := s.bank.wallets[user := s.bank.wallets[user].(active := active)]);
      forall u | u in s.bank.wallets ensures SameOutcomeFor(s, s.(bank := bank), r, result, u) {
        SameRowsSameOutcomeFor(s, bank, r, result, u);
      }
    }
  }

  lemma WorkStepKeepsOutcome(c: Config, s: State, a: Action, r: RoundId, result: Color)
    requires Inv(c, s) && ConfigOk(c) && SettlementWork(a, r, result)
    ensures SameOutcome(s, Step(c, s, a), r, result)
  {
    if Quiet(a) {
      QuietTouchesNoMoney(c, s, a);
      SameBooksSameOutcome(s, Step(c, s, a), r, result);
    } else if a.Register? {
      RegisteringKeepsOutcome(s, a.user, r, result);
    } else if a.SetWalletActive? {
      ActivatingKeepsOutcome(s, a.user, a.active, r, result);
    } else if a.SettleWinner? {
      WinnerKeepsOutcome(c, s, r, result, a.user);
    } else {
      LosersKeepOutcome(s, r, result);
    }
  }

  lemma SameOutcomeTransitive(s: State, m: State, s': State, r: RoundId, result: Color)
    requires SameOutcome(s, m, r, result) && SameOutcome(m, s', r, result)
    ensures SameOutcome(s, s', r, result)
  {
    forall u | u in s.bank.wallets ensures SameOutcomeFor(s, s', r, result, u) {
      assert SameOutcomeFor(s, m, r, result, u);
      assert SameOutcomeFor(m, s', r, result, u);
    }
  }

  lemma {:induction false} WorkKeepsOutcome(c: Config, s: State, actions: seq<Action>, r: RoundId, result: Color)
    requires ConfigOk(c) && Inv(c, s)
    requires forall i :: 0 <= i < |actions| ==> SettlementWork(actions[i], r, result)
    ensures SameOutcome(s, Run(c, s, actions), r, result)
  {
    if |actions| > 0 {
      var earlier, a := actions[..|actions| - 1], actions[|actions| - 1];
      WorkKeepsOutcome(c, s, earlier, r, result);
      RunKeepsInv(c, s, earlier);
      WorkStepKeepsOutcome(c, Run(c, s, earlier), a, r, result);
      SameOutcomeTransitive(s, Run(c, s, earlier), Run(c, s, actions), r, result);
    }
  }

  lemma NothingPendingOwesNothing(bets: seq<Bet>, r: RoundId, result: Color, u: UserId)
    requires Positive(bets) && Sum(PendingIn(r), bets) == 0
    ensures Decide(bets, r, result) == bets && Sum(Due(r, result, u), bets) == 0
  {
    ZeroSumMeansNone(PendingIn(r), bets);
    forall i | 0 <= i < |bets|
      ensures Decide(bets, r, result)[i] == bets[i] && Weight(Due(r, result, u), bets[i]) == 0
    {
      assert Weight(PendingIn(r), bets[i]) == 0;
    }
    ZeroSumMeansNone(Due(r, result, u), bets);
  }

  // Settlement work, and steps beside it, lead from s to s'.
  ghost predicate WorksTo(c: Config, s: State, s': State, r: RoundId, result: Color) {
    exists actions :: Run(c, s, actions) == s' && forall i :: 0 <= i < |actions| ==> SettlementWork(actions[i], r, result)
  }

  // The money and the ledger rows of one user after one pass over s.
  ghost predicate PaidAsInOnePass(s: State, s': State, r: RoundId, result: Color, u: UserId)
    requires u in s.bank.wallets
  {
    && u in s'.bank.wallets
    && SameMoney(PaidWallet(s, r, result, u), s'.bank.wallets[u])
    && RowsOfUser(s'.bank.ledger, u) == PaidRows(s, r, result, u)
  }

  // However settlement is cut into transactions, crashed, refused by an inactive wallet, retried and shared
  // between engines, and in whatever order users are paid: when nothing is pending any more, the bets, the
  // money and the ledger of every user are those of one pass over the state it started from.
  lemma CrashAndRetryEqualsOnePass(c: Config, s: State, s': State, r: RoundId, result: Color)
    requires ConfigOk(c) && Inv(c, s) && WorksTo(c, s, s', r, result)
    requires Sum(PendingIn(r), s'.bets) == 0
    ensures s'.bets == Decide(s.bets, r, result)
    ensures forall u :: u in s.bank.wallets ==> PaidAsInOnePass(s, s', r, result, u)
  {
    var actions :| Run(c, s, actions) == s' && forall i :: 0 <= i < |actions| ==> SettlementWork(actions[i], r, result);
    WorkKeepsOutcome(c, s, actions, r, result);
    RunKeepsInv(c, s, actions);
    SettledOutcomeIsOnePass(c, s, s', r, result);
  }

  lemma SettledOutcomeIsOnePass(c: Config, s: State, s': State, r: RoundId, result: Color)
    requires Inv(c, s') && SameOutcome(s, s', r, result) && Sum(PendingIn(r), s'.bets) == 0
    ensures s'.bets == Decide(s.bets, r, result)
    ensures forall u :: u in s.bank.wallets ==> PaidAsInOnePass(s, s', r, result, u)
  {
    BetsArePositive(s'.bank, s'.bets);
    NothingPendingOwesNothing(s'.bets, r, result, 0);
    forall u | u in s.bank.wallets ensures PaidAsInOnePass(s, s', r, result, u) {
      NothingPendingOwesNothing(s'.bets, r, result, u);
      assert SameOutcomeFor(s, s', r, result, u);
    }
  }

  // In particular two engines that finish the same work in different ways agree.
  lemma AnyTwoSchedulesAgree(c: Config, s: State, one: State, other: State, r: RoundId, result: Color, u: UserId)
    requires ConfigOk(c) && Inv(c, s) && WorksTo(c, s, one, r, result) && WorksTo(c, s, other, r, result)
    requires Sum(PendingIn(r), one.bets) == 0 && Sum(PendingIn(r), other.bets) == 0
    ensures one.bets == other.bets
    ensures u in s.bank.wallets ==>
              && u in one.bank.wallets && u in other.bank.wallets
              && SameMoney(one.bank.wallets[u], other.bank.wallets[u])
              && RowsOfUser(one.bank.ledger, u) == RowsOfUser(other.bank.ledger, u)
  {
    CrashAndRetryEqualsOnePass(c, s, one, r, result);
    CrashAndRetryEqualsOnePass(c, s, other, r, result);
    if u in s.bank.wallets {
      assert PaidAsInOnePass(s, one, r, result, u);
      assert PaidAsInOnePass(s, other, r, result, u);
    }
  }
}
