// Where every coin went: wallets, ledger and bets after each kind of transaction.
module GameMoney {
  import opened Types
  import opened Ledger
  import opened LedgerLaws
  import opened Bets
  import opened Game

  // A wallet that does not exist yet will open with the initial coins.
  function Balance(bank: Bank, u: UserId): int {
    if u in bank.wallets then bank.wallets[u].Total() else INITIAL_VIRTUAL_COINS
  }

  // Conservation, one user at a time.
  ghost predicate Conserved(bank: Bank, bets: seq<Bet>, u: UserId) {
    Balance(bank, u) == INITIAL_VIRTUAL_COINS + RowSum(AdjustedFor(u), bank.ledger) - Sum(Staked(u), bets) + Sum(Returned(u), bets)
  }

  // A bet has one debit row; it has one refund row exactly when it was cancelled.
  ghost predicate Receipted(bank: Bank, bets: seq<Bet>, b: BetId) {
    && RowSum(DebitsFor(b), bank.ledger) == (if b < |bets| then 1 else 0)
    && RowSum(RefundsFor(b), bank.ledger) == (if b < |bets| && bets[b].status == Cancelled then 1 else 0)
  }

  // A user has one settlement row in a round exactly when they won there, and it pays what they won.
  ghost predicate CreditedOnce(bank: Bank, bets: seq<Bet>, r: RoundId, u: UserId) {
    && RowSum(CreditedFor(r, u), bank.ledger) == Sum(PaidTo(r, u), bets)
    && RowSum(CreditsFor(r, u), bank.ledger) == (if Sum(PaidTo(r, u), bets) > 0 then 1 else 0)
  }

  ghost predicate BetOk(bank: Bank, bet: Bet) {
    && ValidAmount(bet.stake)
    && bet.user in bank.wallets
    && bet.payout == (if bet.status == Won then bet.stake * WIN_PAYOUT_MULTIPLIER else 0)
  }

  // The rows the services write about bets say the truth about them.
  ghost predicate RowTrue(row: Row, bets: seq<Bet>) {
    && (IsStakeDebit(row) ==>
          && row.reference < |bets|
          && row.user == bets[row.reference].user
          && row.amount == bets[row.reference].stake
          && row.key == StakeDebit(row.reference, bets[row.reference].clientKey))
    && (IsRefund(row) ==>
          && row.reference < |bets|
          && row.user == bets[row.reference].user
          && row.amount == bets[row.reference].stake
          && (row.key == CancelRefund(bets[row.reference].round, row.reference) ||
              row.key == RecoveryRefund(bets[row.reference].round, row.reference)))
    && (IsSettlement(row) ==> row.key == SettlementCredit(row.reference, row.user))
  }

  ghost predicate BetsOk(bank: Bank, bets: seq<Bet>) {
    && (forall i :: 0 <= i < |bets| ==> BetOk(bank, bets[i]))
    && (forall i, j :: 0 <= i < j < |bets| ==> bets[i].clientKey != bets[j].clientKey)
    && (forall i :: 0 <= i < |bank.ledger| ==> RowTrue(bank.ledger[i], bets))
  }

  ghost predicate BooksOk(bank: Bank, bets: seq<Bet>) {
    && BankOk(bank)
    && BetsOk(bank, bets)
    && (forall u: UserId :: Conserved(bank, bets, u))
    && (forall b: BetId :: Receipted(bank, bets, b))
    && (forall r: RoundId, u: UserId :: CreditedOnce(bank, bets, r, u))
  }

  // ---------------------------------------------------------------- one posted movement

  predicate AboutGame(q: RowMeasure) {
    q.AdjustedFor? || q.DebitsFor? || q.RefundsFor? || q.CreditsFor? || q.CreditedFor?
  }

  lemma {:induction false} PostShifts(bank: Bank, m: Movement, q: RowMeasure)
    requires Post(bank, m).Moved? && AboutGame(q)
    ensures RowSum(q, Post(bank, m).bank.ledger) == RowSum(q, bank.ledger) + RowWeight(q, Post(bank, m).row)
  {
    PostAppendsOneRow(bank, m);
    var withOpening := if m.user in bank.wallets then bank.ledger else bank.ledger + [OpeningRow(m.user)];
    if m.user !in bank.wallets { RowSumAppend(q, bank.ledger, OpeningRow(m.user)); }
    RowSumAppend(q, withOpening, Post(bank, m).row);
  }

  lemma FreshMovesBalance(bank: Bank, m: Movement)
    requires m.user in bank.wallets && bank.wallets[m.user].deposit >= 0 && bank.wallets[m.user].winning >= 0
    requires m.amount > 0 && PostFresh(bank, m).Moved?
    ensures PostFresh(bank, m).bank.wallets[m.user].Total() ==
            bank.wallets[m.user].Total() + (if m.direction == Credit then m.amount else -m.amount)
  {
    DebitTakesDepositFirst(bank.wallets[m.user], m);
  }

  lemma PostMovesBalance(bank: Bank, m: Movement, u: UserId)
    requires Agrees(bank, m.user) && Post(bank, m).Moved?
    ensures Balance(Post(bank, m).bank, u) ==
            Balance(bank, u) + (if u != m.user then 0 else if m.direction == Credit then m.amount else -m.amount)
  {
    PostAppendsOneRow(bank, m);
    FreshMovesBalance(EnsureWallet(bank, m.user).value, m);
  }

  lemma PostKeepsRowsTrue(bank: Bank, m: Movement, bets: seq<Bet>, bets': seq<Bet>)
    requires Post(bank, m).Moved? && BetsOk(bank, bets)
    requires |bets| <= |bets'| && forall i :: 0 <= i < |bets| ==>
               bets'[i].user == bets[i].user && bets'[i].stake == bets[i].stake &&
               bets'[i].round == bets[i].round && bets'[i].clientKey == bets[i].clientKey
    requires RowTrue(Post(bank, m).row, bets')
    ensures forall i :: 0 <= i < |Post(bank, m).bank.ledger| ==> RowTrue(Post(bank, m).bank.ledger[i], bets')
  {
    PostAppendsOneRow(bank, m);
    var ledger' := Post(bank, m).bank.ledger;
    forall i | 0 <= i < |ledger'| ensures RowTrue(ledger'[i], bets') {
      if i < |bank.ledger| {
        assert ledger'[i] == bank.ledger[i];
        assert RowTrue(bank.ledger[i], bets);
      }
    }
  }

  // What one posted movement does to each part of the invariant, given what the bets table did.

  lemma PostConserves(bank: Bank, m: Movement, bets: seq<Bet>, bets': seq<Bet>, u: UserId)
    requires Agrees(bank, m.user) && Post(bank, m).Moved? && Conserved(bank, bets, u)
    requires Sum(Returned(u), bets') - Sum(Staked(u), bets') - Sum(Returned(u), bets) + Sum(Staked(u), bets) ==
             (if u != m.user || IsAdjustment(Post(bank, m).row) then 0 else Signed(Post(bank, m).row))
    ensures Conserved(Post(bank, m).bank, bets', u)
  {
    PostAppendsOneRow(bank, m);
    PostShifts(bank, m, AdjustedFor(u));
    PostMovesBalance(bank, m, u);
  }

  lemma PostReceipts(bank: Bank, m: Movement, bets: seq<Bet>, bets': seq<Bet>, b: BetId)
    requires Post(bank, m).Moved? && Receipted(bank, bets, b)
    requires (if b < |bets'| then 1 else 0) - (if b < |bets| then 1 else 0) == RowWeight(DebitsFor(b), Post(bank, m).row)
    requires (if b < |bets'| && bets'[b].status == Cancelled then 1 else 0) -
             (if b < |bets| && bets[b].status == Cancelled then 1 else 0) == RowWeight(RefundsFor(b), Post(bank, m).row)
    ensures Receipted(Post(bank, m).bank, bets', b)
  {
    PostShifts(bank, m, DebitsFor(b));
    PostShifts(bank, m, RefundsFor(b));
  }

  lemma PostCredits(bank: Bank, m: Movement, bets: seq<Bet>, bets': seq<Bet>, r: RoundId, u: UserId)
    requires Post(bank, m).Moved? && CreditedOnce(bank, bets, r, u)
    requires Sum(PaidTo(r, u), bets') == Sum(PaidTo(r, u), bets) + RowWeight(CreditedFor(r, u), Post(bank, m).row)
    requires RowWeight(CreditsFor(r, u), Post(bank, m).row) == 1 ==> m.amount > 0 && Sum(PaidTo(r, u), bets) == 0
    ensures CreditedOnce(Post(bank, m).bank, bets', r, u)
  {
    PostAppendsOneRow(bank, m);
    PostShifts(bank, m, CreditedFor(r, u));
    PostShifts(bank, m, CreditsFor(r, u));
  }

  lemma PostKeepsBets(bank: Bank, m: Movement, bets: seq<Bet>)
    requires Post(bank, m).Moved? && forall i :: 0 <= i < |bets| ==> BetOk(bank, bets[i])
    ensures forall i :: 0 <= i < |bets| ==> BetOk(Post(bank, m).bank, bets[i])
  {
    PostAppendsOneRow(bank, m);
    forall i | 0 <= i < |bets| ensures BetOk(Post(bank, m).bank, bets[i]) { assert BetOk(bank, bets[i]); }
  }

  // ---------------------------------------------------------------- wallets alone

  lemma OpeningKeepsParts(bank: Bank, bets: seq<Bet>, user: UserId, u: UserId, b: BetId, r: RoundId)
    requires user !in bank.wallets && EnsureWallet(bank, user).Some?
    requires Conserved(bank, bets, u) && Receipted(bank, bets, b) && CreditedOnce(bank, bets, r, u)
    ensures var bank' := EnsureWallet(bank, user).value;
            Conserved(bank', bets, u) && Receipted(bank', bets, b) && CreditedOnce(bank', bets, r, u)
  {
    var row := OpeningRow(user);
    RowSumAppend(AdjustedFor(u), bank.ledger, row);
    RowSumAppend(DebitsFor(b), bank.ledger, row);
    RowSumAppend(RefundsFor(b), bank.ledger, row);
    RowSumAppend(CreditedFor(r, u), bank.ledger, row);
    RowSumAppend(CreditsFor(r, u), bank.ledger, row);
  }

  lemma OpeningKeepsBets(bank: Bank, bets: seq<Bet>, user: UserId)
    requires BetsOk(bank, bets) && EnsureWallet(bank, user).Some?
    ensures BetsOk(EnsureWallet(bank, user).value, bets)
  {
    var bank' := EnsureWallet(bank, user).value;
    forall i | 0 <= i < |bets| ensures BetOk(bank', bets[i]) { assert BetOk(bank, bets[i]); }
    forall i | 0 <= i < |bank'.ledger| ensures RowTrue(bank'.ledger[i], bets) {
      if i < |bank.ledger| { assert RowTrue(bank.ledger[i], bets); }
    }
  }

  lemma OpeningKeepsBooks(bank: Bank, bets: seq<Bet>, user: UserId)
    requires BooksOk(bank, bets) && EnsureWallet(bank, user).Some?
    ensures BooksOk(EnsureWallet(bank, user).value, bets)
  {
    var bank' := EnsureWallet(bank, user).value;
    EnsureWalletKeepsBank(bank, user);
    OpeningKeepsBets(bank, bets, user);
    if user !in bank.wallets {
      forall u: UserId ensures Conserved(bank', bets, u) { OpeningKeepsParts(bank, bets, user, u, 0, 0); }
      forall b: BetId ensures Receipted(bank', bets, b) { OpeningKeepsParts(bank, bets, user, 0, b, 0); }
      forall r: RoundId, u: UserId ensures CreditedOnce(bank', bets, r, u) { OpeningKeepsParts(bank, bets, user, u, 0, r); }
    }
  }

  lemma ActivatingKeepsBooks(bank: Bank, bets: seq<Bet>, user: UserId, active: bool)
    requires BooksOk(bank, bets) && user in bank.wallets
    ensures BooksOk(bank.(wallets := bank.wallets[user := bank.wallets[user].(active := active)]), bets)
  {
    var bank' := bank.(wallets := bank.wallets[user := bank.wallets[user].(active := active)]);
    forall u: UserId ensures Agrees(bank', u) && Conserved(bank', bets, u) {
      assert Agrees(bank, u) && Conserved(bank, bets, u);
    }
    forall b: BetId ensures Receipted(bank', bets, b) { assert Receipted(bank, bets, b); }
    forall r: RoundId, u: UserId ensures CreditedOnce(bank', bets, r, u) { assert CreditedOnce(bank, bets, r, u); }
    assert forall i :: 0 <= i < |bets| ==> BetOk(bank, bets[i]) ==> BetOk(bank', bets[i]);
  }

  lemma AdjustingKeepsBooks(bank: Bank, bets: seq<Bet>, m: Movement)
    requires BooksOk(bank, bets) && Post(bank, m).Moved?
    requires m.kind == AdminAdjustment && m.referenceType == AdminAction
    ensures BooksOk(Post(bank, m).bank, bets)
  {
    var bank' := Post(bank, m).bank;
    PostKeepsBank(bank, m);
    PostAppendsOneRow(bank, m);
    PostKeepsRowsTrue(bank, m, bets, bets);
    PostKeepsBets(bank, m, bets);
    forall u: UserId ensures Conserved(bank', bets, u) { PostConserves(bank, m, bets, bets, u); }
    forall b: BetId ensures Receipted(bank', bets, b) { PostReceipts(bank, m, bets, bets, b); }
    forall r: RoundId, u: UserId ensures CreditedOnce(bank', bets, r, u) { PostCredits(bank, m, bets, bets, r, u); }
  }

  // ---------------------------------------------------------------- a bet and its debit

  function DebitMovement(bet: Bet, id: BetId): Movement {
    Movement(bet.user, BetDebit, Debit, BetReference, id, bet.stake, StakeDebit(id, bet.clientKey))
  }

  // The debit of a new bet cannot find an earlier debit of the same bet: replay is unreachable.
  lemma NewDebitIsNeverReplayed(bank: Bank, bets: seq<Bet>, bet: Bet)
    requires BooksOk(bank, bets)
    ensures !Post(bank, DebitMovement(bet, |bets|)).Replayed?
  {
    var m := DebitMovement(bet, |bets|);
    assert Receipted(bank, bets, |bets|);
    if Post(bank, m).Replayed? {
      CountCoversRow(DebitsFor(|bets|), bank.ledger, Post(bank, m).earlier);
    }
  }

  lemma BettingKeepsBets(bank: Bank, bets: seq<Bet>, bet: Bet)
    requires BetsOk(bank, bets)
    requires ValidAmount(bet.stake) && bet.status == Pending && bet.payout == 0 && !ClientKeyUsed(bets, bet.clientKey)
    requires Post(bank, DebitMovement(bet, |bets|)).Moved?
    ensures BetsOk(Post(bank, DebitMovement(bet, |bets|)).bank, bets + [bet])
  {
    var m := DebitMovement(bet, |bets|);
    PostAppendsOneRow(bank, m);
    PostKeepsRowsTrue(bank, m, bets, bets + [bet]);
    PostKeepsBets(bank, m, bets);
  }

  lemma BettingConserves(bank: Bank, bets: seq<Bet>, bet: Bet, u: UserId)
    requires bet.status == Pending && Agrees(bank, bet.user) && Conserved(bank, bets, u)
    requires Post(bank, DebitMovement(bet, |bets|)).Moved?
    ensures Conserved(Post(bank, DebitMovement(bet, |bets|)).bank, bets + [bet], u)
  {
    PostAppendsOneRow(bank, DebitMovement(bet, |bets|));
    SumAppend(Staked(u), bets, bet);
    SumAppend(Returned(u), bets, bet);
    PostConserves(bank, DebitMovement(bet, |bets|), bets, bets + [bet], u);
  }

  lemma BettingCredits(bank: Bank, bets: seq<Bet>, bet: Bet, r: RoundId, u: UserId)
    requires bet.status == Pending && CreditedOnce(bank, bets, r, u)
    requires Post(bank, DebitMovement(bet, |bets|)).Moved?
    ensures CreditedOnce(Post(bank, DebitMovement(bet, |bets|)).bank, bets + [bet], r, u)
  {
    PostAppendsOneRow(bank, DebitMovement(bet, |bets|));
    SumAppend(PaidTo(r, u), bets, bet);
    PostCredits(bank, DebitMovement(bet, |bets|), bets, bets + [bet], r, u);
  }

  lemma BettingKeepsBooks(bank: Bank, bets: seq<Bet>, bet: Bet)
    requires BooksOk(bank, bets)
    requires ValidAmount(bet.stake) && bet.status == Pending && bet.payout == 0 && !ClientKeyUsed(bets, bet.clientKey)
    requires Post(bank, DebitMovement(bet, |bets|)).Moved?
    ensures BooksOk(Post(bank, DebitMovement(bet, |bets|)).bank, bets + [bet])
  {
    var m := DebitMovement(bet, |bets|);
    var bank', bets' := Post(bank, m).bank, bets + [bet];
    PostKeepsBank(bank, m);
    PostAppendsOneRow(bank, m);
    BettingKeepsBets(bank, bets, bet);
    forall u: UserId ensures Conserved(bank', bets', u) { BettingConserves(bank, bets, bet, u); }
    forall b: BetId ensures Receipted(bank', bets', b) { PostReceipts(bank, m, bets, bets', b); }
    forall r: RoundId, u: UserId ensures CreditedOnce(bank', bets', r, u) { BettingCredits(bank, bets, bet, r, u); }
  }

  // ---------------------------------------------------------------- refunds

  // A pending bet has no refund row, so its refund is never taken for a replay, under either key.
  lemma PendingRefundIsNeverReplayed(bank: Bank, bets: seq<Bet>, id: BetId, recovery: bool)
    requires BooksOk(bank, bets) && id < |bets| && bets[id].status == Pending
    ensures !Post(bank, RefundMovement(bets[id], id, recovery)).Replayed?
  {
    var m := RefundMovement(bets[id], id, recovery);
    assert Receipted(bank, bets, id);
    if Post(bank, m).Replayed? {
      CountCoversRow(RefundsFor(id), bank.ledger, Post(bank, m).earlier);
    }
  }

  function CancelBet(bet: Bet): Bet { bet.(status := Cancelled, payout := 0) }

  lemma RefundKeepsBets(bank: Bank, bets: seq<Bet>, id: BetId, recovery: bool)
    requires BetsOk(bank, bets) && id < |bets| && bets[id].status == Pending
    requires Post(bank, RefundMovement(bets[id], id, recovery)).Moved?
    ensures BetsOk(Post(bank, RefundMovement(bets[id], id, recovery)).bank, bets[id := CancelBet(bets[id])])
  {
    var m := RefundMovement(bets[id], id, recovery);
    PostAppendsOneRow(bank, m);
    PostKeepsRowsTrue(bank, m, bets, bets[id := CancelBet(bets[id])]);
    PostKeepsBets(bank, m, bets);
    assert BetOk(bank, bets[id]);
  }

  lemma RefundConserves(bank: Bank, bets: seq<Bet>, id: BetId, recovery: bool, u: UserId)
    requires id < |bets| && bets[id].status == Pending && Agrees(bank, bets[id].user) && Conserved(bank, bets, u)
    requires Post(bank, RefundMovement(bets[id], id, recovery)).Moved?
    ensures Conserved(Post(bank, RefundMovement(bets[id], id, recovery)).bank, bets[id := CancelBet(bets[id])], u)
  {
    var m, after := RefundMovement(bets[id], id, recovery), CancelBet(bets[id]);
    PostAppendsOneRow(bank, m);
    SumUpdate(Staked(u), bets, id, after);
    SumUpdate(Returned(u), bets, id, after);
    PostConserves(bank, m, bets, bets[id := after], u);
  }

  lemma RefundReceipts(bank: Bank, bets: seq<Bet>, id: BetId, recovery: bool, b: BetId)
    requires id < |bets| && bets[id].status == Pending && Receipted(bank, bets, b)
    requires Post(bank, RefundMovement(bets[id], id, recovery)).Moved?
    ensures Receipted(Post(bank, RefundMovement(bets[id], id, recovery)).bank, bets[id := CancelBet(bets[id])], b)
  {
    PostAppendsOneRow(bank, RefundMovement(bets[id], id, recovery));
    PostReceipts(bank, RefundMovement(bets[id], id, recovery), bets, bets[id := CancelBet(bets[id])], b);
  }

  lemma RefundCredits(bank: Bank, bets: seq<Bet>, id: BetId, recovery: bool, r: RoundId, u: UserId)
    requires id < |bets| && bets[id].status == Pending && CreditedOnce(bank, bets, r, u)
    requires Post(bank, RefundMovement(bets[id], id, recovery)).Moved?
    ensures CreditedOnce(Post(bank, RefundMovement(bets[id], id, recovery)).bank, bets[id := CancelBet(bets[id])], r, u)
  {
    var m, after := RefundMovement(bets[id], id, recovery), CancelBet(bets[id]);
    PostAppendsOneRow(bank, m);
    SumUpdate(PaidTo(r, u), bets, id, after);
    PostCredits(bank, m, bets, bets[id := after], r, u);
  }

  lemma RefundKeepsBooks(bank: Bank, bets: seq<Bet>, id: BetId, recovery: bool)
    requires BooksOk(bank, bets) && id < |bets| && bets[id].status == Pending
    requires RefundOne(Books(bank, bets), id, recovery).Some?
    ensures var b := RefundOne(Books(bank, bets), id, recovery).value;
            BooksOk(b.bank, b.bets) && b.bets == bets[id := CancelBet(bets[id])]
  {
    var m := RefundMovement(bets[id], id, recovery);
    PendingRefundIsNeverReplayed(bank, bets, id, recovery);
    var bank', bets' := Post(bank, m).bank, bets[id := CancelBet(bets[id])];
    PostKeepsBank(bank, m);
    RefundKeepsBets(bank, bets, id, recovery);
    forall u: UserId ensures Conserved(bank', bets', u) { RefundConserves(bank, bets, id, recovery, u); }
    forall b: BetId ensures Receipted(bank', bets', b) { RefundReceipts(bank, bets, id, recovery, b); }
    forall r: RoundId, u: UserId ensures CreditedOnce(bank', bets', r, u) { RefundCredits(bank, bets, id, recovery, r, u); }
  }

  // Exactly the listed bets change, each from pending to cancelled.
  ghost predicate CancelsExactly(bets: seq<Bet>, bets': seq<Bet>, order: seq<BetId>) {
    && |bets'| == |bets|
    && forall b: BetId :: b < |bets| ==>
         bets'[b] == (if b in order then CancelBet(bets[b]) else bets[b])
  }

  ghost predicate DistinctPending(bets: seq<Bet>, order: seq<BetId>) {
    && (forall i, j :: 0 <= i < j < |order| ==> order[i] != order[j])
    && (forall i :: 0 <= i < |order| ==> order[i] < |bets| && bets[order[i]].status == Pending)
  }

  lemma CancelOneMore(bets: seq<Bet>, earlier: seq<Bet>, order: seq<BetId>, id: BetId)
    requires CancelsExactly(bets, earlier, order) && id < |bets| && DistinctPending(bets, order + [id])
    ensures earlier[id] == bets[id]
    ensures CancelsExactly(bets, earlier[id := CancelBet(bets[id])], order + [id])
  {
    var all := order + [id];
    assert all[|order|] == id;
    forall i | 0 <= i < |order| ensures order[i] != id { assert all[i] == order[i]; }
  }

  lemma PrefixIsDistinctPending(bets: seq<Bet>, order: seq<BetId>)
    requires DistinctPending(bets, order) && |order| > 0
    ensures DistinctPending(bets, order[..|order| - 1])
  {
    var prefix := order[..|order| - 1];
    assert forall i :: 0 <= i < |prefix| ==> prefix[i] == order[i];
  }

  lemma RefundingOneMore(bets: seq<Bet>, earlier: Books, order: seq<BetId>, id: BetId, recovery: bool)
    requires BooksOk(earlier.bank, earlier.bets) && CancelsExactly(bets, earlier.bets, order)
    requires id < |bets| && DistinctPending(bets, order + [id]) && RefundOne(earlier, id, recovery).Some?
    ensures var after := RefundOne(earlier, id, recovery).value;
            BooksOk(after.bank, after.bets) && CancelsExactly(bets, after.bets, order + [id])
  {
    assert (order + [id])[|order|] == id;
    CancelOneMore(bets, earlier.bets, order, id);
    RefundKeepsBooks(earlier.bank, earlier.bets, id, recovery);
    assert earlier == Books(earlier.bank, earlier.bets);
  }

  lemma {:induction false} RefundingEachKeepsBooks(books: Books, order: seq<BetId>, recovery: bool)
    requires BooksOk(books.bank, books.bets) && DistinctPending(books.bets, order)
    requires RefundEach(books, order, recovery).Some?
    ensures BooksOk(RefundEach(books, order, recovery).value.bank, RefundEach(books, order, recovery).value.bets)
    ensures CancelsExactly(books.bets, RefundEach(books, order, recovery).value.bets, order)
  {
    if |order| > 0 {
      var prefix, last := order[..|order| - 1], order[|order| - 1];
      assert order == prefix + [last];
      PrefixIsDistinctPending(books.bets, order);
      RefundingEachKeepsBooks(books, prefix, recovery);
      var earlier := RefundEach(books, prefix, recovery).value;
      RefundingOneMore(books.bets, earlier, prefix, last, recovery);
    }
  }

  // ---------------------------------------------------------------- settlement

  lemma LosersKeepBooks(bank: Bank, bets: seq<Bet>, r: RoundId, result: Color)
    requires BooksOk(bank, bets)
    ensures BooksOk(bank, MarkLosers(bets, r, result))
  {
    var bets' := MarkLosers(bets, r, result);
    forall u: UserId ensures Conserved(bank, bets', u) {
      assert Conserved(bank, bets, u);
      SumSame(Staked(u), bets', bets);
      SumSame(Returned(u), bets', bets);
    }
    forall b: BetId ensures Receipted(bank, bets', b) { assert Receipted(bank, bets, b); }
    forall q: RoundId, u: UserId ensures CreditedOnce(bank, bets', q, u) {
      assert CreditedOnce(bank, bets, q, u);
      SumSame(PaidTo(q, u), bets', bets);
    }
    assert forall i :: 0 <= i < |bets| ==> BetOk(bank, bets[i]) ==> BetOk(bank, bets'[i]);
    forall i | 0 <= i < |bank.ledger| ensures RowTrue(bank.ledger[i], bets') { assert RowTrue(bank.ledger[i], bets); }
  }

  lemma WinnerShiftsSums(bets: seq<Bet>, r: RoundId, result: Color, user: UserId, q: RoundId, u: UserId)
    requires forall i :: 0 <= i < |bets| ==> bets[i].status == Pending ==> bets[i].payout == 0
    ensures var bets' := MarkWinner(bets, r, result, user);
            && Sum(Staked(u), bets') == Sum(Staked(u), bets)
            && Sum(Returned(u), bets') == Sum(Returned(u), bets) + (if u == user then Sum(Due(r, result, user), bets) else 0)
            && Sum(PaidTo(q, u), bets') ==
               Sum(PaidTo(q, u), bets) + (if u == user && q == r then Sum(Due(r, result, user), bets) else 0)
  {
    var bets' := MarkWinner(bets, r, result, user);
    SumSame(Staked(u), bets', bets);
    SumShift(Returned(u), bets', Returned(u), Due(r, result, user), bets, if u == user then 1 else 0);
    SumShift(PaidTo(q, u), bets', PaidTo(q, u), Due(r, result, user), bets, if u == user && q == r then 1 else 0);
  }

  lemma BetsArePositive(bank: Bank, bets: seq<Bet>)
    requires BetsOk(bank, bets)
    ensures Positive(bets)
  {
    forall i | 0 <= i < |bets| ensures bets[i].stake > 0 && bets[i].payout >= 0 { assert BetOk(bank, bets[i]); }
  }

  lemma DueCountsWins(bank: Bank, bets: seq<Bet>, r: RoundId, result: Color, user: UserId)
    requires BetsOk(bank, bets)
    ensures Sum(PendingWins(r, result, user), bets) == 0 <==> Sum(Due(r, result, user), bets) == 0
    ensures Sum(Due(r, result, user), bets) >= 0
  {
    BetsArePositive(bank, bets);
    ZeroSumMeansNone(PendingWins(r, result, user), bets);
    ZeroSumMeansNone(Due(r, result, user), bets);
    SumCoversBet(Due(r, result, user), bets, 0);
    assert forall i :: 0 <= i < |bets| ==>
      (Weight(PendingWins(r, result, user), bets[i]) == 0 <==> Weight(Due(r, result, user), bets[i]) == 0);
  }

  lemma PendingWinnerHasWallet(bank: Bank, bets: seq<Bet>, r: RoundId, result: Color, user: UserId)
    requires BetsOk(bank, bets) && Sum(PendingWins(r, result, user), bets) != 0
    ensures user in bank.wallets && Sum(Due(r, result, user), bets) > 0
  {
    BetsArePositive(bank, bets);
    ZeroSumMeansNone(PendingWins(r, result, user), bets);
    var i :| 0 <= i < |bets| && Weight(PendingWins(r, result, user), bets[i]) != 0;
    assert BetOk(bank, bets[i]);
    DueCountsWins(bank, bets, r, result, user);
  }

  // While a user still has pending winners nobody credited them, the credit is never taken for a replay.
  lemma PendingCreditIsNeverReplayed(bank: Bank, bets: seq<Bet>, r: RoundId, user: UserId, amount: int)
    requires BooksOk(bank, bets) && Sum(PaidTo(r, user), bets) == 0
    ensures !Post(bank, CreditMovement(r, user, amount)).Replayed?
  {
    var m := CreditMovement(r, user, amount);
    assert CreditedOnce(bank, bets, r, user);
    if Post(bank, m).Replayed? {
      CountCoversRow(CreditsFor(r, user), bank.ledger, Post(bank, m).earlier);
    }
  }

  lemma WinnerKeepsBets(bank: Bank, bets: seq<Bet>, r: RoundId, result: Color, user: UserId, amount: int)
    requires BetsOk(bank, bets) && Post(bank, CreditMovement(r, user, amount)).Moved?
    ensures BetsOk(Post(bank, CreditMovement(r, user, amount)).bank, MarkWinner(bets, r, result, user))
  {
    var m := CreditMovement(r, user, amount);
    var bets' := MarkWinner(bets, r, result, user);
    PostAppendsOneRow(bank, m);
    PostKeepsRowsTrue(bank, m, bets, bets');
    PostKeepsBets(bank, m, bets);
    forall i | 0 <= i < |bets| ensures BetOk(Post(bank, m).bank, bets'[i]) { assert BetOk(Post(bank, m).bank, bets[i]); }
  }

  lemma WinnerConserves(bank: Bank, bets: seq<Bet>, r: RoundId, result: Color, user: UserId, u: UserId)
    requires Agrees(bank, user) && Conserved(bank, bets, u)
    requires forall i :: 0 <= i < |bets| ==> bets[i].status == Pending ==> bets[i].payout == 0
    requires Post(bank, CreditMovement(r, user, Sum(Due(r, result, user), bets))).Moved?
    ensures Conserved(Post(bank, CreditMovement(r, user, Sum(Due(r, result, user), bets))).bank, MarkWinner(bets, r, result, user), u)
  {
    var m := CreditMovement(r, user, Sum(Due(r, result, user), bets));
    PostAppendsOneRow(bank, m);
    WinnerShiftsSums(bets, r, result, user, r, u);
    PostConserves(bank, m, bets, MarkWinner(bets, r, result, user), u);
  }

  lemma WinnerReceipts(bank: Bank, bets: seq<Bet>, r: RoundId, result: Color, user: UserId, amount: int, b: BetId)
    requires Receipted(bank, bets, b) && Post(bank, CreditMovement(r, user, amount)).Moved?
    ensures Receipted(Post(bank, CreditMovement(r, user, amount)).bank, MarkWinner(bets, r, result, user), b)
  {
    PostAppendsOneRow(bank, CreditMovement(r, user, amount));
    PostReceipts(bank, CreditMovement(r, user, amount), bets, MarkWinner(bets, r, result, user), b);
  }

  lemma WinnerCredits(bank: Bank, bets: seq<Bet>, r: RoundId, result: Color, user: UserId, q: RoundId, u: UserId)
    requires Sum(PaidTo(r, user), bets) == 0 && CreditedOnce(bank, bets, q, u)
    requires forall i :: 0 <= i < |bets| ==> bets[i].status == Pending ==> bets[i].payout == 0
    requires Post(bank, CreditMovement(r, user, Sum(Due(r, result, user), bets))).Moved?
    ensures CreditedOnce(Post(bank, CreditMovement(r, user, Sum(Due(r, result, user), bets))).bank, MarkWinner(bets, r, result, user), q, u)
  {
    var m := CreditMovement(r, user, Sum(Due(r, result, user), bets));
    PostAppendsOneRow(bank, m);
    WinnerShiftsSums(bets, r, result, user, q, u);
    PostCredits(bank, m, bets, MarkWinner(bets, r, result, user), q, u);
  }

  lemma WinnerKeepsBooks(bank: Bank, bets: seq<Bet>, r: RoundId, result: Color, user: UserId)
    requires BooksOk(bank, bets) && Sum(PaidTo(r, user), bets) == 0
    requires Post(bank, CreditMovement(r, user, Sum(Due(r, result, user), bets))).Moved?
    ensures BooksOk(Post(bank, CreditMovement(r, user, Sum(Due(r, result, user), bets))).bank, MarkWinner(bets, r, result, user))
  {
    var m := CreditMovement(r, user, Sum(Due(r, result, user), bets));
    var bank', bets' := Post(bank, m).bank, MarkWinner(bets, r, result, user);
    PostKeepsBank(bank, m);
    WinnerKeepsBets(bank, bets, r, result, user, m.amount);
    forall i | 0 <= i < |bets| ensures bets[i].status == Pending ==> bets[i].payout == 0 { assert BetOk(bank, bets[i]); }
    forall u: UserId ensures Conserved(bank', bets', u) { WinnerConserves(bank, bets, r, result, user, u); }
    forall b: BetId ensures Receipted(bank', bets', b) { WinnerReceipts(bank, bets, r, result, user, m.amount, b); }
    forall q: RoundId, u: UserId ensures CreditedOnce(bank', bets', q, u) { WinnerCredits(bank, bets, r, result, user, q, u); }
  }
}
