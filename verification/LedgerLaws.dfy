// Wallet snapshot and ledger tell the same story after every movement.
module LedgerLaws {
  import opened Types
  import opened Ledger

  lemma {:induction false} NoRowsNoTrace(ledger: seq<Row>, user: UserId)
    requires RowSum(RowsOf(user), ledger) == 0
    ensures forall i :: 0 <= i < |ledger| ==> ledger[i].user != user
    ensures LastAfter(ledger, user) == 0
    ensures RowSum(NetOf(user), ledger) == RowSum(SuccessesOf(user), ledger) == RowSum(AdjustedFor(user), ledger) == 0
  {
    if |ledger| > 0 {
      CountCoversRow(RowsOf(user), ledger, ledger[|ledger| - 1]);
      CountCoversRow(RowsOf(user), ledger[..|ledger| - 1], ledger[|ledger| - 1]);
      NoRowsNoTrace(ledger[..|ledger| - 1], user);
    }
  }

  lemma AppendKeepsOthers(rows: seq<Row>, row: Row, user: UserId)
    requires row.user != user
    ensures LastAfter(rows + [row], user) == LastAfter(rows, user)
    ensures RowSum(NetOf(user), rows + [row]) == RowSum(NetOf(user), rows)
    ensures RowSum(SuccessesOf(user), rows + [row]) == RowSum(SuccessesOf(user), rows)
    ensures RowSum(RowsOf(user), rows + [row]) == RowSum(RowsOf(user), rows)
    ensures RowSum(AdjustedFor(user), rows + [row]) == RowSum(AdjustedFor(user), rows)
  {
    assert (rows + [row])[..|rows|] == rows;
  }

  lemma AppendKeepsShape(rows: seq<Row>, row: Row)
    requires KeysUnique(rows) && Chained(rows)
    requires FindRow(rows, row.key).None?
    requires RowAdds(row) && row.before == LastAfter(rows, row.user)
    ensures KeysUnique(rows + [row]) && Chained(rows + [row])
  {
    var all := rows + [row];
    forall i | 0 <= i < |all|
      ensures RowAdds(all[i]) && all[i].before == LastAfter(all[..i], all[i].user)
    {
      assert all[..i] == rows[..i];
      if i == |rows| { assert rows[..i] == rows; }
    }
  }

  // One user's wallet row changes exactly as the appended ledger row says.
  lemma AppendKeepsBank(bank: Bank, after: Wallet, row: Row)
    requires BankOk(bank)
    requires FindRow(bank.ledger, row.key).None?
    requires RowAdds(row) && row.before == LastAfter(bank.ledger, row.user)
    requires after.deposit >= 0 && after.winning >= 0 && after.Total() == row.after
    requires row.user in bank.wallets ==>
               after.version == bank.wallets[row.user].version + (if row.status == Success then 1 else 0)
    requires row.user !in bank.wallets ==> after.version == 0 && row.status == Success
    ensures BankOk(Bank(bank.wallets[row.user := after], bank.ledger + [row]))
  {
    var bank' := Bank(bank.wallets[row.user := after], bank.ledger + [row]);
    AppendKeepsShape(bank.ledger, row);
    forall u: UserId ensures Agrees(bank', u) {
      assert Agrees(bank, u);
      if u == row.user {
        if u !in bank.wallets { NoRowsNoTrace(bank.ledger, u); }
        RowSumAppend(NetOf(u), bank.ledger, row);
        RowSumAppend(SuccessesOf(u), bank.ledger, row);
        assert bank'.ledger[..|bank.ledger|] == bank.ledger;
      } else {
        AppendKeepsOthers(bank.ledger, row, u);
      }
    }
  }

  lemma EnsureWalletKeepsBank(bank: Bank, user: UserId)
    requires BankOk(bank) && EnsureWallet(bank, user).Some?
    ensures BankOk(EnsureWallet(bank, user).value)
  {
    assert Agrees(bank, user);
    if user !in bank.wallets {
      NoRowsNoTrace(bank.ledger, user);
      AppendKeepsBank(bank, Wallet(INITIAL_VIRTUAL_COINS, 0, 0, true), OpeningRow(user));
    }
  }

  // A debit is refused exactly when it exceeds both pots together; it spends the deposit pot first, and
  // winnings pay only what the deposit pot could not. A credit never fails and lands in one pot.
  lemma DebitTakesDepositFirst(w: Wallet, m: Movement)
    requires m.amount > 0 && w.deposit >= 0 && w.winning >= 0
    ensures NextBalances(w, m).None? <==> m.direction == Debit && m.amount > w.Total()
    ensures NextBalances(w, m).Some? ==>
              var n := NextBalances(w, m).value;
              && n.deposit >= 0
              && n.winning >= 0
              && n.Total() == w.Total() + (if m.direction == Credit then m.amount else -m.amount)
              && (m.direction == Debit ==> n.deposit <= w.deposit && n.winning <= w.winning)
              && (m.direction == Debit && n.winning != w.winning ==> n.deposit == 0)
              && (m.direction == Credit ==> (n.deposit == w.deposit <==> m.kind == BetWinCredit))
              && (m.direction == Credit ==> (n.winning == w.winning <==> m.kind != BetWinCredit))
              && n.version == w.version && n.active == w.active
  {
  }

  // The wallet a movement would act on: the user's own, or the one opened for it on the way.
  function WalletFor(bank: Bank, user: UserId): Wallet {
    if user in bank.wallets then bank.wallets[user] else Wallet(1000, 0, 0, true)
  }

  // Every answer of a movement inside a transaction, and exactly when it is given.
  lemma MovementAnswers(bank: Bank, m: Movement)
    requires Agrees(bank, m.user)
    ensures var w := WalletFor(bank, m.user);
            var found := FindRow(bank.ledger, m.key);
            var opens := m.user in bank.wallets || (FindRow(bank.ledger, InitialCoins(m.user)).None? && m.key != InitialCoins(m.user));
            Post(bank, m) ==
              if !(0 < m.amount <= 9_007_199_254_740_991) then Refused(InvalidAmount)
              else if found.Some? then
                if found.value.user != m.user || found.value.kind != m.kind || found.value.direction != m.direction ||
                   found.value.amount != m.amount || found.value.reference != m.reference || found.value.referenceType != m.referenceType
                then Refused(KeyConflict)
                else if found.value.status == Failed then Refused(PreviousOperationFailed)
                else Replayed(found.value)
              else if !opens then Refused(UniqueViolation)
              else if !w.active then Refused(WalletNotActive)
              else if KeyLength(m.key) > 160 then Refused(KeyTooLong)
              else if m.direction == Debit && m.amount > w.deposit + w.winning then Refused(InsufficientFunds)
              else Moved(Post(bank, m).bank, Post(bank, m).row)
  {
    var ensured := EnsureWallet(bank, m.user);
    if ValidAmount(m.amount) && FindRow(bank.ledger, m.key).None? && ensured.Some? {
      KeyAfterOpening(bank, m.user, m.key);
      DebitTakesDepositFirst(ensured.value.wallets[m.user], m);
    }
  }

  lemma KeyAfterOpening(bank: Bank, user: UserId, key: Key)
    requires EnsureWallet(bank, user).Some? && FindRow(bank.ledger, key).None?
    ensures FindRow(EnsureWallet(bank, user).value.ledger, key).None? <==> user in bank.wallets || key != InitialCoins(user)
  {
    if user !in bank.wallets {
      var ledger := EnsureWallet(bank, user).value.ledger;
      assert ledger[|bank.ledger|].key == InitialCoins(user);
    }
  }

  // With a free key the stand-alone form answers like the other; a debit that exceeds both pots commits a
  // FAILED row with the balance as it was, and every other refusal commits nothing.
  lemma StandAloneAnswers(bank: Bank, m: Movement)
    requires Agrees(bank, m.user) && ValidAmount(m.amount) && FindRow(bank.ledger, m.key).None?
    ensures var (after, result) := PostAlone(bank, m);
            && result == Post(bank, m)
            && (result.Moved? ==> after == result.bank)
            && (result.Refused? && result.error != InsufficientFunds ==> after == bank)
            && (result == Refused(InsufficientFunds) ==>
                  var w := WalletFor(bank, m.user);
                  && after.wallets == bank.wallets[m.user := w]
                  && after.ledger == (if m.user in bank.wallets then bank.ledger else bank.ledger + [OpeningRow(m.user)]) +
                                     [Row(m.user, m.kind, m.direction, m.amount, w.deposit + w.winning, w.deposit + w.winning,
                                          m.key, m.referenceType, m.reference, Failed)])
  {
    assert m.user in bank.wallets ==> bank.wallets[m.user := bank.wallets[m.user]] == bank.wallets;
  }

  // What a movement that went through wrote down, and what it did to the pots.
  lemma MovementEffect(bank: Bank, m: Movement)
    requires Agrees(bank, m.user) && Post(bank, m).Moved?
    ensures var w := WalletFor(bank, m.user);
            var w' := Post(bank, m).bank.wallets[m.user];
            var row := Post(bank, m).row;
            && m.user in Post(bank, m).bank.wallets
            && row == Row(m.user, m.kind, m.direction, m.amount, w.deposit + w.winning, w'.deposit + w'.winning,
                          m.key, m.referenceType, m.reference, Success)
            && w'.version == w.version + 1 && w'.active == w.active
            && (m.direction == Credit ==>
                  if m.kind == BetWinCredit then w'.deposit == w.deposit && w'.winning == w.winning + m.amount
                  else w'.deposit == w.deposit + m.amount && w'.winning == w.winning)
            && (m.direction == Debit ==>
                  if m.amount <= w.deposit then w'.deposit == w.deposit - m.amount && w'.winning == w.winning
                  else w'.deposit == 0 && w'.winning == w.winning - (m.amount - w.deposit))
  {
  }

  lemma PostFreshKeepsBank(bank: Bank, m: Movement)
    requires BankOk(bank) && m.user in bank.wallets && m.amount > 0
    ensures PostFresh(bank, m).Moved? ==> BankOk(PostFresh(bank, m).bank)
  {
    assert Agrees(bank, m.user);
    var result := PostFresh(bank, m);
    if result.Moved? {
      DebitTakesDepositFirst(bank.wallets[m.user], m);
      AppendKeepsBank(bank, result.bank.wallets[m.user], result.row);
    }
  }

  lemma PostKeepsBank(bank: Bank, m: Movement)
    requires BankOk(bank)
    ensures Post(bank, m).Moved? ==> BankOk(Post(bank, m).bank)
  {
    if Post(bank, m).Moved? {
      EnsureWalletKeepsBank(bank, m.user);
      PostFreshKeepsBank(EnsureWallet(bank, m.user).value, m);
    }
  }

  // The stand-alone form keeps the agreement too, even when it commits a FAILED row.
  lemma PostAloneKeepsBank(bank: Bank, m: Movement)
    requires BankOk(bank) && ValidAmount(m.amount)
    ensures BankOk(PostAlone(bank, m).0)
  {
    var ensured := EnsureWallet(bank, m.user);
    if ensured.Some? {
      EnsureWalletKeepsBank(bank, m.user);
      PostFreshKeepsBank(ensured.value, m);
      assert Agrees(ensured.value, m.user);
      if PostFresh(ensured.value, m) == Refused(InsufficientFunds) {
        var w := ensured.value.wallets[m.user];
        AppendKeepsBank(ensured.value, w, MakeRow(m, w.Total(), w.Total(), Failed));
        assert ensured.value.wallets[m.user := w] == ensured.value.wallets;
      }
    }
  }

  // A posted movement is the last row of the ledger, under a key that was free; the balance it starts
  // from is the wallet's, or the opening coins of a wallet created on the way.
  lemma PostAppendsOneRow(bank: Bank, m: Movement)
    requires Post(bank, m).Moved?
    ensures var b := Post(bank, m).bank;
            var row := Post(bank, m).row;
            && FindRow(bank.ledger, m.key).None?
            && SameOperation(row, m) && row.key == m.key && row.status == Success
            && b.ledger == (if m.user in bank.wallets then bank.ledger else bank.ledger + [OpeningRow(m.user)]) + [row]
            && b.wallets.Keys == bank.wallets.Keys + {m.user}
            && (forall u :: u in bank.wallets && u != m.user ==> b.wallets[u] == bank.wallets[u])
  {
  }

  // An invariant of the chain in plain terms: the next row of a user starts where the previous one ended.
  lemma {:induction false} LastAfterIsLatest(ledger: seq<Row>, user: UserId, i: nat)
    requires i < |ledger| && ledger[i].user == user
    requires forall k :: i < k < |ledger| ==> ledger[k].user != user
    ensures LastAfter(ledger, user) == ledger[i].after
  {
    if i < |ledger| - 1 {
      LastAfterIsLatest(ledger[..|ledger| - 1], user, i);
    }
  }

  lemma NeighbouringRowsChain(bank: Bank, i: nat, j: nat)
    requires BankOk(bank)
    requires i < j < |bank.ledger| && bank.ledger[i].user == bank.ledger[j].user
    requires forall k :: i < k < j ==> bank.ledger[k].user != bank.ledger[i].user
    ensures bank.ledger[j].before == bank.ledger[i].after
  {
    LastAfterIsLatest(bank.ledger[..j], bank.ledger[j].user, i);
  }

  // ---------------------------------------------------------------- runs of stand-alone movements

  function RunMovements(bank: Bank, movements: seq<Movement>): Bank {
    if |movements| == 0 then bank
    else
      var earlier := RunMovements(bank, movements[..|movements| - 1]);
      PostAlone(earlier, movements[|movements| - 1]).0
  }

  lemma {:induction false} EveryRunAgrees(bank: Bank, movements: seq<Movement>)
    requires BankOk(bank) && forall m <- movements :: ValidAmount(m.amount)
    ensures BankOk(RunMovements(bank, movements))
  {
    if |movements| > 0 {
      EveryRunAgrees(bank, movements[..|movements| - 1]);
      PostAloneKeepsBank(RunMovements(bank, movements[..|movements| - 1]), movements[|movements| - 1]);
    }
  }

  // Whatever else happens in between, one key moves money at most once.
  lemma OneKeyMovesOnce(bank: Bank, key: Key)
    requires BankOk(bank)
    ensures forall i, j | 0 <= i < |bank.ledger| && 0 <= j < |bank.ledger| ::
              bank.ledger[i].key == key == bank.ledger[j].key ==> i == j
    ensures FindRow(bank.ledger, key).Some? ==>
              forall m: Movement :: m.key == key ==> !Post(bank, m).Moved? && PostAlone(bank, m).1.Refused?
  {
    if FindRow(bank.ledger, key).Some? {
      forall m: Movement | m.key == key ensures !Post(bank, m).Moved? && PostAlone(bank, m).1.Refused? { TakenKeyMovesNothing(bank, m); }
    }
  }

  lemma TakenKeyMovesNothing(bank: Bank, m: Movement)
    requires FindRow(bank.ledger, m.key).Some?
    ensures !Post(bank, m).Moved? && PostAlone(bank, m).1.Refused?
  {
    var ensured := EnsureWallet(bank, m.user);
    if ensured.Some? {
      var i :| 0 <= i < |bank.ledger| && bank.ledger[i].key == m.key;
      assert ensured.value.ledger[i].key == m.key;
    }
  }
}
