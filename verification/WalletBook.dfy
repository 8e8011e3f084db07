// The wallet service over its two tables, wallets and coin_ledger.
module WalletBook {
  import opened Types
  import opened Ledger
  import opened LedgerLaws

  class Book {
    var wallets: map<UserId, Wallet>
    var ledger: seq<Row>

    function Contents(): Bank
      reads this
    {
      Bank(wallets, ledger)
    }

    constructor ()
      ensures Contents() == Bank(map[], [])
    {
      wallets, ledger := map[], [];
    }

    // What a transaction that rolls back does.
    method Restore(bank: Bank)
      modifies this
      ensures Contents() == bank
    {
      wallets, ledger := bank.wallets, bank.ledger;
    }

    method FindLedgerByKey(key: Key) returns (found: Option<Row>)
      ensures found == FindRow(ledger, key)
    {
      found := None;
      var i := 0;
      while i < |ledger|
        invariant 0 <= i <= |ledger|
        invariant found == FindRow(ledger[..i], key)
      {
        assert ledger[..i + 1][..i] == ledger[..i];
        if ledger[i].key == key { found := Some(ledger[i]); }
        i := i + 1;
      }
      assert ledger[..i] == ledger;
    }

    // createLedgerEntry; false is the unique constraint on the key, or a key too long for its column.
    method InsertRow(row: Row) returns (error: Option<Error>)
      modifies this`ledger
      ensures error == (if FindRow(old(ledger), row.key).Some? then Some(UniqueViolation)
                        else if KeyLength(row.key) > KEY_COLUMN_LENGTH then Some(KeyTooLong)
                        else None)
      ensures ledger == if error.None? then old(ledger) + [row] else old(ledger)
    {
      var found := FindLedgerByKey(row.key);
      if found.Some? { return Some(UniqueViolation); }
      if KeyLength(row.key) > KEY_COLUMN_LENGTH { return Some(KeyTooLong); }
      ledger := ledger + [row];
      return None;
    }

    method EnsureWalletForUser(user: UserId) returns (ok: bool)
      modifies this
      ensures ok <==> EnsureWallet(old(Contents()), user).Some?
      ensures Contents() == if ok then EnsureWallet(old(Contents()), user).value else old(Contents())
    {
      if user in wallets { return true; }
      var error := InsertRow(OpeningRow(user));
      if error.Some? { return false; }
      wallets := wallets[user := Wallet(INITIAL_VIRTUAL_COINS, 0, 0, true)];
      return true;
    }

    // The part both forms of a movement share. A refused debit leaves a FAILED row behind.
    method MoveLocked(m: Movement) returns (result: PostResult)
      requires m.user in wallets
      modifies this
      ensures result == PostFresh(old(Contents()), m)
      ensures result.Moved? ==> Contents() == result.bank
      ensures result == Refused(InsufficientFunds) ==>
                var total := old(wallets[m.user].Total());
                wallets == old(wallets) && ledger == old(ledger) + [MakeRow(m, total, total, Failed)]
    {
      var wallet := wallets[m.user];
      if !wallet.active { return Refused(WalletNotActive); }
      var next := NextBalances(wallet, m);
      var after := if next.None? then wallet.Total() else next.value.Total();
      var row := MakeRow(m, wallet.Total(), after, if next.None? then Failed else Success);
      var error := InsertRow(row);
      if error.Some? { return Refused(error.value); }
      if next.None? { return Refused(InsufficientFunds); }
      wallets := wallets[m.user := next.value.(version := wallet.version + 1)];
      return Moved(Contents(), row);
    }

    // applyLedgerMovementInTransaction: when it refuses, the caller's transaction rolls back.
    method ApplyInTransaction(m: Movement) returns (result: PostResult)
      modifies this
      ensures result == Post(old(Contents()), m)
      ensures result.Moved? ==> Contents() == result.bank
      ensures result.Replayed? ==> Contents() == old(Contents())
    {
      if !ValidAmount(m.amount) { return Refused(InvalidAmount); }
      var existing := FindLedgerByKey(m.key);
      if existing.Some? { return Replay(existing.value, m); }
      var ensured := EnsureWalletForUser(m.user);
      if !ensured { return Refused(UniqueViolation); }
      result := MoveLocked(m);
    }

    // The transaction inside applyLedgerMovement: a refused debit commits its FAILED row.
    method CommitAlone(m: Movement) returns (result: PostResult)
      modifies this
      ensures (Contents(), result) == PostAlone(old(Contents()), m)
    {
      var before := Contents();
      var ensured := EnsureWalletForUser(m.user);
      if !ensured { return Refused(UniqueViolation); }
      result := MoveLocked(m);
      if result.Refused? && result != Refused(InsufficientFunds) { Restore(before); }
    }

    // Other calls that commit between two steps of this one.
    method OtherCalls()
      requires BankOk(Contents())
      modifies this
      ensures BankOk(Contents()) && old(ledger) <= ledger
    {
      var movements: seq<Movement> := *;
      var i := 0;
      while i < |movements|
        invariant 0 <= i <= |movements|
        invariant BankOk(Contents()) && old(ledger) <= ledger
      {
        if ValidAmount(movements[i].amount) {
          PostAloneKeepsBank(Contents(), movements[i]);
          PostAloneOnlyAppends(Contents(), movements[i]);
          var _ := CommitAlone(movements[i]);
        }
        i := i + 1;
      }
    }

    // The transaction, and the second look at the key when it hits a unique constraint.
    method CommitOrReplay(m: Movement) returns (result: PostResult)
      requires BankOk(Contents()) && ValidAmount(m.amount)
      modifies this
      ensures BankOk(Contents()) && old(ledger) <= ledger
      ensures Truthful(result, m, FindRow(ledger, m.key))
      ensures result.Moved? ==> FindRow(old(ledger), m.key).None?
    {
      PostAloneKeepsBank(Contents(), m);
      PostAloneOnlyAppends(Contents(), m);
      PostAloneReports(Contents(), m);
      result := CommitAlone(m);
      if result == Refused(UniqueViolation) {
        OtherCalls();
        var existing := FindLedgerByKey(m.key);
        if existing.Some? && existing.value.user == m.user { result := Replay(existing.value, m); }
      }
    }

    // applyLedgerMovement: look the key up, move in a transaction, and on a unique conflict look again.
    // Whatever other calls do in between, the key ends up with at most one row, success is reported only
    // when that row is a successful movement like the one asked for, and it is reported as moved only to
    // the call that made it.
    method Apply(m: Movement) returns (result: PostResult)
      requires BankOk(Contents())
      modifies this
      ensures BankOk(Contents()) && old(ledger) <= ledger
      ensures Truthful(result, m, FindRow(ledger, m.key))
      ensures result.Moved? ==> FindRow(old(ledger), m.key).None?
      ensures FindRow(old(ledger), m.key).Some? && ValidAmount(m.amount) ==> result == Replay(FindRow(old(ledger), m.key).value, m)
    {
      if !ValidAmount(m.amount) { return Refused(InvalidAmount); }
      var existing := FindLedgerByKey(m.key);
      if existing.Some? { return Replay(existing.value, m); }
      OtherCalls();
      result := CommitOrReplay(m);
    }
  }

  // What an answer says about the row under the key once the call is over.
  ghost predicate Truthful(result: PostResult, m: Movement, row: Option<Row>) {
    match result
    case Moved(_, moved) => row == Some(moved) && SameOperation(moved, m) && moved.status == Success
    case Replayed(earlier) => row == Some(earlier) && SameOperation(earlier, m) && earlier.status == Success
    case Refused(InsufficientFunds) => row.Some? && row.value.status == Failed
    case Refused(PreviousOperationFailed) => row.Some? && row.value.status == Failed && SameOperation(row.value, m)
    case Refused(KeyConflict) => row.Some? && !SameOperation(row.value, m)
    case Refused(_) => true
  }

  // ---------------------------------------------------------------- about the stand-alone form

  lemma PostAloneOnlyAppends(bank: Bank, m: Movement)
    ensures bank.ledger <= PostAlone(bank, m).0.ledger
  {
  }

  lemma LastRowIsFound(ledger: seq<Row>, row: Row)
    ensures FindRow(ledger + [row], row.key) == Some(row)
  {
  }

  // The answer of the transaction matches the row it leaves under the key.
  lemma PostAloneReports(bank: Bank, m: Movement)
    ensures var (after, result) := PostAlone(bank, m);
            && (result.Moved? || result.Refused?)
            && result != Refused(PreviousOperationFailed) && result != Refused(KeyConflict)
            && Truthful(result, m, FindRow(after.ledger, m.key))
            && (result.Moved? ==> FindRow(bank.ledger, m.key).None?)
  {
    var ensured := EnsureWallet(bank, m.user);
    if ensured.Some? {
      var result := PostFresh(ensured.value, m);
      if result.Moved? {
        LastRowIsFound(ensured.value.ledger, result.row);
      } else if result == Refused(InsufficientFunds) {
        var total := ensured.value.wallets[m.user].Total();
        LastRowIsFound(ensured.value.ledger, MakeRow(m, total, total, Failed));
      }
    }
  }
}
