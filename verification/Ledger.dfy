// The two-pot coin wallet and its append-only ledger: what one movement does.
module Ledger {
  import opened Types

  const INITIAL_VIRTUAL_COINS: int := 1000
  const KEY_COLUMN_LENGTH: nat := 160

  datatype EntryType = BonusCredit | BetDebit | BetWinCredit | AdminAdjustment
  datatype Direction = Credit | Debit
  datatype ReferenceType = AdminAction | BetReference | RoundReference
  datatype EntryStatus = Success | Failed

  // An idempotency key, read back into the shape the services build it from. LedgerKeys proves that
  // different keys are different strings. A caller of the wallet may supply a key of any shape.
  datatype Key =
    | InitialCoins(user: UserId)
    | StakeDebit(bet: BetId, clientKey: string)
    | SettlementCredit(round: RoundId, user: UserId)
    | CancelRefund(round: RoundId, bet: BetId)
    | RecoveryRefund(round: RoundId, bet: BetId)
    | Supplied(text: string)

  // Length of the rendered key; every id is a 36-character UUID.
  function KeyLength(key: Key): nat {
    match key
    case InitialCoins(_) => 5 + 36 + 22
    case StakeDebit(_, clientKey) => 4 + 36 + 7 + |clientKey|
    case SettlementCredit(_, _) => 6 + 36 + 6 + 36 + 18
    case CancelRefund(_, _) => 6 + 36 + 5 + 36 + 14
    case RecoveryRefund(_, _) => 6 + 36 + 5 + 36 + 16
    case Supplied(text) => |text|
  }

  datatype Movement = Movement(
    user: UserId,
    kind: EntryType,
    direction: Direction,
    referenceType: ReferenceType,
    reference: nat,
    amount: int,
    key: Key)

  datatype Row = Row(
    user: UserId,
    kind: EntryType,
    direction: Direction,
    amount: int,
    before: int,
    after: int,
    key: Key,
    referenceType: ReferenceType,
    reference: nat,
    status: EntryStatus)

  datatype Wallet = Wallet(deposit: int, winning: int, version: int, active: bool) {
    function Total(): int { deposit + winning }
  }

  datatype Bank = Bank(wallets: map<UserId, Wallet>, ledger: seq<Row>)

  datatype Error =
    | InvalidAmount
    | KeyConflict
    | PreviousOperationFailed
    | WalletNotActive
    | InsufficientFunds
    | KeyTooLong
    | UniqueViolation

  datatype PostResult =
    | Moved(bank: Bank, row: Row)
    | Replayed(earlier: Row)
    | Refused(error: Error)

  function FindRow(ledger: seq<Row>, key: Key): (r: Option<Row>)
    ensures r.None? <==> forall i :: 0 <= i < |ledger| ==> ledger[i].key != key
    ensures r.Some? ==> r.value in ledger && r.value.key == key
  {
    if |ledger| == 0 then None
    else if ledger[|ledger| - 1].key == key then Some(ledger[|ledger| - 1])
    else FindRow(ledger[..|ledger| - 1], key)
  }

  function OpeningRow(user: UserId): Row {
    Row(user, BonusCredit, Credit, INITIAL_VIRTUAL_COINS, 0, INITIAL_VIRTUAL_COINS,
        InitialCoins(user), AdminAction, user, Success)
  }

  // ensureWalletForUser: the wallet and its opening row appear together, or neither does.
  function EnsureWallet(bank: Bank, user: UserId): Option<Bank> {
    if user in bank.wallets then Some(bank)
    else if FindRow(bank.ledger, InitialCoins(user)).Some? then None
    else Some(Bank(bank.wallets[user := Wallet(INITIAL_VIRTUAL_COINS, 0, 0, true)],
                   bank.ledger + [OpeningRow(user)]))
  }

  // calculateNextBalances; None is the insufficientFunds flag.
  function NextBalances(wallet: Wallet, m: Movement): Option<Wallet> {
    if m.direction == Credit then
      if m.kind == BetWinCredit then Some(wallet.(winning := wallet.winning + m.amount))
      else Some(wallet.(deposit := wallet.deposit + m.amount))
    else
      var fromDeposit := if m.amount <= wallet.deposit then m.amount else wallet.deposit;
      var winning := wallet.winning - (m.amount - fromDeposit);
      if winning < 0 then None
      else Some(wallet.(deposit := wallet.deposit - fromDeposit, winning := winning))
  }

  function MakeRow(m: Movement, before: int, after: int, status: EntryStatus): Row {
    Row(m.user, m.kind, m.direction, m.amount, before, after, m.key, m.referenceType, m.reference, status)
  }

  // assertIdempotentReplay
  predicate SameOperation(row: Row, m: Movement) {
    && row.user == m.user
    && row.kind == m.kind
    && row.direction == m.direction
    && row.amount == m.amount
    && row.reference == m.reference
    && row.referenceType == m.referenceType
  }

  predicate ValidAmount(amount: int) { 0 < amount <= MAX_SAFE_INTEGER }

  // What a key that is already in the ledger leads to.
  function Replay(row: Row, m: Movement): PostResult {
    if !SameOperation(row, m) then Refused(KeyConflict)
    else if row.status == Failed then Refused(PreviousOperationFailed)
    else Replayed(row)
  }

  // applyLedgerMovementInTransaction. Refused means that the enclosing transaction rolls back.
  function Post(bank: Bank, m: Movement): PostResult {
    if !ValidAmount(m.amount) then Refused(InvalidAmount)
    else
      var existing := FindRow(bank.ledger, m.key);
      if existing.Some? then Replay(existing.value, m)
      else
        var ensured := EnsureWallet(bank, m.user);
        if ensured.None? then Refused(UniqueViolation)
        else PostFresh(ensured.value, m)
  }

  function PostFresh(bank: Bank, m: Movement): PostResult
    requires m.user in bank.wallets
  {
    var wallet := bank.wallets[m.user];
    if !wallet.active then Refused(WalletNotActive)
    // The key of the wallet row just created can be the key asked for.
    else if FindRow(bank.ledger, m.key).Some? then Refused(UniqueViolation)
    else if KeyLength(m.key) > KEY_COLUMN_LENGTH then Refused(KeyTooLong)
    else
      var next := NextBalances(wallet, m);
      if next.None? then Refused(InsufficientFunds)
      else
        var row := MakeRow(m, wallet.Total(), next.value.Total(), Success);
        Moved(Bank(bank.wallets[m.user := next.value.(version := wallet.version + 1)], bank.ledger + [row]), row)
  }

  // The transaction of applyLedgerMovement: a refused debit commits a FAILED row that keeps the balance.
  function PostAlone(bank: Bank, m: Movement): (Bank, PostResult) {
    var ensured := EnsureWallet(bank, m.user);
    if ensured.None? then (bank, Refused(UniqueViolation))
    else
      var result := PostFresh(ensured.value, m);
      if result.Moved? then (result.bank, result)
      else if result == Refused(InsufficientFunds) then
        var total := ensured.value.wallets[m.user].Total();
        (ensured.value.(ledger := ensured.value.ledger + [MakeRow(m, total, total, Failed)]), result)
      else (bank, result)
  }

  // ---------------------------------------------------------------- sums over the ledger

  datatype RowMeasure =
    | NetOf(user: UserId)                           // signed successful amounts
    | SuccessesOf(user: UserId)                     // successful rows
    | RowsOf(user: UserId)                          // all rows
    | AdjustedFor(user: UserId)                     // signed administrator adjustments
    | DebitsFor(bet: BetId)                         // stake debit rows of one bet
    | RefundsFor(bet: BetId)                        // refund rows of one bet
    | CreditsFor(round: RoundId, user: UserId)      // settlement rows of one user in one round
    | CreditedFor(round: RoundId, user: UserId)     // and their amounts

  function Signed(row: Row): int { if row.direction == Credit then row.amount else -row.amount }

  predicate IsStakeDebit(row: Row) {
    row.kind == BetDebit && row.direction == Debit && row.referenceType == BetReference && row.status == Success
  }

  predicate IsRefund(row: Row) {
    row.kind == AdminAdjustment && row.direction == Credit && row.referenceType == BetReference && row.status == Success
  }

  predicate IsSettlement(row: Row) {
    row.kind == BetWinCredit && row.direction == Credit && row.referenceType == RoundReference && row.status == Success
  }

  predicate IsAdjustment(row: Row) {
    row.kind == AdminAdjustment && row.referenceType == AdminAction && row.status == Success
  }

  function RowWeight(m: RowMeasure, row: Row): int {
    match m
    case NetOf(u) => if row.user == u && row.status == Success then Signed(row) else 0
    case SuccessesOf(u) => if row.user == u && row.status == Success then 1 else 0
    case RowsOf(u) => if row.user == u then 1 else 0
    case AdjustedFor(u) => if row.user == u && IsAdjustment(row) then Signed(row) else 0
    case DebitsFor(b) => if IsStakeDebit(row) && row.reference == b then 1 else 0
    case RefundsFor(b) => if IsRefund(row) && row.reference == b then 1 else 0
    case CreditsFor(r, u) => if IsSettlement(row) && row.reference == r && row.user == u then 1 else 0
    case CreditedFor(r, u) => if IsSettlement(row) && row.reference == r && row.user == u then row.amount else 0
  }

  function RowSum(m: RowMeasure, rows: seq<Row>): int {
    if |rows| == 0 then 0 else RowSum(m, rows[..|rows| - 1]) + RowWeight(m, rows[|rows| - 1])
  }

  lemma RowSumAppend(m: RowMeasure, rows: seq<Row>, row: Row)
    ensures RowSum(m, rows + [row]) == RowSum(m, rows) + RowWeight(m, row)
  {
    assert (rows + [row])[..|rows|] == rows;
  }

  predicate Counts(m: RowMeasure) {
    m.DebitsFor? || m.RefundsFor? || m.CreditsFor? || m.RowsOf? || m.SuccessesOf?
  }

  lemma {:induction false} CountCoversRow(m: RowMeasure, rows: seq<Row>, row: Row)
    requires Counts(m)
    ensures RowSum(m, rows) >= 0
    ensures row in rows ==> RowSum(m, rows) >= RowWeight(m, row)
  {
    if |rows| > 0 {
      CountCoversRow(m, rows[..|rows| - 1], row);
      assert rows == rows[..|rows| - 1] + [rows[|rows| - 1]];
    }
  }

  // ---------------------------------------------------------------- what every movement keeps

  // The balance the user's last row left behind.
  function LastAfter(ledger: seq<Row>, user: UserId): int {
    if |ledger| == 0 then 0
    else if ledger[|ledger| - 1].user == user then ledger[|ledger| - 1].after
    else LastAfter(ledger[..|ledger| - 1], user)
  }

  ghost predicate KeysUnique(ledger: seq<Row>) {
    forall i, j :: 0 <= i < j < |ledger| ==> ledger[i].key != ledger[j].key
  }

  predicate RowAdds(row: Row) {
    row.amount > 0 && row.after == row.before + (if row.status == Success then Signed(row) else 0)
  }

  ghost predicate Chained(ledger: seq<Row>) {
    forall i :: 0 <= i < |ledger| ==> RowAdds(ledger[i]) && ledger[i].before == LastAfter(ledger[..i], ledger[i].user)
  }

  // The wallet row of one user says the same as that user's part of the ledger.
  ghost predicate Agrees(bank: Bank, user: UserId) {
    if user in bank.wallets then
      var w := bank.wallets[user];
      && w.deposit >= 0
      && w.winning >= 0
      && w.Total() == RowSum(NetOf(user), bank.ledger)
      && w.Total() == LastAfter(bank.ledger, user)
      && w.version + 1 == RowSum(SuccessesOf(user), bank.ledger)
    else RowSum(RowsOf(user), bank.ledger) == 0
  }

  ghost predicate BankOk(bank: Bank) {
    && KeysUnique(bank.ledger)
    && Chained(bank.ledger)
    && forall u: UserId :: Agrees(bank, u)
  }
}
