// The real-money sandbox: an available and a locked pot per user, moved by bets, round settlement,
// refunds, deposits and the withdrawal desk. One action is one transaction.
module RealMoney {
  import opened Types

  type WithdrawalId = nat
  type EventId = nat
  type CallId = nat

  datatype Config = Config(multiplier: int, betCap: int, roundCap: int, colorCap: int,
                           minWithdrawal: int, maxWithdrawal: int)

  datatype Wallet = Wallet(available: int, locked: int, version: int, frozen: bool)

  datatype BetStatus = Pending | Won | Lost | Refunded

  datatype Bet = Bet(user: UserId, round: RoundId, choice: Color, stake: int, clientKey: string, status: BetStatus, payout: int)

  datatype WithdrawalStatus = Requested | Approved | Rejected | Paid

  datatype Withdrawal = Withdrawal(user: UserId, amount: int, clientKey: string, status: WithdrawalStatus)

  datatype EntryKind =
    | BetLocked | BetWonPayout | BetLostSettled | BetRefund
    | DepositApproved | WithdrawalLocked | WithdrawalRelease | WithdrawalPaid

  // The unique keys of the ledger. Every part that varies is an id, so equal strings are equal keys.
  datatype Key =
    | BetLock(bet: BetId)
    | BetSettlement(bet: BetId)
    | BetRefundKey(bet: BetId)
    | WithdrawalLock(withdrawal: WithdrawalId)
    | WithdrawalReject(withdrawal: WithdrawalId)
    | WithdrawalPay(withdrawal: WithdrawalId)
    | DepositKey(event: EventId)

  datatype Row = Row(
    user: UserId,
    kind: EntryKind,
    amount: int,
    availableBefore: int,
    availableAfter: int,
    lockedBefore: int,
    lockedAfter: int,
    key: Key)

  datatype SettlementStatus = Success | Failed

  datatype Settlement = Settlement(result: Color, status: SettlementStatus, totalBets: int, totalPayout: int)

  // A settleRound call between two of its steps: before its transaction, or after the transaction failed
  // and before the failure is recorded.
  datatype Call = Running(round: RoundId, result: Color) | Failing(round: RoundId, result: Color)

  // open and closed follow the phase of the game rounds: a round takes bets while open and is never
  // reopened once closed. early is history: the rounds some call settled before they were closed.
  datatype State = State(
    wallets: map<UserId, Wallet>,
    ledger: seq<Row>,
    bets: seq<Bet>,
    withdrawals: seq<Withdrawal>,
    settlements: map<RoundId, Settlement>,
    audit: set<string>,
    open: set<RoundId>,
    closed: set<RoundId>,
    early: set<RoundId>,
    calls: map<CallId, Call>)

  const EMPTY: State := State(map[], [], [], [], map[], {}, {}, {}, {}, map[])

  datatype Decision = Approve | Reject | MarkPaid

  datatype Action =
    | OpenRound(round: RoundId)
    | CloseRound(round: RoundId)
    | SetFrozen(user: UserId, frozen: bool)
    | Deposit(user: UserId, amount: int, event: EventId)
    | PlaceBet(user: UserId, round: RoundId, choice: Color, stake: int, clientKey: string, beforeLock: bool)
    | RequestWithdrawal(user: UserId, amount: int, clientKey: string)
    | Decide(withdrawal: WithdrawalId, decision: Decision, auditKey: string)
    | AuditElsewhere(auditKey: string)      // some other administrator action used the key
    | StartSettling(call: CallId, round: RoundId, result: Color)
    | SettleRound(call: CallId)
    | AbortSettling(call: CallId)           // the database aborts the transaction
    | RecordFailure(call: CallId)
    | Forget(call: CallId)                  // the call dies, or its failure cannot be recorded
    | RefundRound(round: RoundId, order: seq<BetId>)

  // ---------------------------------------------------------------- wallets

  function WalletOf(s: State, user: UserId): Wallet {
    if user in s.wallets then s.wallets[user] else Wallet(0, 0, 0, false)
  }

  predicate KeyTaken(ledger: seq<Row>, key: Key) {
    exists i :: 0 <= i < |ledger| && ledger[i].key == key
  }

  datatype Move = Move(user: UserId, kind: EntryKind, amount: int, availableDelta: int, lockedDelta: int, key: Key)

  datatype MoveError = BalanceConflict | UniqueConflict

  datatype Moved = Moved(state: State, row: Row) | Stopped(error: MoveError)

  // lockWallet and moveWallet
  function Apply(s: State, m: Move): Moved {
    var w := WalletOf(s, m.user);
    var available, locked := w.available + m.availableDelta, w.locked + m.lockedDelta;
    if available < 0 || locked < 0 then Stopped(BalanceConflict)
    else if KeyTaken(s.ledger, m.key) then Stopped(UniqueConflict)
    else
      var row := Row(m.user, m.kind, m.amount, w.available, available, w.locked, locked, m.key);
      Moved(s.(wallets := s.wallets[m.user := Wallet(available, locked, w.version + 1, w.frozen)], ledger := s.ledger + [row]), row)
  }

  function LockMove(bet: Bet, id: BetId): Move {
    Move(bet.user, BetLocked, bet.stake, -bet.stake, bet.stake, BetLock(id))
  }

  function SettleMove(c: Config, bet: Bet, id: BetId, result: Color): Move {
    var payout := bet.stake * c.multiplier;
    if bet.choice == result then Move(bet.user, BetWonPayout, payout, payout, -bet.stake, BetSettlement(id))
    else Move(bet.user, BetLostSettled, bet.stake, 0, -bet.stake, BetSettlement(id))
  }

  function RefundMove(bet: Bet, id: BetId): Move {
    Move(bet.user, BetRefund, bet.stake, bet.stake, -bet.stake, BetRefundKey(id))
  }

  function HoldMove(w: Withdrawal, id: WithdrawalId): Move {
    Move(w.user, WithdrawalLocked, w.amount, -w.amount, w.amount, WithdrawalLock(id))
  }

  function ReleaseMove(w: Withdrawal, id: WithdrawalId): Move {
    Move(w.user, WithdrawalRelease, w.amount, w.amount, -w.amount, WithdrawalReject(id))
  }

  function PayMove(w: Withdrawal, id: WithdrawalId): Move {
    Move(w.user, WithdrawalPaid, w.amount, 0, -w.amount, WithdrawalPay(id))
  }

  function DepositMove(user: UserId, amount: int, event: EventId): Move {
    Move(user, DepositApproved, amount, amount, 0, DepositKey(event))
  }

  // ---------------------------------------------------------------- sums

  datatype Measure =
    | LockedFor(user: UserId)                        // pending stakes
    | SpentBy(user: UserId)                          // what the user's bets took from the available pot
    | WonBy(user: UserId)                            // payout minus stake of won bets
    | LostBy(user: UserId)                           // stake of lost bets
    | PendingIn(round: RoundId)
    | PendingOn(round: RoundId, color: Color)
    | LiveOn(round: RoundId, color: Color)           // stakes on a colour not given back
    | PaidIn(round: RoundId)                         // payouts of won bets
    | CountPending(round: RoundId)
    | CountDecided(round: RoundId)

  function Weight(m: Measure, b: Bet): int {
    match m
    case LockedFor(u) => if b.user == u && b.status == Pending then b.stake else 0
    case SpentBy(u) =>
      if b.user != u || b.status == Refunded then 0
      else if b.status == Won then b.stake - b.payout
      else b.stake
    case WonBy(u) => if b.user == u && b.status == Won then b.payout - b.stake else 0
    case LostBy(u) => if b.user == u && b.status == Lost then b.stake else 0
    case PendingIn(r) => if b.round == r && b.status == Pending then b.stake else 0
    case PendingOn(r, k) => if b.round == r && b.choice == k && b.status == Pending then b.stake else 0
    case LiveOn(r, k) => if b.round == r && b.choice == k && b.status != Refunded then b.stake else 0
    case PaidIn(r) => if b.round == r && b.status == Won then b.payout else 0
    case CountPending(r) => if b.round == r && b.status == Pending then 1 else 0
    case CountDecided(r) => if b.round == r && (b.status == Won || b.status == Lost) then 1 else 0
  }

  function Sum(m: Measure, bets: seq<Bet>): int {
    if |bets| == 0 then 0 else Sum(m, bets[..|bets| - 1]) + Weight(m, bets[|bets| - 1])
  }

  datatype WithdrawalMeasure = HeldFor(user: UserId) | TakenBy(user: UserId) | PaidTo(user: UserId)

  function WithdrawalWeight(m: WithdrawalMeasure, w: Withdrawal): int {
    match m
    case HeldFor(u) => if w.user == u && (w.status == Requested || w.status == Approved) then w.amount else 0
    case TakenBy(u) => if w.user == u && w.status != Rejected then w.amount else 0
    case PaidTo(u) => if w.user == u && w.status == Paid then w.amount else 0
  }

  function WithdrawalSum(m: WithdrawalMeasure, ws: seq<Withdrawal>): int {
    if |ws| == 0 then 0 else WithdrawalSum(m, ws[..|ws| - 1]) + WithdrawalWeight(m, ws[|ws| - 1])
  }

  datatype RowMeasure =
    | DepositedBy(user: UserId)
    | RowsOf(user: UserId)
    | LockRowsOf(bet: BetId)
    | ClosingRowsOf(bet: BetId)
    | HoldRowsOf(withdrawal: WithdrawalId)
    | EndRowsOf(withdrawal: WithdrawalId)

  function RowWeight(m: RowMeasure, row: Row): int {
    match m
    case DepositedBy(u) => if row.user == u && row.kind == DepositApproved then row.amount else 0
    case RowsOf(u) => if row.user == u then 1 else 0
    case LockRowsOf(b) => if row.key == BetLock(b) then 1 else 0
    case ClosingRowsOf(b) => if row.key == BetSettlement(b) || row.key == BetRefundKey(b) then 1 else 0
    case HoldRowsOf(w) => if row.key == WithdrawalLock(w) then 1 else 0
    case EndRowsOf(w) => if row.key == WithdrawalReject(w) || row.key == WithdrawalPay(w) then 1 else 0
  }

  function RowSum(m: RowMeasure, rows: seq<Row>): int {
    if |rows| == 0 then 0 else RowSum(m, rows[..|rows| - 1]) + RowWeight(m, rows[|rows| - 1])
  }

  // ---------------------------------------------------------------- transactions

  predicate BetKeyUsed(bets: seq<Bet>, clientKey: string) {
    exists i :: 0 <= i < |bets| && bets[i].clientKey == clientKey
  }

  predicate WithdrawalKeyUsed(ws: seq<Withdrawal>, clientKey: string) {
    exists i :: 0 <= i < |ws| && ws[i].clientKey == clientKey
  }

  function PlaceBetTx(c: Config, s: State, user: UserId, r: RoundId, choice: Color, stake: int, clientKey: string,
                      beforeLock: bool): State
  {
    if !(0 < stake <= c.betCap) || r !in s.open || !beforeLock then s
    else if Sum(PendingIn(r), s.bets) + stake > c.roundCap then s
    else if Sum(PendingOn(r, choice), s.bets) + stake > c.colorCap then s
    else if WalletOf(s, user).frozen || WalletOf(s, user).available < stake then s
    else if BetKeyUsed(s.bets, clientKey) then s
    else
      var bet := Bet(user, r, choice, stake, clientKey, Pending, 0);
      match Apply(s, LockMove(bet, |s.bets|))
      case Stopped(_) => s
      case Moved(s', _) => s'.(bets := s.bets + [bet])
  }

  function RequestTx(c: Config, s: State, user: UserId, amount: int, clientKey: string): State {
    if !(0 < c.minWithdrawal <= amount <= c.maxWithdrawal) then s
    else if WalletOf(s, user).available < amount || WithdrawalKeyUsed(s.withdrawals, clientKey) then s
    else
      var w := Withdrawal(user, amount, clientKey, Requested);
      match Apply(s, HoldMove(w, |s.withdrawals|))
      case Stopped(_) => s
      case Moved(s', _) => s'.(withdrawals := s.withdrawals + [w])
  }

  datatype Transition = Invalid | Goes(status: WithdrawalStatus)

  // Which status a decision leads to.
  function NextStatus(status: WithdrawalStatus, decision: Decision): Transition {
    match decision
    case Approve => if status == Requested then Goes(Approved) else Invalid
    case Reject => if status == Requested || status == Approved then Goes(Rejected) else Invalid
    case MarkPaid => if status == Approved then Goes(Paid) else Invalid
  }

  // decideWithdrawal; an audit key that was used before makes the call a replay that does nothing.
  function DecideTx(s: State, id: WithdrawalId, decision: Decision, auditKey: string): State {
    if auditKey in s.audit || id >= |s.withdrawals| then s
    else
      var w := s.withdrawals[id];
      match NextStatus(w.status, decision)
      case Invalid => s
      case Goes(status) =>
        var done := s.(withdrawals := s.withdrawals[id := w.(status := status)], audit := s.audit + {auditKey});
        if decision == Approve then done
        else
          match Apply(s, if decision == Reject then ReleaseMove(w, id) else PayMove(w, id))
          case Stopped(_) => s
          case Moved(s', _) => done.(wallets := s'.wallets, ledger := s'.ledger)
  }

  function Settled(c: Config, bet: Bet, result: Color): Bet {
    if bet.choice == result then bet.(status := Won, payout := bet.stake * c.multiplier) else bet.(status := Lost, payout := 0)
  }

  // One turn of the settlement loop.
  function SettleOne(c: Config, s: State, id: BetId, result: Color): Option<State>
    requires id < |s.bets|
  {
    match Apply(s, SettleMove(c, s.bets[id], id, result))
    case Stopped(_) => None
    case Moved(s', _) => Some(s'.(bets := s.bets[id := Settled(c, s.bets[id], result)]))
  }

  // The loop over the pending bets of the round with an id below n, lowest id first.
  function SettleBelow(c: Config, s: State, r: RoundId, result: Color, n: nat): (t: Option<State>)
    requires n <= |s.bets|
    ensures t.Some? ==> |t.value.bets| == |s.bets|
  {
    if n == 0 then Some(s)
    else
      var earlier := SettleBelow(c, s, r, result, n - 1);
      if earlier.None? then None
      else if s.bets[n - 1].round == r && s.bets[n - 1].status == Pending then SettleOne(c, earlier.value, n - 1, result)
      else earlier
  }

  function PayoutOf(c: Config, bets: seq<Bet>, r: RoundId, result: Color): int {
    c.multiplier * Sum(PendingOn(r, result), bets)
  }

  // The transaction of settleRound. None is an error, which the caller records.
  function SettleTx(c: Config, s: State, r: RoundId, result: Color): Option<State> {
    if r in s.settlements && s.settlements[r].status == Success then Some(s)
    else if r in s.settlements && s.settlements[r].result != result then None
    else
      var settled := SettleBelow(c, s, r, result, |s.bets|);
      if settled.None? then None
      else
        Some(settled.value.(settlements := s.settlements[r :=
          Settlement(result, Success, Sum(CountPending(r), s.bets), PayoutOf(c, s.bets, r, result))]))
  }

  // The catch branch: upsert, which overwrites the status of whatever row there is by now.
  function FailTx(s: State, r: RoundId, result: Color): State {
    s.(settlements := s.settlements[r :=
      if r in s.settlements then s.settlements[r].(status := Failed) else Settlement(result, Failed, 0, 0)])
  }

  function RefundOne(s: State, id: BetId): Option<State> {
    if id >= |s.bets| then None
    else
      match Apply(s, RefundMove(s.bets[id], id))
      case Stopped(_) => None
      case Moved(s', _) => Some(s'.(bets := s.bets[id := s.bets[id].(status := Refunded)]))
  }

  predicate ListsPending(s: State, r: RoundId, order: seq<BetId>) {
    && (forall i, j :: 0 <= i < j < |order| ==> order[i] != order[j])
    && (forall i :: 0 <= i < |order| ==> order[i] < |s.bets| && s.bets[order[i]].status == Pending && s.bets[order[i]].round == r)
    && (forall b: BetId :: b < |s.bets| && s.bets[b].status == Pending && s.bets[b].round == r ==> b in order)
  }

  // The loop of refundRound, over the pending bets in the order the database listed them.
  function RefundEach(s: State, order: seq<BetId>): Option<State> {
    if |order| == 0 then Some(s)
    else
      var earlier := RefundEach(s, order[..|order| - 1]);
      if earlier.None? then None else RefundOne(earlier.value, order[|order| - 1])
  }

  function RefundTx(s: State, r: RoundId, order: seq<BetId>): State {
    if !ListsPending(s, r, order) then s
    else
      var refunded := RefundEach(s, order);
      if refunded.None? then s else refunded.value
  }

  // ---------------------------------------------------------------- settleRound calls

  function CallOf(s: State, call: CallId): Option<Call> {
    if call in s.calls then Some(s.calls[call]) else None
  }

  function HangUp(s: State, call: CallId): State { s.(calls := s.calls - {call}) }

  function StartStep(s: State, call: CallId, r: RoundId, result: Color): State {
    if call in s.calls then s else s.(calls := s.calls[call := Running(r, result)])
  }

  // The transaction, on whatever round the caller named.
  function SettleStep(c: Config, s: State, call: CallId): State {
    match CallOf(s, call)
    case Some(Running(r, result)) =>
      var t := SettleTx(c, s, r, result);
      if t.None? then s.(calls := s.calls[call := Failing(r, result)])
      else HangUp(t.value.(early := if r in s.closed then s.early else s.early + {r}), call)
    case _ => s
  }

  function AbortStep(s: State, call: CallId): State {
    match CallOf(s, call)
    case Some(Running(r, result)) => s.(calls := s.calls[call := Failing(r, result)])
    case _ => s
  }

  function FailStep(s: State, call: CallId): State {
    match CallOf(s, call)
    case Some(Failing(r, result)) => HangUp(FailTx(s, r, result), call)
    case _ => s
  }

  function Step(c: Config, s: State, a: Action): State {
    match a
    case OpenRound(r) => if r in s.closed then s else s.(open := s.open + {r})
    case CloseRound(r) => s.(open := s.open - {r}, closed := s.closed + {r})
    case SetFrozen(user, frozen) => s.(wallets := s.wallets[user := WalletOf(s, user).(frozen := frozen)])
    case Deposit(user, amount, event) =>
      if amount <= 0 then s
      else
        var m := Apply(s, DepositMove(user, amount, event));
        if m.Moved? then m.state else s
    case PlaceBet(user, r, choice, stake, clientKey, beforeLock) => PlaceBetTx(c, s, user, r, choice, stake, clientKey, beforeLock)
    case RequestWithdrawal(user, amount, clientKey) => RequestTx(c, s, user, amount, clientKey)
    case Decide(id, decision, auditKey) => DecideTx(s, id, decision, auditKey)
    case AuditElsewhere(auditKey) => s.(audit := s.audit + {auditKey})
    case StartSettling(call, r, result) => StartStep(s, call, r, result)
    case SettleRound(call) => SettleStep(c, s, call)
    case AbortSettling(call) => AbortStep(s, call)
    case RecordFailure(call) => FailStep(s, call)
    case Forget(call) => HangUp(s, call)
    case RefundRound(r, order) => RefundTx(s, r, order)
  }

  function Run(c: Config, s: State, actions: seq<Action>): State {
    if |actions| == 0 then s else Step(c, Run(c, s, actions[..|actions| - 1]), actions[|actions| - 1])
  }
}
