// Deposits across two services. The payment service checks a payment with the provider and writes an
// outbox row; workers post the row to the main service, at least once; the main service credits a wallet.
module Payments {
  import opened Types

  type IntentId = nat
  type EventId = nat
  type WorkerId = nat
  type ReaderId = nat
  type TxnId = string

  datatype Purpose = PremiumCredits | RealMoneyDeposit

  datatype IntentStatus = Created | Credited | Expired

  datatype Intent = Intent(user: UserId, amount: int, purpose: Purpose, clientKey: string, expiresAt: int,
                           status: IntentStatus, txn: Option<TxnId>)

  // The signed token, the checkout session and the order all carry what the intent said.
  datatype Terms = Terms(user: UserId, amount: int, purpose: Purpose)

  datatype Session = Session(terms: Terms, expiresAt: int)

  datatype OrderId = OrderId(purpose: Purpose, intent: IntentId)

  datatype Order = Order(terms: Terms, orderId: OrderId, verified: bool)

  datatype ProviderOrder = ProviderOrder(orderId: OrderId, paid: bool, inr: bool, amount: Option<int>)

  datatype ProviderPayment = ProviderPayment(
    orderId: OrderId, success: bool, inr: bool, amount: Option<int>, txn: TxnId, completedAt: Option<int>)

  datatype Event = Event(id: EventId, intent: IntentId, terms: Terms, orderId: OrderId, txn: TxnId, paidAt: int)

  datatype OutboxStatus = Pending | Processing | Delivered

  datatype OutboxRow = OutboxRow(event: Event, status: OutboxStatus, attempts: nat, nextAttempt: int, lockedUntil: Option<int>)

  datatype Worker = Idle | Claimed(row: nat, attempts: nat, lease: int) | Answered(row: nat, attempts: nat, ok: bool)

  // What getIntent remembers between its read and its write.
  datatype Reader = NotReading | SawExpired(intent: IntentId)

  datatype Credit = Credit(intent: IntentId, user: UserId, amount: int, purpose: Purpose, event: EventId)

  // digest is the hash of the raw payload.
  datatype Config = Config(digest: Event -> int)

  // The database of the main service, and what its readers remember.
  datatype Main = Main(
    intents: seq<Intent>,
    processed: map<EventId, int>,
    credits: seq<Credit>,
    premium: map<UserId, int>,
    realMoney: map<UserId, int>,
    readers: map<ReaderId, Reader>)

  // The database of the payment service, and what its workers remember.
  datatype Desk = Desk(
    sessions: map<IntentId, Session>,
    orders: map<IntentId, Order>,
    transactions: map<OrderId, TxnId>,
    outbox: seq<OutboxRow>,
    workers: map<WorkerId, Worker>)

  datatype State = State(now: int, main: Main, desk: Desk)

  const EMPTY: State := State(0, Main([], map[], [], map[], map[], map[]), Desk(map[], map[], map[], [], map[]))

  const INTENT_TTL: int := 15 * 60
  const LEASE: int := 30
  const MIN_AMOUNT: int := 1000
  const MAX_AMOUNT: int := 1000000

  predicate ValidAmount(amount: int) { MIN_AMOUNT <= amount <= MAX_AMOUNT && amount % 100 == 0 }

  datatype Action =
    | Tick(seconds: nat)
    | CreateIntent(user: UserId, amount: int, purpose: Purpose, clientKey: string)
    | ReadIntent(reader: ReaderId, intent: IntentId)
    | WriteExpired(reader: ReaderId)
    | ExchangeToken(intent: IntentId)
    | CreateOrder(intent: IntentId)
    | Reconcile(intent: IntentId, order: ProviderOrder, payments: seq<ProviderPayment>)
    | Claim(worker: WorkerId)
    | Post(worker: WorkerId, arrives: bool, answered: bool)
    | Arrive(row: nat)
    | Mark(worker: WorkerId)
    | CrashWorker(worker: WorkerId)

  function WorkerOf(s: State, w: WorkerId): Worker { if w in s.desk.workers then s.desk.workers[w] else Idle }

  function ReaderOf(s: State, r: ReaderId): Reader { if r in s.main.readers then s.main.readers[r] else NotReading }

  // ---------------------------------------------------------------- the provider's answer

  // payments.find(...) of verifiedSuccessfulPayment
  function FindPayment(payments: seq<ProviderPayment>, orderId: OrderId, amount: int): Option<ProviderPayment> {
    if |payments| == 0 then None
    else if Matches(payments[0], orderId, amount) then Some(payments[0])
    else FindPayment(payments[1..], orderId, amount)
  }

  predicate Matches(p: ProviderPayment, orderId: OrderId, amount: int) {
    p.success && p.orderId == orderId && p.inr && p.amount == Some(amount)
  }

  function VerifiedPayment(order: ProviderOrder, payments: seq<ProviderPayment>, orderId: OrderId, amount: int): Option<ProviderPayment> {
    if order.orderId != orderId || !order.paid || !order.inr || order.amount != Some(amount) then None
    else FindPayment(payments, orderId, amount)
  }

  // ---------------------------------------------------------------- the main service

  predicate ClientKeyUsed(intents: seq<Intent>, clientKey: string) {
    exists i :: 0 <= i < |intents| && intents[i].clientKey == clientKey
  }

  predicate TxnUsed(intents: seq<Intent>, txn: TxnId, except: IntentId) {
    exists i :: 0 <= i < |intents| && i != except && intents[i].txn == Some(txn)
  }

  function Balance(balances: map<UserId, int>, user: UserId): int {
    if user in balances then balances[user] else 0
  }

  datatype Reply = Accepted | Duplicate | Refused(error: ProcessError)

  datatype ProcessError = ReplayMismatch | IntentNotFound | IntentMismatch | AlreadyCredited | PaidAfterExpiry | UniqueConflict

  // creditPremiumWallet, creditRealMoneyDeposit: one credit per hundred paise, or the paise themselves.
  function CreditOf(e: Event): Credit {
    Credit(e.intent, e.terms.user, if e.terms.purpose == PremiumCredits then e.terms.amount / 100 else e.terms.amount, e.terms.purpose, e.id)
  }

  function Add(balances: map<UserId, int>, k: Credit, purpose: Purpose): map<UserId, int> {
    if k.purpose == purpose then balances[k.user := Balance(balances, k.user) + k.amount] else balances
  }

  predicate CreditKeyTaken(credits: seq<Credit>, e: Event) {
    exists i :: 0 <= i < |credits| && credits[i].event == e.id && credits[i].purpose == e.terms.purpose
  }

  // The branches of processVerifiedEvent.
  function Verdict(c: Config, m: Main, e: Event): Reply {
    if e.id in m.processed then
      if m.processed[e.id] != c.digest(e) then Refused(ReplayMismatch) else Duplicate
    else if e.intent >= |m.intents| then Refused(IntentNotFound)
    else
      var intent := m.intents[e.intent];
      if Terms(intent.user, intent.amount, intent.purpose) != e.terms then Refused(IntentMismatch)
      else if intent.status == Credited then
        if intent.txn != Some(e.txn) then Refused(AlreadyCredited) else Duplicate
      else if intent.expiresAt < e.paidAt then Refused(PaidAfterExpiry)
      else if CreditKeyTaken(m.credits, e) || TxnUsed(m.intents, e.txn, e.intent) then Refused(UniqueConflict)
      else Accepted
  }

  // What the transaction writes when the event is accepted.
  function CreditTx(c: Config, m: Main, e: Event): Main
    requires e.intent < |m.intents|
  {
    var k := CreditOf(e);
    m.(intents := m.intents[e.intent := m.intents[e.intent].(status := Credited, txn := Some(e.txn))],
       processed := m.processed[e.id := c.digest(e)],
       credits := m.credits + [k],
       premium := Add(m.premium, k, PremiumCredits),
       realMoney := Add(m.realMoney, k, RealMoneyDeposit))
  }

  // processVerifiedEvent
  function Process(c: Config, m: Main, e: Event): (Main, Reply) {
    var reply := Verdict(c, m, e);
    match reply
    case Accepted => (CreditTx(c, m, e), reply)
    case Duplicate => (if e.id in m.processed then m else m.(processed := m.processed[e.id := c.digest(e)]), reply)
    case Refused(_) => (m, reply)
  }

  function CreateIntentTx(m: Main, user: UserId, amount: int, purpose: Purpose, clientKey: string, now: int): Main {
    if !ValidAmount(amount) || ClientKeyUsed(m.intents, clientKey) then m
    else m.(intents := m.intents + [Intent(user, amount, purpose, clientKey, now + INTENT_TTL, Created, None)])
  }

  // getIntent reads, and later writes EXPIRED by id alone.
  function ReadIntentTx(m: Main, r: ReaderId, i: IntentId, now: int): Main {
    var expired := i < |m.intents| && m.intents[i].expiresAt <= now && m.intents[i].status == Created;
    m.(readers := m.readers[r := if expired then SawExpired(i) else NotReading])
  }

  function WriteExpiredTx(m: Main, r: ReaderId): Main {
    if r !in m.readers || m.readers[r].NotReading? || m.readers[r].intent >= |m.intents| then m
    else
      var i := m.readers[r].intent;
      m.(intents := m.intents[i := m.intents[i].(status := Expired)], readers := m.readers[r := NotReading])
  }

  // ---------------------------------------------------------------- the payment service

  // exchangeSignedIntent, given a token that the main service signed for the intent
  function ExchangeTx(d: Desk, i: IntentId, intent: Intent, now: int): Desk {
    if intent.expiresAt <= now || i in d.sessions then d
    else d.(sessions := d.sessions[i := Session(Terms(intent.user, intent.amount, intent.purpose), intent.expiresAt)])
  }

  // createProviderOrder, up to the provider's own answer
  function CreateOrderTx(d: Desk, i: IntentId, now: int): Desk {
    if i !in d.sessions || d.sessions[i].expiresAt <= now || i in d.orders then d
    else
      var terms := d.sessions[i].terms;
      d.(orders := d.orders[i := Order(terms, OrderId(terms.purpose, i), false)])
  }

  predicate TxnRecorded(transactions: map<OrderId, TxnId>, txn: TxnId) {
    exists o :: o in transactions && transactions[o] == txn
  }

  // reconcileOrder: ON CONFLICT covers the transaction id; a second transaction for the order is an error.
  function ReconcileTx(d: Desk, i: IntentId, answer: ProviderOrder, payments: seq<ProviderPayment>, now: int): Desk {
    if i !in d.orders then d
    else
      var order := d.orders[i];
      match VerifiedPayment(answer, payments, order.orderId, order.terms.amount)
      case None => d
      case Some(p) =>
        if TxnRecorded(d.transactions, p.txn) then MarkVerified(d, i)
        else if order.orderId in d.transactions then d
        else AddRow(MarkVerified(d, i), i, p.txn, if p.completedAt.Some? then p.completedAt.value else now, now)
  }

  function MarkVerified(d: Desk, i: IntentId): Desk
    requires i in d.orders
  {
    d.(orders := d.orders[i := d.orders[i].(verified := true)])
  }

  function AddRow(d: Desk, i: IntentId, txn: TxnId, paidAt: int, now: int): Desk
    requires i in d.orders
  {
    var order := d.orders[i];
    d.(transactions := d.transactions[order.orderId := txn],
       outbox := d.outbox + [OutboxRow(Event(|d.outbox|, i, order.terms, order.orderId, txn, paidAt), Pending, 0, now, None)])
  }

  // ---------------------------------------------------------------- the outbox worker

  predicate Claimable(row: OutboxRow, now: int) {
    row.status != Delivered && row.nextAttempt <= now && (row.lockedUntil.None? || row.lockedUntil.value < now)
  }

  function FirstClaimable(rows: seq<OutboxRow>, now: int, from: nat): (r: Option<nat>)
    requires from <= |rows|
    ensures r.Some? ==> from <= r.value < |rows| && Claimable(rows[r.value], now)
    ensures forall i :: from <= i < (if r.Some? then r.value else |rows|) ==> !Claimable(rows[i], now)
    decreases |rows| - from
  {
    if from == |rows| then None else if Claimable(rows[from], now) then Some(from) else FirstClaimable(rows, now, from + 1)
  }

  function TakeRow(d: Desk, w: WorkerId, n: nat, now: int): Desk
    requires n < |d.outbox|
  {
    d.(outbox := d.outbox[n := d.outbox[n].(status := Processing, lockedUntil := Some(now + LEASE))],
       workers := d.workers[w := Claimed(n, d.outbox[n].attempts, now + LEASE)])
  }

  function ClaimTx(d: Desk, w: WorkerId, now: int): Desk {
    var found := FirstClaimable(d.outbox, now, 0);
    if (w in d.workers && !d.workers[w].Idle?) || found.None? then d else TakeRow(d, w, found.value, now)
  }

  // The post may not arrive; if it does it is processed, and the answer may still be lost.
  function PostStep(c: Config, s: State, w: WorkerId, arrives: bool, answered: bool): State {
    match WorkerOf(s, w)
    case Claimed(row, attempts, _) =>
      if row >= |s.desk.outbox| then s
      else
        var (main, reply) := if arrives then Process(c, s.main, s.desk.outbox[row].event) else (s.main, Duplicate);
        var ok := arrives && !reply.Refused? && answered;
        s.(main := main, desk := s.desk.(workers := s.desk.workers[w := Answered(row, attempts, ok)]))
    case _ => s
  }

  function Pow2(n: nat): nat { if n == 0 then 1 else 2 * Pow2(n - 1) }

  function Delay(attempts: nat): nat {
    var d := Pow2(if attempts < 8 then attempts else 8);
    if d < 300 then d else 300
  }

  // Both updates go by row id alone, whatever happened to the row since the claim.
  function MarkTx(d: Desk, w: WorkerId, now: int): Desk {
    if w !in d.workers || !d.workers[w].Answered? || d.workers[w].row >= |d.outbox| then d
    else
      var worker := d.workers[w];
      var row := d.outbox[worker.row];
      var marked := if worker.ok then row.(status := Delivered, lockedUntil := None)
                    else row.(status := Pending, attempts := worker.attempts + 1,
                              nextAttempt := now + Delay(worker.attempts + 1), lockedUntil := None);
      d.(outbox := d.outbox[worker.row := marked], workers := d.workers[w := Idle])
  }

  function Step(c: Config, s: State, a: Action): State {
    match a
    case Tick(seconds) => s.(now := s.now + seconds)
    case CreateIntent(user, amount, purpose, clientKey) => s.(main := CreateIntentTx(s.main, user, amount, purpose, clientKey, s.now))
    case ReadIntent(r, i) => s.(main := ReadIntentTx(s.main, r, i, s.now))
    case WriteExpired(r) => s.(main := WriteExpiredTx(s.main, r))
    case ExchangeToken(i) => if i < |s.main.intents| then s.(desk := ExchangeTx(s.desk, i, s.main.intents[i], s.now)) else s
    case CreateOrder(i) => s.(desk := CreateOrderTx(s.desk, i, s.now))
    case Reconcile(i, order, payments) => s.(desk := ReconcileTx(s.desk, i, order, payments, s.now))
    case Claim(w) => s.(desk := ClaimTx(s.desk, w, s.now))
    case Post(w, arrives, answered) => PostStep(c, s, w, arrives, answered)
    case Arrive(row) => if row < |s.desk.outbox| then s.(main := Process(c, s.main, s.desk.outbox[row].event).0) else s
    case Mark(w) => s.(desk := MarkTx(s.desk, w, s.now))
    case CrashWorker(w) => s.(desk := s.desk.(workers := s.desk.workers[w := Idle]))
  }

  function Run(c: Config, s: State, actions: seq<Action>): State {
    if |actions| == 0 then s else Step(c, Run(c, s, actions[..|actions| - 1]), actions[|actions| - 1])
  }
}
