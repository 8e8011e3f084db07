// Exactly one credit per payment, whatever is retried, duplicated, lost or late.
module PaymentLaws {
  import opened Types
  import opened Payments

  // ---------------------------------------------------------------- counting

  datatype Tally =
    | CreditsOf(intent: IntentId)
    | PremiumOf(user: UserId)
    | RealMoneyOf(user: UserId)

  function Weight(t: Tally, k: Credit): int {
    match t
    case CreditsOf(i) => if k.intent == i then 1 else 0
    case PremiumOf(u) => if k.user == u && k.purpose == PremiumCredits then k.amount else 0
    case RealMoneyOf(u) => if k.user == u && k.purpose == RealMoneyDeposit then k.amount else 0
  }

  function Sum(t: Tally, credits: seq<Credit>): int {
    if |credits| == 0 then 0 else Sum(t, credits[..|credits| - 1]) + Weight(t, credits[|credits| - 1])
  }

  lemma SumAppend(t: Tally, credits: seq<Credit>, k: Credit)
    ensures Sum(t, credits + [k]) == Sum(t, credits) + Weight(t, k)
  {
    assert (credits + [k])[..|credits|] == credits;
  }

  lemma {:induction false} NoCreditNoSum(credits: seq<Credit>, i: IntentId)
    requires forall j :: 0 <= j < |credits| ==> credits[j].intent != i
    ensures Sum(CreditsOf(i), credits) == 0
  {
    if |credits| > 0 { NoCreditNoSum(credits[..|credits| - 1], i); }
  }

  // ---------------------------------------------------------------- the invariant

  function TermsOf(i: Intent): Terms { Terms(i.user, i.amount, i.purpose) }

  // Some outbox row of the intent has been processed.
  ghost predicate Handled(i: IntentId, processed: map<EventId, int>, outbox: seq<OutboxRow>) {
    exists n: nat :: n < |outbox| && outbox[n].event.intent == i && n in processed
  }

  ghost predicate PaidBy(i: IntentId, txn: TxnId, outbox: seq<OutboxRow>) {
    exists n: nat :: n < |outbox| && outbox[n].event.intent == i && outbox[n].event.txn == txn
  }

  ghost predicate IntentOk(intent: Intent, i: IntentId, processed: map<EventId, int>, outbox: seq<OutboxRow>) {
    && ValidAmount(intent.amount)
    && (intent.status == Credited ==> Handled(i, processed, outbox))
    && (intent.txn.Some? ==> PaidBy(i, intent.txn.value, outbox))
  }

  ghost predicate IntentsOk(intents: seq<Intent>, processed: map<EventId, int>, outbox: seq<OutboxRow>) {
    forall i: IntentId :: i < |intents| ==> IntentOk(intents[i], i, processed, outbox)
  }

  // Sessions and orders repeat what their intent says.
  ghost predicate PapersOk(intents: seq<Intent>, d: Desk) {
    && (forall i :: i in d.sessions ==> i < |intents| && d.sessions[i].terms == TermsOf(intents[i]))
    && (forall i :: i in d.orders ==> i < |intents| && d.orders[i].terms == TermsOf(intents[i]) &&
                                      d.orders[i].orderId == OrderId(intents[i].purpose, i))
  }

  // Each outbox row is the event of its own verified order, and the only one.
  ghost predicate RowOk(d: Desk, n: nat)
    requires n < |d.outbox|
  {
    var e := d.outbox[n].event;
    && e.id == n
    && e.intent in d.orders
    && d.orders[e.intent].verified
    && e.terms == d.orders[e.intent].terms
    && e.orderId == d.orders[e.intent].orderId
    && e.orderId in d.transactions
    && d.transactions[e.orderId] == e.txn
  }

  ghost predicate RowsOk(d: Desk) {
    && (forall n: nat :: n < |d.outbox| ==> RowOk(d, n))
    && (forall m: nat, n: nat :: m < n < |d.outbox| ==> d.outbox[m].event.intent != d.outbox[n].event.intent)
    && (forall m: nat, n: nat :: m < n < |d.outbox| ==> d.outbox[m].event.txn != d.outbox[n].event.txn)
  }

  ghost predicate WorkerOk(w: Worker, processed: map<EventId, int>, outbox: seq<OutboxRow>) {
    match w
    case Idle => true
    case Claimed(row, _, _) => row < |outbox|
    case Answered(row, _, ok) => row < |outbox| && (ok ==> row in processed)
  }

  // A worker that heard yes, and a row marked delivered, stand for a processed event.
  ghost predicate DeliveryOk(c: Config, processed: map<EventId, int>, outbox: seq<OutboxRow>, workers: map<WorkerId, Worker>) {
    && (forall n: nat :: n < |outbox| && outbox[n].status == Delivered ==> n in processed)
    && (forall n :: n in processed ==> n < |outbox| && processed[n] == c.digest(outbox[n].event))
    && (forall w :: w in workers ==> WorkerOk(workers[w], processed, outbox))
  }

  ghost predicate CreditOk(k: Credit, processed: map<EventId, int>, outbox: seq<OutboxRow>) {
    k.event < |outbox| && k.event in processed && k == CreditOf(outbox[k.event].event)
  }

  ghost predicate CreditsOk(processed: map<EventId, int>, credits: seq<Credit>, outbox: seq<OutboxRow>) {
    && (forall j :: 0 <= j < |credits| ==> CreditOk(credits[j], processed, outbox))
    && (forall n: nat :: n < |outbox| ==> Sum(CreditsOf(outbox[n].event.intent), credits) == (if n in processed then 1 else 0))
  }

  ghost predicate BalancesOk(m: Main) {
    forall u: UserId :: Balance(m.premium, u) == Sum(PremiumOf(u), m.credits) && Balance(m.realMoney, u) == Sum(RealMoneyOf(u), m.credits)
  }

  ghost predicate Inv(c: Config, s: State) {
    && IntentsOk(s.main.intents, s.main.processed, s.desk.outbox)
    && PapersOk(s.main.intents, s.desk)
    && RowsOk(s.desk)
    && DeliveryOk(c, s.main.processed, s.desk.outbox, s.desk.workers)
    && CreditsOk(s.main.processed, s.main.credits, s.desk.outbox)
    && BalancesOk(s.main)
  }

  // ---------------------------------------------------------------- intents

  // The same events or more, and the same processed marks or more.
  ghost predicate Grows(outbox: seq<OutboxRow>, outbox': seq<OutboxRow>, processed: map<EventId, int>, processed': map<EventId, int>) {
    && |outbox| <= |outbox'|
    && (forall n: nat :: n < |outbox| ==> outbox'[n].event == outbox[n].event)
    && (forall n :: n in processed ==> n in processed')
  }

  lemma IntentStaysOk(intent: Intent, i: IntentId, processed: map<EventId, int>, outbox: seq<OutboxRow>,
                      processed': map<EventId, int>, outbox': seq<OutboxRow>)
    requires IntentOk(intent, i, processed, outbox) && Grows(outbox, outbox', processed, processed')
    ensures IntentOk(intent, i, processed', outbox')
  {
    if intent.status == Credited {
      var n: nat :| n < |outbox| && outbox[n].event.intent == i && n in processed;
      assert outbox'[n].event == outbox[n].event;
    }
    if intent.txn.Some? {
      var n: nat :| n < |outbox| && outbox[n].event.intent == i && outbox[n].event.txn == intent.txn.value;
      assert outbox'[n].event == outbox[n].event;
    }
  }

  lemma IntentsStayOk(intents: seq<Intent>, processed: map<EventId, int>, outbox: seq<OutboxRow>,
                      processed': map<EventId, int>, outbox': seq<OutboxRow>)
    requires IntentsOk(intents, processed, outbox) && Grows(outbox, outbox', processed, processed')
    ensures IntentsOk(intents, processed', outbox')
  {
    forall i: IntentId | i < |intents| ensures IntentOk(intents[i], i, processed', outbox') {
      IntentStaysOk(intents[i], i, processed, outbox, processed', outbox');
    }
  }

  lemma CreateIntentKeepsInv(c: Config, s: State, user: UserId, amount: int, purpose: Purpose, clientKey: string)
    requires Inv(c, s)
    ensures Inv(c, s.(main := CreateIntentTx(s.main, user, amount, purpose, clientKey, s.now)))
  {
    var intents := CreateIntentTx(s.main, user, amount, purpose, clientKey, s.now).intents;
    forall i: IntentId | i < |intents| ensures IntentOk(intents[i], i, s.main.processed, s.desk.outbox) {
      if i < |s.main.intents| { assert IntentOk(s.main.intents[i], i, s.main.processed, s.desk.outbox); }
    }
  }

  lemma ExpiringKeepsInv(c: Config, s: State, r: ReaderId)
    requires Inv(c, s)
    ensures Inv(c, s.(main := WriteExpiredTx(s.main, r)))
  {
    var intents := WriteExpiredTx(s.main, r).intents;
    forall i: IntentId | i < |intents| ensures IntentOk(intents[i], i, s.main.processed, s.desk.outbox) {
      assert IntentOk(s.main.intents[i], i, s.main.processed, s.desk.outbox);
    }
  }

  // ---------------------------------------------------------------- the payment service

  lemma RowsStayOk(d: Desk, d': Desk)
    requires RowsOk(d) && d'.outbox == d.outbox && d'.transactions == d.transactions
    requires forall i :: i in d.orders ==> i in d'.orders && d'.orders[i] == d.orders[i].(verified := d'.orders[i].verified)
                                           && (d.orders[i].verified ==> d'.orders[i].verified)
    ensures RowsOk(d')
  {
    forall n: nat | n < |d'.outbox| ensures RowOk(d', n) { assert RowOk(d, n); }
  }

  lemma ExchangeKeepsInv(c: Config, s: State, i: IntentId)
    requires Inv(c, s) && i < |s.main.intents|
    ensures Inv(c, s.(desk := ExchangeTx(s.desk, i, s.main.intents[i], s.now)))
  {
    RowsStayOk(s.desk, ExchangeTx(s.desk, i, s.main.intents[i], s.now));
  }

  lemma CreateOrderKeepsInv(c: Config, s: State, i: IntentId)
    requires Inv(c, s)
    ensures Inv(c, s.(desk := CreateOrderTx(s.desk, i, s.now)))
  {
    RowsStayOk(s.desk, CreateOrderTx(s.desk, i, s.now));
  }

  lemma MarkVerifiedKeepsInv(c: Config, s: State, i: IntentId)
    requires Inv(c, s) && i in s.desk.orders
    ensures Inv(c, s.(desk := MarkVerified(s.desk, i)))
  {
    RowsStayOk(s.desk, MarkVerified(s.desk, i));
  }

  lemma {:induction false} FindPaymentMatches(payments: seq<ProviderPayment>, orderId: OrderId, amount: int)
    ensures var p := FindPayment(payments, orderId, amount);
            && (p.Some? <==> exists k :: 0 <= k < |payments| && Matches(payments[k], orderId, amount))
            && (p.Some? ==> exists k :: 0 <= k < |payments| && payments[k] == p.value && Matches(payments[k], orderId, amount) &&
                                        forall l :: 0 <= l < k ==> !Matches(payments[l], orderId, amount))
  {
    if |payments| > 0 && !Matches(payments[0], orderId, amount) {
      var rest := payments[1..];
      FindPaymentMatches(rest, orderId, amount);
      if k :| 0 <= k < |payments| && Matches(payments[k], orderId, amount) { assert rest[k - 1] == payments[k]; }
      if FindPayment(rest, orderId, amount).Some? {
        var k :| 0 <= k < |rest| && rest[k] == FindPayment(rest, orderId, amount).value && Matches(rest[k], orderId, amount) &&
                 forall l :: 0 <= l < k ==> !Matches(rest[l], orderId, amount);
        assert payments[k + 1] == rest[k];
        forall l | 0 <= l < k + 1 ensures !Matches(payments[l], orderId, amount) { if l > 0 { assert payments[l] == rest[l - 1]; } }
      }
    }
  }

  // The order's transaction is unknown, so no earlier row is about this intent, nor carries a new transaction.
  lemma NoEarlierRow(d: Desk, i: IntentId, txn: TxnId)
    requires RowsOk(d) && i in d.orders && d.orders[i].orderId !in d.transactions && !TxnRecorded(d.transactions, txn)
    ensures forall n: nat :: n < |d.outbox| ==> d.outbox[n].event.intent != i && d.outbox[n].event.txn != txn
  {
    forall n: nat | n < |d.outbox| ensures d.outbox[n].event.intent != i && d.outbox[n].event.txn != txn { assert RowOk(d, n); }
  }

  lemma NewRowKeepsRows(d: Desk, i: IntentId, txn: TxnId, paidAt: int, now: int)
    requires RowsOk(d) && i in d.orders && d.orders[i].verified
    requires d.orders[i].orderId !in d.transactions && !TxnRecorded(d.transactions, txn)
    ensures RowsOk(AddRow(d, i, txn, paidAt, now))
  {
    var d' := AddRow(d, i, txn, paidAt, now);
    NoEarlierRow(d, i, txn);
    forall n: nat | n < |d'.outbox| ensures RowOk(d', n) {
      if n < |d.outbox| { assert RowOk(d, n); }
    }
  }

  lemma NewRowKeepsDelivery(c: Config, processed: map<EventId, int>, outbox: seq<OutboxRow>, workers: map<WorkerId, Worker>, row: OutboxRow)
    requires DeliveryOk(c, processed, outbox, workers) && row.status != Delivered
    ensures DeliveryOk(c, processed, outbox + [row], workers)
  {
    forall w | w in workers ensures WorkerOk(workers[w], processed, outbox + [row]) { assert WorkerOk(workers[w], processed, outbox); }
  }

  lemma NewRowKeepsCredits(c: Config, processed: map<EventId, int>, credits: seq<Credit>, outbox: seq<OutboxRow>,
                           workers: map<WorkerId, Worker>, row: OutboxRow)
    requires CreditsOk(processed, credits, outbox) && DeliveryOk(c, processed, outbox, workers)
    requires forall n: nat :: n < |outbox| ==> outbox[n].event.intent != row.event.intent
    ensures CreditsOk(processed, credits, outbox + [row])
  {
    forall j | 0 <= j < |credits| ensures CreditOk(credits[j], processed, outbox + [row]) && credits[j].intent != row.event.intent {
      assert CreditOk(credits[j], processed, outbox);
    }
    NoCreditNoSum(credits, row.event.intent);
  }

  lemma AddRowKeepsInv(c: Config, s: State, i: IntentId, txn: TxnId, paidAt: int)
    requires Inv(c, s) && i in s.desk.orders && s.desk.orders[i].verified
    requires s.desk.orders[i].orderId !in s.desk.transactions && !TxnRecorded(s.desk.transactions, txn)
    ensures Inv(c, s.(desk := AddRow(s.desk, i, txn, paidAt, s.now)))
  {
    var d' := AddRow(s.desk, i, txn, paidAt, s.now);
    var row := d'.outbox[|s.desk.outbox|];
    NoEarlierRow(s.desk, i, txn);
    IntentsStayOk(s.main.intents, s.main.processed, s.desk.outbox, s.main.processed, d'.outbox);
    NewRowKeepsRows(s.desk, i, txn, paidAt, s.now);
    NewRowKeepsDelivery(c, s.main.processed, s.desk.outbox, s.desk.workers, row);
    NewRowKeepsCredits(c, s.main.processed, s.main.credits, s.desk.outbox, s.desk.workers, row);
  }

  lemma ReconcileKeepsInv(c: Config, s: State, i: IntentId, answer: ProviderOrder, payments: seq<ProviderPayment>)
    requires Inv(c, s)
    ensures Inv(c, s.(desk := ReconcileTx(s.desk, i, answer, payments, s.now)))
  {
    if i in s.desk.orders && VerifiedPayment(answer, payments, s.desk.orders[i].orderId, s.desk.orders[i].terms.amount).Some? {
      var p := VerifiedPayment(answer, payments, s.desk.orders[i].orderId, s.desk.orders[i].terms.amount).value;
      MarkVerifiedKeepsInv(c, s, i);
      if !TxnRecorded(s.desk.transactions, p.txn) && s.desk.orders[i].orderId !in s.desk.transactions {
        AddRowKeepsInv(c, s.(desk := MarkVerified(s.desk, i)), i, p.txn, if p.completedAt.Some? then p.completedAt.value else s.now);
      }
    }
  }

  // ---------------------------------------------------------------- processing an event

  lemma EventIsKnown(c: Config, s: State, n: nat)
    requires Inv(c, s) && n < |s.desk.outbox|
    ensures var e := s.desk.outbox[n].event;
            e.id == n && e.intent < |s.main.intents| && TermsOf(s.main.intents[e.intent]) == e.terms
  {
    assert RowOk(s.desk, n);
  }

  // An intent marked credited, or carrying a transaction, got both from the one row it has.
  lemma CreditedIsProcessed(c: Config, s: State, n: nat)
    requires Inv(c, s) && n < |s.desk.outbox| && s.desk.outbox[n].event.intent < |s.main.intents|
    ensures s.main.intents[s.desk.outbox[n].event.intent].status == Credited ==> n in s.main.processed
  {
    var i := s.desk.outbox[n].event.intent;
    assert IntentOk(s.main.intents[i], i, s.main.processed, s.desk.outbox);
    if s.main.intents[i].status == Credited {
      var m: nat :| m < |s.desk.outbox| && s.desk.outbox[m].event.intent == i && m in s.main.processed;
    }
  }

  lemma UniqueKeysAreFree(c: Config, s: State, n: nat)
    requires Inv(c, s) && n < |s.desk.outbox| && n !in s.main.processed
    ensures !CreditKeyTaken(s.main.credits, s.desk.outbox[n].event)
    ensures !TxnUsed(s.main.intents, s.desk.outbox[n].event.txn, s.desk.outbox[n].event.intent)
  {
    var e := s.desk.outbox[n].event;
    assert RowOk(s.desk, n);
    forall j | 0 <= j < |s.main.credits| ensures s.main.credits[j].event != e.id {
      assert CreditOk(s.main.credits[j], s.main.processed, s.desk.outbox);
    }
    forall i: IntentId | i < |s.main.intents| && i != e.intent ensures s.main.intents[i].txn != Some(e.txn) {
      assert IntentOk(s.main.intents[i], i, s.main.processed, s.desk.outbox);
    }
  }

  // In a reachable state an outbox event is credited once, refused because it was paid too late, or a
  // duplicate; the other errors of processVerifiedEvent are unreachable.
  lemma ProcessingOutcomes(c: Config, s: State, n: nat)
    requires Inv(c, s) && n < |s.desk.outbox|
    ensures var e := s.desk.outbox[n].event;
            && e.intent < |s.main.intents|
            && Process(c, s.main, e) ==
                 (if n in s.main.processed then (s.main, Duplicate)
                  else if s.main.intents[e.intent].expiresAt < e.paidAt then (s.main, Refused(PaidAfterExpiry))
                  else (CreditTx(c, s.main, e), Accepted))
  {
    EventIsKnown(c, s, n);
    CreditedIsProcessed(c, s, n);
    if n !in s.main.processed { UniqueKeysAreFree(c, s, n); }
  }

  lemma CreditKeepsIntents(c: Config, m: Main, outbox: seq<OutboxRow>, n: nat)
    requires IntentsOk(m.intents, m.processed, outbox) && n < |outbox| && outbox[n].event.id == n && outbox[n].event.intent < |m.intents|
    ensures IntentsOk(CreditTx(c, m, outbox[n].event).intents, CreditTx(c, m, outbox[n].event).processed, outbox)
  {
    var e := outbox[n].event;
    var m' := CreditTx(c, m, e);
    forall i: IntentId | i < |m'.intents| ensures IntentOk(m'.intents[i], i, m'.processed, outbox) {
      IntentStaysOk(m.intents[i], i, m.processed, outbox, m'.processed, outbox);
      if i == e.intent { assert outbox[n].event.intent == i && n in m'.processed; }
    }
  }

  lemma CreditKeepsDelivery(c: Config, m: Main, outbox: seq<OutboxRow>, workers: map<WorkerId, Worker>, n: nat)
    requires DeliveryOk(c, m.processed, outbox, workers) && n < |outbox| && outbox[n].event.id == n && outbox[n].event.intent < |m.intents|
    ensures DeliveryOk(c, CreditTx(c, m, outbox[n].event).processed, outbox, workers)
  {
    var processed := CreditTx(c, m, outbox[n].event).processed;
    forall w | w in workers ensures WorkerOk(workers[w], processed, outbox) { assert WorkerOk(workers[w], m.processed, outbox); }
  }

  lemma CreditKeepsCredits(c: Config, m: Main, d: Desk, n: nat)
    requires CreditsOk(m.processed, m.credits, d.outbox) && RowsOk(d)
    requires n < |d.outbox| && n !in m.processed && d.outbox[n].event.intent < |m.intents|
    ensures CreditsOk(CreditTx(c, m, d.outbox[n].event).processed, CreditTx(c, m, d.outbox[n].event).credits, d.outbox)
  {
    var m' := CreditTx(c, m, d.outbox[n].event);
    assert RowOk(d, n);
    forall j | 0 <= j < |m'.credits| ensures CreditOk(m'.credits[j], m'.processed, d.outbox) {
      if j < |m.credits| { assert CreditOk(m.credits[j], m.processed, d.outbox); }
    }
    forall k: nat | k < |d.outbox|
      ensures Sum(CreditsOf(d.outbox[k].event.intent), m'.credits) == (if k in m'.processed then 1 else 0)
    {
      SumAppend(CreditsOf(d.outbox[k].event.intent), m.credits, CreditOf(d.outbox[n].event));
    }
  }

  lemma CreditKeepsBalances(c: Config, m: Main, e: Event)
    requires BalancesOk(m) && e.intent < |m.intents|
    ensures BalancesOk(CreditTx(c, m, e))
  {
    var m' := CreditTx(c, m, e);
    forall u: UserId
      ensures Balance(m'.premium, u) == Sum(PremiumOf(u), m'.credits) && Balance(m'.realMoney, u) == Sum(RealMoneyOf(u), m'.credits)
    {
      SumAppend(PremiumOf(u), m.credits, CreditOf(e));
      SumAppend(RealMoneyOf(u), m.credits, CreditOf(e));
    }
  }

  lemma CreditKeepsPapers(c: Config, m: Main, d: Desk, e: Event)
    requires PapersOk(m.intents, d) && e.intent < |m.intents|
    ensures PapersOk(CreditTx(c, m, e).intents, d)
  {
  }

  lemma CreditKeepsInv(c: Config, s: State, n: nat)
    requires Inv(c, s) && n < |s.desk.outbox| && n !in s.main.processed && s.desk.outbox[n].event.intent < |s.main.intents|
    ensures Inv(c, s.(main := CreditTx(c, s.main, s.desk.outbox[n].event)))
  {
    assert RowOk(s.desk, n);
    CreditKeepsIntents(c, s.main, s.desk.outbox, n);
    CreditKeepsPapers(c, s.main, s.desk, s.desk.outbox[n].event);
    CreditKeepsDelivery(c, s.main, s.desk.outbox, s.desk.workers, n);
    CreditKeepsCredits(c, s.main, s.desk, n);
    CreditKeepsBalances(c, s.main, s.desk.outbox[n].event);
  }

  lemma ProcessKeepsInv(c: Config, s: State, n: nat)
    requires Inv(c, s) && n < |s.desk.outbox|
    ensures var (main, reply) := Process(c, s.main, s.desk.outbox[n].event);
            Inv(c, s.(main := main)) && (!reply.Refused? ==> n in main.processed)
  {
    ProcessingOutcomes(c, s, n);
    EventIsKnown(c, s, n);
    if n !in s.main.processed { CreditKeepsInv(c, s, n); }
  }

  // ---------------------------------------------------------------- the worker

  lemma WorkersKeepInv(c: Config, s: State, w: WorkerId, worker: Worker)
    requires Inv(c, s) && WorkerOk(worker, s.main.processed, s.desk.outbox)
    ensures Inv(c, s.(desk := s.desk.(workers := s.desk.workers[w := worker])))
  {
    RowsStayOk(s.desk, s.desk.(workers := s.desk.workers[w := worker]));
  }

  lemma RowUpdateKeepsRows(d: Desk, n: nat, row: OutboxRow)
    requires RowsOk(d) && n < |d.outbox| && row.event == d.outbox[n].event
    ensures RowsOk(d.(outbox := d.outbox[n := row]))
  {
    var d' := d.(outbox := d.outbox[n := row]);
    forall k: nat | k < |d'.outbox| ensures RowOk(d', k) { assert RowOk(d, k); }
  }

  lemma RowUpdateKeepsDelivery(c: Config, processed: map<EventId, int>, outbox: seq<OutboxRow>, workers: map<WorkerId, Worker>, n: nat, row: OutboxRow)
    requires DeliveryOk(c, processed, outbox, workers) && n < |outbox| && row.event == outbox[n].event
    requires row.status == Delivered ==> n in processed
    ensures DeliveryOk(c, processed, outbox[n := row], workers)
  {
    forall w | w in workers ensures WorkerOk(workers[w], processed, outbox[n := row]) { assert WorkerOk(workers[w], processed, outbox); }
  }

  lemma RowUpdateKeepsCredits(processed: map<EventId, int>, credits: seq<Credit>, outbox: seq<OutboxRow>, n: nat, row: OutboxRow)
    requires CreditsOk(processed, credits, outbox) && n < |outbox| && row.event == outbox[n].event
    ensures CreditsOk(processed, credits, outbox[n := row])
  {
    forall j | 0 <= j < |credits| ensures CreditOk(credits[j], processed, outbox[n := row]) { assert CreditOk(credits[j], processed, outbox); }
    forall k: nat | k < |outbox| ensures outbox[n := row][k].event == outbox[k].event {}
  }

  lemma RowUpdateKeepsInv(c: Config, s: State, n: nat, row: OutboxRow)
    requires Inv(c, s) && n < |s.desk.outbox| && row.event == s.desk.outbox[n].event
    requires row.status == Delivered ==> n in s.main.processed
    ensures Inv(c, s.(desk := s.desk.(outbox := s.desk.outbox[n := row])))
  {
    IntentsStayOk(s.main.intents, s.main.processed, s.desk.outbox, s.main.processed, s.desk.outbox[n := row]);
    RowUpdateKeepsRows(s.desk, n, row);
    RowUpdateKeepsDelivery(c, s.main.processed, s.desk.outbox, s.desk.workers, n, row);
    RowUpdateKeepsCredits(s.main.processed, s.main.credits, s.desk.outbox, n, row);
  }

  lemma TakingRowKeepsInv(c: Config, s: State, w: WorkerId, n: nat)
    requires Inv(c, s) && n < |s.desk.outbox|
    ensures Inv(c, s.(desk := TakeRow(s.desk, w, n, s.now)))
  {
    var row := s.desk.outbox[n].(status := Processing, lockedUntil := Some(s.now + LEASE));
    RowUpdateKeepsInv(c, s, n, row);
    WorkersKeepInv(c, s.(desk := s.desk.(outbox := s.desk.outbox[n := row])), w, Claimed(n, s.desk.outbox[n].attempts, s.now + LEASE));
  }

  lemma ClaimKeepsInv(c: Config, s: State, w: WorkerId)
    requires Inv(c, s)
    ensures Inv(c, s.(desk := ClaimTx(s.desk, w, s.now)))
  {
    var found := FirstClaimable(s.desk.outbox, s.now, 0);
    if found.Some? { TakingRowKeepsInv(c, s, w, found.value); }
  }

  lemma PostKeepsInv(c: Config, s: State, w: WorkerId, arrives: bool, answered: bool)
    requires Inv(c, s)
    ensures Inv(c, PostStep(c, s, w, arrives, answered))
  {
    var worker := WorkerOf(s, w);
    if worker.Claimed? && worker.row < |s.desk.outbox| {
      if arrives { ProcessKeepsInv(c, s, worker.row); }
      var (main, reply) := if arrives then Process(c, s.main, s.desk.outbox[worker.row].event) else (s.main, Duplicate);
      WorkersKeepInv(c, s.(main := main), w, Answered(worker.row, worker.attempts, arrives && !reply.Refused? && answered));
    }
  }

  lemma MarkKeepsInv(c: Config, s: State, w: WorkerId)
    requires Inv(c, s)
    ensures Inv(c, s.(desk := MarkTx(s.desk, w, s.now)))
  {
    var worker := WorkerOf(s, w);
    if worker.Answered? && worker.row < |s.desk.outbox| {
      assert WorkerOk(worker, s.main.processed, s.desk.outbox);
      var marked := MarkTx(s.desk, w, s.now).outbox[worker.row];
      RowUpdateKeepsInv(c, s, worker.row, marked);
      WorkersKeepInv(c, s.(desk := s.desk.(outbox := s.desk.outbox[worker.row := marked])), w, Idle);
    }
  }

  // ---------------------------------------------------------------- every run

  lemma StepKeepsInv(c: Config, s: State, a: Action)
    requires Inv(c, s)
    ensures Inv(c, Step(c, s, a))
  {
    match a
    case Tick(seconds) =>
    case CreateIntent(user, amount, purpose, clientKey) => CreateIntentKeepsInv(c, s, user, amount, purpose, clientKey);
    case ReadIntent(r, i) =>
    case WriteExpired(r) => ExpiringKeepsInv(c, s, r);
    case ExchangeToken(i) => if i < |s.main.intents| { ExchangeKeepsInv(c, s, i); }
    case CreateOrder(i) => CreateOrderKeepsInv(c, s, i);
    case Reconcile(i, order, payments) => ReconcileKeepsInv(c, s, i, order, payments);
    case Claim(w) => ClaimKeepsInv(c, s, w);
    case Post(w, arrives, answered) => PostKeepsInv(c, s, w, arrives, answered);
    case Arrive(row) => if row < |s.desk.outbox| { ProcessKeepsInv(c, s, row); }
    case Mark(w) => MarkKeepsInv(c, s, w);
    case CrashWorker(w) => WorkersKeepInv(c, s, w, Idle);
  }

  lemma {:induction false} RunKeepsInv(c: Config, actions: seq<Action>)
    ensures Inv(c, Run(c, EMPTY, actions))
  {
    if |actions| > 0 {
      RunKeepsInv(c, actions[..|actions| - 1]);
      StepKeepsInv(c, Run(c, EMPTY, actions[..|actions| - 1]), actions[|actions| - 1]);
    }
  }

  // Some run from empty databases leads to s.
  ghost predicate Reachable(c: Config, s: State) {
    exists actions :: Run(c, EMPTY, actions) == s
  }

  lemma ReachableHoldsInv(c: Config, s: State)
    requires Reachable(c, s)
    ensures Inv(c, s)
  {
    var actions :| Run(c, EMPTY, actions) == s;
    RunKeepsInv(c, actions);
  }
}
