// The payment code over its two databases, written as the source has it.
module PaymentServices {
  import opened Types
  import opened Payments
  import opened PaymentLaws
  import opened PaymentTheorems
  import opened PaymentExact

  // ---------------------------------------------------------------- the main service

  class MainService {
    const config: Config
    var intents: seq<Intent>
    var processed: map<EventId, int>
    var credits: seq<Credit>
    var premium: map<UserId, int>
    var realMoney: map<UserId, int>
    var readers: map<ReaderId, Reader>

    function View(): Main
      reads this
    {
      Main(intents, processed, credits, premium, realMoney, readers)
    }

    constructor (c: Config)
      ensures config == c && View() == EMPTY.main
    {
      config := c;
      intents, processed, credits, premium, realMoney, readers := [], map[], [], map[], map[], map[];
    }

    method Restore(m: Main)
      modifies this
      ensures View() == m
    {
      intents, processed, credits, premium, realMoney, readers := m.intents, m.processed, m.credits, m.premium, m.realMoney, m.readers;
    }

    // findUnique by idempotency key
    method FindIntent(clientKey: string) returns (found: Option<IntentId>)
      ensures found.None? <==> !ClientKeyUsed(intents, clientKey)
      ensures found.Some? ==> found.value < |intents| && intents[found.value].clientKey == clientKey
    {
      for i := 0 to |intents|
        invariant forall k :: 0 <= k < i ==> intents[k].clientKey != clientKey
      {
        if intents[i].clientKey == clientKey { return Some(i); }
      }
      return None;
    }

    // The insert of createIntent; None is the unique violation.
    method InsertIntent(user: UserId, amount: int, purpose: Purpose, clientKey: string, now: int) returns (created: Option<IntentId>)
      requires ValidAmount(amount)
      modifies this
      ensures View() == CreateIntentTx(old(View()), user, amount, purpose, clientKey, now)
      ensures created.None? <==> ClientKeyUsed(old(intents), clientKey)
      ensures created.Some? ==> created.value == |old(intents)| && created.value < |intents| &&
                                intents[created.value] == Intent(user, amount, purpose, clientKey, now + 900, Created, None)
    {
      var existing := FindIntent(clientKey);
      if existing.Some? { return None; }
      intents := intents + [Intent(user, amount, purpose, clientKey, now + INTENT_TTL, Created, None)];
      return Some(|intents| - 1);
    }

    // The read of getIntent.
    method ReadIntent(r: ReaderId, i: IntentId, now: int) returns (expired: bool)
      modifies this
      ensures View() == ReadIntentTx(old(View()), r, i, now)
      ensures expired <==> i < |intents| && intents[i].expiresAt <= now && intents[i].status == Created
      ensures readers == old(readers)[r := if expired then SawExpired(i) else NotReading] && intents == old(intents)
    {
      expired := i < |intents| && intents[i].expiresAt <= now && intents[i].status == Created;
      readers := readers[r := if expired then SawExpired(i) else NotReading];
    }

    // Its write, by id alone.
    method WriteExpired(r: ReaderId)
      requires r in readers && readers[r].SawExpired? && readers[r].intent < |intents|
      modifies this
      ensures View() == WriteExpiredTx(old(View()), r)
    {
      var i := readers[r].intent;
      intents := intents[i := intents[i].(status := Expired)];
      readers := readers[r := NotReading];
    }

    // creditPremiumWallet
    method CreditPremiumWallet(e: Event)
      requires e.terms.purpose == PremiumCredits
      modifies this`credits, this`premium
      ensures credits == old(credits) + [CreditOf(e)] && premium == Add(old(premium), CreditOf(e), PremiumCredits)
    {
      var amount := e.terms.amount / 100;
      var after := Balance(premium, e.terms.user) + amount;
      credits := credits + [Credit(e.intent, e.terms.user, amount, PremiumCredits, e.id)];
      premium := premium[e.terms.user := after];
    }

    // creditRealMoneyDeposit
    method CreditRealMoneyDeposit(e: Event)
      requires e.terms.purpose == RealMoneyDeposit
      modifies this`credits, this`realMoney
      ensures credits == old(credits) + [CreditOf(e)] && realMoney == Add(old(realMoney), CreditOf(e), RealMoneyDeposit)
    {
      var after := Balance(realMoney, e.terms.user) + e.terms.amount;
      credits := credits + [Credit(e.intent, e.terms.user, e.terms.amount, RealMoneyDeposit, e.id)];
      realMoney := realMoney[e.terms.user := after];
    }

    method ProcessVerifiedEvent(e: Event) returns (reply: Reply)
      modifies this
      ensures (View(), reply) == Process(config, old(View()), e)
    {
      var digest := config.digest(e);
      if e.id in processed {
        return if processed[e.id] != digest then Refused(ReplayMismatch) else Duplicate;
      }
      if e.intent >= |intents| { return Refused(IntentNotFound); }
      var intent := intents[e.intent];
      if Terms(intent.user, intent.amount, intent.purpose) != e.terms { return Refused(IntentMismatch); }
      if intent.status == Credited {
        if intent.txn != Some(e.txn) { return Refused(AlreadyCredited); }
        processed := processed[e.id := digest];
        return Duplicate;
      }
      if intent.expiresAt < e.paidAt { return Refused(PaidAfterExpiry); }
      // The unique keys of the ledger and of the transaction id.
      if CreditKeyTaken(credits, e) || TxnUsed(intents, e.txn, e.intent) { return Refused(UniqueConflict); }
      if e.terms.purpose == RealMoneyDeposit { CreditRealMoneyDeposit(e); } else { CreditPremiumWallet(e); }
      intents := intents[e.intent := intent.(status := Credited, txn := Some(e.txn))];
      processed := processed[e.id := digest];
      return Accepted;
    }
  }

  // ---------------------------------------------------------------- the payment service

  class PaymentService {
    var sessions: map<IntentId, Session>
    var orders: map<IntentId, Order>
    var transactions: map<OrderId, TxnId>
    var outbox: seq<OutboxRow>
    var workers: map<WorkerId, Worker>

    function View(): Desk
      reads this
    {
      Desk(sessions, orders, transactions, outbox, workers)
    }

    constructor ()
      ensures View() == EMPTY.desk
    {
      sessions, orders, transactions, outbox, workers := map[], map[], map[], [], map[];
    }

    method Restore(d: Desk)
      modifies this
      ensures View() == d
    {
      sessions, orders, transactions, outbox, workers := d.sessions, d.orders, d.transactions, d.outbox, d.workers;
    }

    // exchangeSignedIntent: one session per intent, the first one wins.
    method ExchangeSignedIntent(i: IntentId, intent: Intent, now: int) returns (ok: bool)
      modifies this
      ensures View() == ExchangeTx(old(View()), i, intent, now) && Exchanged(old(View()), View(), i, intent, now)
      ensures ok <==> intent.expiresAt > now
      ensures ok ==> i in sessions
    {
      if intent.expiresAt <= now { return false; }
      if i !in sessions { sessions := sessions[i := Session(Terms(intent.user, intent.amount, intent.purpose), intent.expiresAt)]; }
      return true;
    }

    method CreateProviderOrder(i: IntentId, now: int) returns (orderId: Option<OrderId>)
      modifies this
      ensures View() == CreateOrderTx(old(View()), i, now) && Ordered(old(View()), View(), i, now)
      ensures orderId.Some? <==> i in old(sessions) && old(sessions)[i].expiresAt > now
      ensures orderId.Some? ==> i in orders && orders[i].orderId == orderId.value
    {
      if i !in sessions || sessions[i].expiresAt <= now { return None; }
      var terms := sessions[i].terms;
      if i !in orders { orders := orders[i := Order(terms, OrderId(terms.purpose, i), false)]; }
      return Some(orders[i].orderId);
    }

    // reconcileOrder with the provider's answer, as one transaction; a transaction of another id for an
    // order that has one already rolls back. It verifies exactly what the provider confirms with a first
    // matching payment that is on record or can be.
    method ReconcileOrder(i: IntentId, answer: ProviderOrder, payments: seq<ProviderPayment>, now: int) returns (verified: bool)
      modifies this
      ensures View() == ReconcileTx(old(View()), i, answer, payments, now)
      ensures if i in old(orders) then Reconciled(old(View()), View(), i, answer, payments, now) else View() == old(View())
      ensures verified <==>
                i in old(orders) && Confirms(answer, old(orders)[i]) &&
                exists k: nat :: IsFirst(payments, k, old(orders)[i]) &&
                                 (TxnRecorded(old(transactions), payments[k].txn) || old(orders)[i].orderId !in old(transactions))
      ensures verified ==> i in orders && orders[i].verified
    {
      if i in orders {
        ReconcilingIsExact(View(), i, answer, payments, now);
        FindingIsExact(orders[i], payments);
      }
      if i !in orders { return false; }
      var order := orders[i];
      var successful := FindVerifiedPayment(answer, payments, order.orderId, order.terms.amount);
      if successful.None? { return false; }
      var p := successful.value;
      var paidAt := if p.completedAt.Some? then p.completedAt.value else now;
      if !TxnRecorded(transactions, p.txn) {
        if order.orderId in transactions { return false; }
        transactions := transactions[order.orderId := p.txn];
        outbox := outbox + [OutboxRow(Event(|outbox|, i, order.terms, order.orderId, p.txn, paidAt), Pending, 0, now, None)];
      }
      orders := orders[i := order.(verified := true)];
      return true;
    }

    // The claim of deliverNextEvent: the oldest row that is due and not under a running lease.
    method ClaimNext(w: WorkerId, now: int) returns (claimed: Option<nat>)
      requires w !in workers || workers[w].Idle?
      modifies this
      ensures View() == ClaimTx(old(View()), w, now)
      ensures claimed.Some? ==> Took(old(View()), View(), w, claimed.value, now)
      ensures claimed.None? ==> View() == old(View()) && forall n :: 0 <= n < |outbox| ==> !Due(outbox[n], now)
    {
      var n := 0;
      while n < |outbox| && !Claimable(outbox[n], now)
        invariant 0 <= n <= |outbox|
        invariant forall k :: 0 <= k < n ==> !Claimable(outbox[k], now)
      {
        n := n + 1;
      }
      FirstIs(outbox, now, n);
      if n == |outbox| { return None; }
      var row := outbox[n];
      outbox := outbox[n := row.(status := Processing, lockedUntil := Some(now + LEASE))];
      workers := workers[w := Claimed(n, row.attempts, now + LEASE)];
      return Some(n);
    }

    method MarkRow(w: WorkerId, now: int)
      requires w in workers && workers[w].Answered? && workers[w].row < |outbox|
      modifies this
      ensures View() == MarkTx(old(View()), w, now) && Marked(old(View()), View(), w, now)
    {
      DelayIsPause(workers[w].attempts + 1);
      var worker := workers[w];
      var row := outbox[worker.row];
      if worker.ok {
        outbox := outbox[worker.row := row.(status := Delivered, lockedUntil := None)];
      } else {
        var attempts := worker.attempts + 1;
        outbox := outbox[worker.row := row.(status := Pending, attempts := attempts, nextAttempt := now + Delay(attempts), lockedUntil := None)];
      }
      workers := workers[w := Idle];
    }
  }

  lemma {:induction false} FirstFrom(rows: seq<OutboxRow>, now: int, from: nat, n: nat)
    requires from <= n <= |rows|
    requires forall k :: from <= k < n ==> !Claimable(rows[k], now)
    requires n < |rows| ==> Claimable(rows[n], now)
    ensures FirstClaimable(rows, now, from) == if n < |rows| then Some(n) else None
    decreases n - from
  {
    if from < n { FirstFrom(rows, now, from + 1, n); }
  }

  lemma FirstIs(rows: seq<OutboxRow>, now: int, n: nat)
    requires n <= |rows|
    requires forall k :: 0 <= k < n ==> !Claimable(rows[k], now)
    requires n < |rows| ==> Claimable(rows[n], now)
    ensures FirstClaimable(rows, now, 0) == if n < |rows| then Some(n) else None
  {
    FirstFrom(rows, now, 0, n);
  }

  // verifiedSuccessfulPayment picks the first payment that counts, if the order itself does.
  method FindVerifiedPayment(order: ProviderOrder, payments: seq<ProviderPayment>, orderId: OrderId, amount: int)
    returns (found: Option<ProviderPayment>)
    ensures found == VerifiedPayment(order, payments, orderId, amount)
    ensures found.Some? ==> found.value in payments && Matches(found.value, orderId, amount)
  {
    if order.orderId != orderId || !order.paid || !order.inr || order.amount != Some(amount) { return None; }
    var i := 0;
    while i < |payments|
      invariant 0 <= i <= |payments|
      invariant FindPayment(payments, orderId, amount) == FindPayment(payments[i..], orderId, amount)
    {
      if Matches(payments[i], orderId, amount) { return Some(payments[i]); }
      assert payments[i..][1..] == payments[i + 1..];
      i := i + 1;
    }
    return None;
  }

  // ---------------------------------------------------------------- both together

  // Steps only the worker w takes.
  predicate Belongs(a: Action, w: WorkerId) {
    match a
    case Claim(v) => v == w
    case Post(v, _, _) => v == w
    case Mark(v) => v == w
    case CrashWorker(v) => v == w
    case _ => false
  }

  lemma OthersKeepWorker(c: Config, s: State, a: Action, w: WorkerId)
    requires !Belongs(a, w)
    ensures WorkerOf(Step(c, s, a), w) == WorkerOf(s, w)
  {
  }

  lemma OutboxOnlyGrows(c: Config, s: State, a: Action)
    ensures |s.desk.outbox| <= |Step(c, s, a).desk.outbox|
  {
  }

  lemma {:induction false} RunInTwo(c: Config, s: State, first: seq<Action>, second: seq<Action>)
    ensures Run(c, s, first + second) == Run(c, Run(c, s, first), second)
  {
    if |second| == 0 {
      assert first + second == first;
    } else {
      var n := |second| - 1;
      assert (first + second)[..|first| + n] == first + second[..n];
      RunInTwo(c, s, first, second[..n]);
    }
  }

  // Intents are never dropped, so the second lookup of createIntent finds what the insert collided with.
  lemma KeyStaysUsed(c: Config, earlier: seq<Action>, trace: seq<Action>, clientKey: string)
    requires earlier <= trace && ClientKeyUsed(Run(c, EMPTY, earlier).main.intents, clientKey)
    ensures ClientKeyUsed(Run(c, EMPTY, trace).main.intents, clientKey)
  {
    var since := trace[|earlier|..];
    assert trace == earlier + since;
    RunInTwo(c, EMPTY, earlier, since);
    IntentsKeepTheirTerms(c, Run(c, EMPTY, earlier), since);
    var before, after := Run(c, EMPTY, earlier).main.intents, Run(c, EMPTY, trace).main.intents;
    var i :| 0 <= i < |before| && before[i].clientKey == clientKey;
    assert SameOffer(before[i], after[i]);
  }

  datatype DeliveryResult = NothingDue | DeliveredRow(row: nat) | WillRetry(row: nat)

  // The payment behind this row was completed after its intent expired.
  ghost predicate PaidTooLate(s: State, n: nat) {
    && n < |s.desk.outbox| && s.desk.outbox[n].event.intent < |s.main.intents|
    && s.desk.outbox[n].event.paidAt > s.main.intents[s.desk.outbox[n].event.intent].expiresAt
  }

  lemma RefusedIsLate(c: Config, trace: seq<Action>, n: nat)
    requires n < |Run(c, EMPTY, trace).desk.outbox|
    ensures var s := Run(c, EMPTY, trace); Process(c, s.main, s.desk.outbox[n].event).1.Refused? ==> PaidTooLate(s, n)
  {
    RunKeepsInv(c, trace);
    ProcessingOutcomes(c, Run(c, EMPTY, trace), n);
  }

  lemma LateStaysLate(c: Config, earlier: seq<Action>, trace: seq<Action>, n: nat)
    requires earlier <= trace && PaidTooLate(Run(c, EMPTY, earlier), n)
    ensures PaidTooLate(Run(c, EMPTY, trace), n)
  {
    var since := trace[|earlier|..];
    assert trace == earlier + since;
    RunInTwo(c, EMPTY, earlier, since);
    RunKeepsInv(c, earlier);
    TimesStay(c, Run(c, EMPTY, earlier), since, n);
  }

  class Pipeline {
    const config: Config
    const main: MainService
    const desk: PaymentService
    var now: int
    // Every step taken since both databases were empty.
    ghost var trace: seq<Action>

    function View(): State
      reads this, main, desk
    {
      State(now, main.View(), desk.View())
    }

    ghost predicate Valid()
      reads this, main, desk
    {
      main.config == config && View() == Run(config, EMPTY, trace)
    }

    constructor (c: Config)
      ensures Valid() && config == c && View() == EMPTY && fresh(main) && fresh(desk)
    {
      config := c;
      main := new MainService(c);
      desk := new PaymentService();
      now, trace := 0, [];
    }

    ghost method Record(before: State, a: Action)
      requires main.config == config && before == Run(config, EMPTY, trace) && View() == Step(config, before, a)
      modifies this`trace
      ensures Valid() && trace == old(trace) + [a]
    {
      trace := trace + [a];
      assert trace[..|trace| - 1] == old(trace);
    }

    // Clocks, workers, reconciliations, readers, requests and stray deliveries between two steps of this call,
    // which is a worker's or nobody's.
    method Interleave(me: Option<WorkerId>)
      requires Valid()
      modifies this, main, desk
      ensures Valid() && old(trace) <= trace
      ensures me.Some? ==> WorkerOf(View(), me.value) == WorkerOf(old(View()), me.value)
      ensures |old(desk.outbox)| <= |desk.outbox|
    {
      var actions: seq<Action> := *;
      var i := 0;
      while i < |actions|
        invariant 0 <= i <= |actions|
        invariant Valid() && old(trace) <= trace
        invariant me.Some? ==> WorkerOf(View(), me.value) == WorkerOf(old(View()), me.value)
        invariant |old(desk.outbox)| <= |desk.outbox|
      {
        if me.None? || !Belongs(actions[i], me.value) {
          if me.Some? { OthersKeepWorker(config, View(), actions[i], me.value); }
          OutboxOnlyGrows(config, View(), actions[i]);
          ghost var before := View();
          var next := Step(config, View(), actions[i]);
          main.Restore(next.main);
          desk.Restore(next.desk);
          now := next.now;
          Record(before, actions[i]);
        }
        i := i + 1;
      }
    }

    // createIntent: a lookup, an insert that the unique key guards, and after a violation one more lookup. An
    // intent is returned only if it is the one asked for; otherwise the key belongs to another request.
    method CreateIntent(user: UserId, amount: int, purpose: Purpose, clientKey: string) returns (intent: Option<IntentId>)
      requires Valid() && ValidAmount(amount)
      modifies this, main, desk
      ensures Valid() && old(trace) <= trace
      ensures intent.Some? ==> intent.value < |main.intents| && main.intents[intent.value].clientKey == clientKey &&
                               TermsOf(main.intents[intent.value]) == Terms(user, amount, purpose)
      ensures intent.None? ==> forall i :: 0 <= i < |main.intents| && main.intents[i].clientKey == clientKey ==>
                                 TermsOf(main.intents[i]) != Terms(user, amount, purpose)
      ensures intent.None? ==> ClientKeyUsed(main.intents, clientKey)
      ensures ClientKeyUsed(old(main.intents), clientKey) ==> View() == old(View())
    {
      OneIntentPerKey(config, trace);
      var existing := main.FindIntent(clientKey);
      if existing.Some? { return ReplayOf(existing.value, Terms(user, amount, purpose)); }
      Interleave(None);
      var created := InsertIntent(user, amount, purpose, clientKey);
      if created.Some? { return created; }
      intent := LookAgain(Terms(user, amount, purpose), clientKey);
    }

    // The second lookup, after the insert hit the unique key.
    method LookAgain(terms: Terms, clientKey: string) returns (intent: Option<IntentId>)
      requires Valid() && ClientKeyUsed(main.intents, clientKey)
      modifies this, main, desk
      ensures Valid() && old(trace) <= trace
      ensures intent.Some? ==> intent.value < |main.intents| && main.intents[intent.value].clientKey == clientKey &&
                               TermsOf(main.intents[intent.value]) == terms
      ensures intent.None? ==> ClientKeyUsed(main.intents, clientKey) &&
                               forall i :: 0 <= i < |main.intents| && main.intents[i].clientKey == clientKey ==> TermsOf(main.intents[i]) != terms
    {
      Interleave(None);
      KeyStaysUsed(config, old(trace), trace, clientKey);
      OneIntentPerKey(config, trace);
      var existing := main.FindIntent(clientKey);
      return ReplayOf(existing.value, terms);
    }

    // assertIntentReplay
    function ReplayOf(i: IntentId, terms: Terms): Option<IntentId>
      requires i < |main.intents|
      reads this, main
    {
      if TermsOf(main.intents[i]) == terms then Some(i) else None
    }

    method InsertIntent(user: UserId, amount: int, purpose: Purpose, clientKey: string) returns (created: Option<IntentId>)
      requires Valid() && ValidAmount(amount)
      modifies this, main
      ensures Valid() && trace == old(trace) + [Action.CreateIntent(user, amount, purpose, clientKey)]
      ensures created.None? ==> ClientKeyUsed(main.intents, clientKey)
      ensures created.Some? ==> created.value < |main.intents| && main.intents[created.value].clientKey == clientKey &&
                                TermsOf(main.intents[created.value]) == Terms(user, amount, purpose)
    {
      ghost var before := View();
      created := main.InsertIntent(user, amount, purpose, clientKey, now);
      Record(before, Action.CreateIntent(user, amount, purpose, clientKey));
    }

    // Post the row: it may not arrive, it may be processed and the answer lost, or all goes well.
    method PostEvent(w: WorkerId, arrives: bool, answered: bool) returns (ok: bool)
      requires Valid() && WorkerOf(View(), w).Claimed? && WorkerOf(View(), w).row < |desk.outbox|
      modifies this, main, desk
      ensures Valid() && old(trace) <= trace
      ensures desk.outbox == old(desk.outbox)
      ensures WorkerOf(View(), w) == Answered(old(WorkerOf(View(), w)).row, old(WorkerOf(View(), w)).attempts, ok)
      ensures var e := old(desk.outbox[WorkerOf(View(), w).row].event);
              ok <==> arrives && answered && !Process(config, old(main.View()), e).1.Refused?
    {
      ghost var before := View();
      var worker := desk.workers[w];
      ok := false;
      if arrives {
        var reply := main.ProcessVerifiedEvent(desk.outbox[worker.row].event);
        ok := !reply.Refused? && answered;
      }
      desk.workers := desk.workers[w := Answered(worker.row, worker.attempts, ok)];
      Record(before, Post(w, arrives, answered));
    }

    // deliverNextEvent. It has nothing to do exactly when no row is due. If it reports the row delivered, the
    // main service holds the event and has credited the intent exactly once, however often the row was
    // posted and by whom. If it reports a retry, the row is pending again for later; and when the post and its
    // answer got through, that is because the payment came too late.
    method DeliverNextEvent(w: WorkerId, arrives: bool, answered: bool) returns (result: DeliveryResult)
      requires Valid() && WorkerOf(View(), w) == Idle
      modifies this, main, desk
      ensures Valid() && old(trace) <= trace && WorkerOf(View(), w) == Idle
      ensures result.NothingDue? <==> forall k :: 0 <= k < |old(desk.outbox)| ==> !Due(old(desk.outbox)[k], old(now))
      ensures result.DeliveredRow? ==>
                && result.row < |desk.outbox| && desk.outbox[result.row].status == Delivered
                && result.row in main.processed
                && Sum(CreditsOf(desk.outbox[result.row].event.intent), main.credits) == 1
      ensures result.WillRetry? ==>
                && result.row < |desk.outbox| && desk.outbox[result.row].status == Pending && desk.outbox[result.row].nextAttempt > now
                && (arrives && answered ==> PaidTooLate(View(), result.row))
      ensures result.DeliveredRow? ==> arrives && answered
    {
      var claimed := ClaimRow(w);
      if claimed.None? { return NothingDue; }
      var ok := Deliver(w, claimed.value, arrives, answered);
      if ok { DeliveredMeansCredited(config, View(), claimed.value); }
      return if ok then DeliveredRow(claimed.value) else WillRetry(claimed.value);
    }

    // The post of a claimed row, and the mark that follows it.
    method Deliver(w: WorkerId, row: nat, arrives: bool, answered: bool) returns (ok: bool)
      requires Valid() && WorkerOf(View(), w).Claimed? && WorkerOf(View(), w).row == row < |desk.outbox|
      modifies this, main, desk
      ensures Valid() && old(trace) <= trace && WorkerOf(View(), w) == Idle && row < |desk.outbox|
      ensures ok ==> arrives && answered && desk.outbox[row].status == Delivered
      ensures !ok ==> desk.outbox[row].status == Pending && desk.outbox[row].nextAttempt > now
      ensures !ok && arrives && answered ==> PaidTooLate(View(), row)
    {
      Interleave(Some(w));
      ghost var posting := trace;
      ok := PostEvent(w, arrives, answered);
      RefusedIsLate(config, posting, row);
      Interleave(Some(w));
      Finish(w);
      if !ok && arrives && answered { LateStaysLate(config, posting, trace, row); }
    }

    method ClaimRow(w: WorkerId) returns (claimed: Option<nat>)
      requires Valid() && WorkerOf(View(), w) == Idle
      modifies this, main, desk
      ensures Valid() && trace == old(trace) + [Claim(w)]
      ensures claimed.None? ==> WorkerOf(View(), w) == Idle
      ensures claimed.None? <==> forall k :: 0 <= k < |old(desk.outbox)| ==> !Due(old(desk.outbox)[k], old(now))
      ensures claimed.Some? ==> claimed.value < |desk.outbox| && WorkerOf(View(), w).Claimed? && WorkerOf(View(), w).row == claimed.value
    {
      ghost var before := View();
      claimed := desk.ClaimNext(w, now);
      Record(before, Claim(w));
    }

    method Finish(w: WorkerId)
      requires Valid() && WorkerOf(View(), w).Answered? && WorkerOf(View(), w).row < |desk.outbox|
      modifies this, main, desk
      ensures Valid() && trace == old(trace) + [Mark(w)] && WorkerOf(View(), w) == Idle
      ensures |desk.outbox| == |old(desk.outbox)|
      ensures var row := desk.outbox[old(WorkerOf(View(), w)).row];
              if old(WorkerOf(View(), w)).ok then row.status == Delivered else row.status == Pending && row.nextAttempt > now
    {
      ghost var before := View();
      desk.MarkRow(w, now);
      Record(before, Mark(w));
    }
  }
}
