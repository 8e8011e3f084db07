// What single payment steps do, in plain terms: when they take effect and what they leave.
module PaymentExact {
  import opened Types
  import opened Payments
  import opened PaymentLaws
  import opened PaymentTheorems

  // ---------------------------------------------------------------- intents and orders

  // An intent is created exactly for a whole number of rupees between 10 and 10000 under a fresh key. It
  // lives for a quarter of an hour.
  lemma IntentIsCreatedIff(c: Config, s: State, user: UserId, amount: int, purpose: Purpose, clientKey: string)
    ensures var m, m' := s.main, Step(c, s, CreateIntent(user, amount, purpose, clientKey)).main;
            if 1000 <= amount <= 1000000 && amount % 100 == 0 && forall i :: 0 <= i < |m.intents| ==> m.intents[i].clientKey != clientKey
            then m' == m.(intents := m.intents + [Intent(user, amount, purpose, clientKey, s.now + 900, Created, None)])
            else m' == m
  {
  }

  // A link opens one session, which repeats the intent, unless it has expired or was used before.
  ghost predicate Exchanged(d: Desk, d': Desk, i: IntentId, intent: Intent, now: int) {
    if intent.expiresAt > now && i !in d.sessions
    then d' == d.(sessions := d.sessions[i := Session(Terms(intent.user, intent.amount, intent.purpose), intent.expiresAt)])
    else d' == d
  }

  // A session that has not expired makes one order.
  ghost predicate Ordered(d: Desk, d': Desk, i: IntentId, now: int) {
    if i in d.sessions && d.sessions[i].expiresAt > now && i !in d.orders
    then d' == d.(orders := d.orders[i := Order(d.sessions[i].terms, OrderId(d.sessions[i].terms.purpose, i), false)])
    else d' == d
  }

  // ---------------------------------------------------------------- reconciling

  // The provider confirms the order, paid in full and in rupees.
  ghost predicate Confirms(answer: ProviderOrder, o: Order) {
    answer.orderId == o.orderId && answer.paid && answer.inr && answer.amount == Some(o.terms.amount)
  }

  // The first successful payment of the whole amount of this order.
  ghost predicate IsFirst(payments: seq<ProviderPayment>, k: nat, o: Order) {
    && k < |payments|
    && (payments[k].success && payments[k].orderId == o.orderId && payments[k].inr && payments[k].amount == Some(o.terms.amount))
    && forall l :: 0 <= l < k ==>
         !(payments[l].success && payments[l].orderId == o.orderId && payments[l].inr && payments[l].amount == Some(o.terms.amount))
  }

  // What reconciling an order leaves. A payment nobody recorded, for an order that has none, is recorded
  // with an event that carries the time it was completed, or now if the provider names none.
  ghost predicate Reconciled(d: Desk, d': Desk, i: IntentId, answer: ProviderOrder, payments: seq<ProviderPayment>, now: int)
    requires i in d.orders
  {
    var o := d.orders[i];
    && (forall k: nat :: Confirms(answer, o) && IsFirst(payments, k, o) ==>
          var p := payments[k];
          var recorded := exists q :: q in d.transactions && d.transactions[q] == p.txn;
          if recorded then d' == d.(orders := d.orders[i := o.(verified := true)])
          else if o.orderId in d.transactions then d' == d
          else
            && d'.orders == d.orders[i := o.(verified := true)]
            && d'.transactions == d.transactions[o.orderId := p.txn]
            && d'.outbox == d.outbox + [OutboxRow(Event(|d.outbox|, i, o.terms, o.orderId, p.txn,
                                                        if p.completedAt.Some? then p.completedAt.value else now), Pending, 0, now, None)]
            && d'.sessions == d.sessions && d'.workers == d.workers)
    && (!Confirms(answer, o) || (forall k: nat :: !IsFirst(payments, k, o)) ==> d' == d)
  }

  lemma ReconcilingIsExact(d: Desk, i: IntentId, answer: ProviderOrder, payments: seq<ProviderPayment>, now: int)
    requires i in d.orders
    ensures Reconciled(d, ReconcileTx(d, i, answer, payments, now), i, answer, payments, now)
  {
    FindingIsExact(d.orders[i], payments);
  }

  lemma {:induction false} FirstIsFound(payments: seq<ProviderPayment>, k: nat, o: Order)
    requires IsFirst(payments, k, o)
    ensures FindPayment(payments, o.orderId, o.terms.amount) == Some(payments[k])
  {
    if k > 0 { FirstIsFound(payments[1..], k - 1, o); }
  }

  // The search finds the first payment that counts, if there is one.
  lemma FindingIsExact(o: Order, payments: seq<ProviderPayment>)
    ensures forall k: nat :: IsFirst(payments, k, o) ==> FindPayment(payments, o.orderId, o.terms.amount) == Some(payments[k])
    ensures FindPayment(payments, o.orderId, o.terms.amount).Some? ==> exists k: nat :: IsFirst(payments, k, o)
  {
    FindPaymentMatches(payments, o.orderId, o.terms.amount);
    forall k: nat | IsFirst(payments, k, o) ensures FindPayment(payments, o.orderId, o.terms.amount) == Some(payments[k]) {
      FirstIsFound(payments, k, o);
    }
    if found: nat :| found < |payments| && FirstMatch(payments, found, o.orderId, o.terms.amount) { assert IsFirst(payments, found, o); }
  }

  // ---------------------------------------------------------------- paid in time, credited for good

  // No step touches the event of a row.
  lemma StepKeepsEvents(c: Config, s: State, a: Action, n: nat)
    requires n < |s.desk.outbox|
    ensures n < |Step(c, s, a).desk.outbox| && Step(c, s, a).desk.outbox[n].event == s.desk.outbox[n].event
  {
  }

  lemma {:induction false} RunKeepsEvents(c: Config, s: State, actions: seq<Action>, n: nat)
    requires n < |s.desk.outbox|
    ensures n < |Run(c, s, actions).desk.outbox| && Run(c, s, actions).desk.outbox[n].event == s.desk.outbox[n].event
  {
    if |actions| > 0 {
      RunKeepsEvents(c, s, actions[..|actions| - 1], n);
      StepKeepsEvents(c, Run(c, s, actions[..|actions| - 1]), actions[|actions| - 1], n);
    }
  }

  lemma {:induction false} RunKeepsInvFrom(c: Config, s: State, actions: seq<Action>)
    requires Inv(c, s)
    ensures Inv(c, Run(c, s, actions))
  {
    if |actions| > 0 {
      RunKeepsInvFrom(c, s, actions[..|actions| - 1]);
      StepKeepsInv(c, Run(c, s, actions[..|actions| - 1]), actions[|actions| - 1]);
    }
  }

  lemma TimelyEventIsAccepted(c: Config, t: State, n: nat)
    requires Inv(c, t) && n < |t.desk.outbox|
    requires var e := t.desk.outbox[n].event; e.intent < |t.main.intents| ==> e.paidAt <= t.main.intents[e.intent].expiresAt
    ensures !Process(c, t.main, t.desk.outbox[n].event).1.Refused?
    ensures var m := Process(c, t.main, t.desk.outbox[n].event).0;
            n in m.processed && Sum(CreditsOf(t.desk.outbox[n].event.intent), m.credits) == 1
  {
    ProcessingOutcomes(c, t, n);
    ProcessKeepsInv(c, t, n);
  }

  // Neither an event nor the expiry of its intent ever changes.
  lemma TimesStay(c: Config, s: State, more: seq<Action>, n: nat)
    requires Inv(c, s) && n < |s.desk.outbox| && s.desk.outbox[n].event.intent < |s.main.intents|
    ensures var t := Run(c, s, more);
            && Inv(c, t) && n < |t.desk.outbox| && t.desk.outbox[n].event == s.desk.outbox[n].event
            && s.desk.outbox[n].event.intent < |t.main.intents|
            && t.main.intents[s.desk.outbox[n].event.intent].expiresAt == s.main.intents[s.desk.outbox[n].event.intent].expiresAt
  {
    var t, i := Run(c, s, more), s.desk.outbox[n].event.intent;
    RunKeepsEvents(c, s, more, n);
    RunKeepsInvFrom(c, s, more);
    IntentsKeepTheirTerms(c, s, more);
    assert SameOffer(s.main.intents[i], t.main.intents[i]);
  }

  // An event for a payment that was made in time is never refused, however late it arrives and whatever
  // happened in between; once it arrives, its intent has been credited exactly once.
  lemma TimelyEventIsCredited(c: Config, s: State, more: seq<Action>, n: nat)
    requires Inv(c, s) && n < |s.desk.outbox|
    requires var e := s.desk.outbox[n].event; e.intent < |s.main.intents| && e.paidAt <= s.main.intents[e.intent].expiresAt
    ensures var t := Run(c, s, more);
            && n < |t.desk.outbox|
            && !Process(c, t.main, t.desk.outbox[n].event).1.Refused?
            && n in Step(c, t, Arrive(n)).main.processed
            && Sum(CreditsOf(s.desk.outbox[n].event.intent), Step(c, t, Arrive(n)).main.credits) == 1
  {
    TimesStay(c, s, more, n);
    TimelyEventIsAccepted(c, Run(c, s, more), n);
  }

  // End to end: an order is reconciled, at any time, and its first matching payment was completed no later
  // than the intent expires. Then in every run that follows the event carries that time and is never
  // refused, and when it arrives the intent has been credited exactly once.
  lemma PaidInTimeIsCredited(c: Config, s: State, i: IntentId, answer: ProviderOrder, payments: seq<ProviderPayment>, k: nat,
                             more: seq<Action>)
    requires Reachable(c, s) && i in s.desk.orders
    requires var o := s.desk.orders[i];
             && Confirms(answer, o) && IsFirst(payments, k, o)
             && o.orderId !in s.desk.transactions && (forall q :: q in s.desk.transactions ==> s.desk.transactions[q] != payments[k].txn)
    requires i < |s.main.intents| &&
             (if payments[k].completedAt.Some? then payments[k].completedAt.value else s.now) <= s.main.intents[i].expiresAt
    ensures var n := |s.desk.outbox|;
            var t := Run(c, Step(c, s, Reconcile(i, answer, payments)), more);
            && n < |t.desk.outbox| && t.desk.outbox[n].event.intent == i
            && t.desk.outbox[n].event.paidAt == (if payments[k].completedAt.Some? then payments[k].completedAt.value else s.now)
            && !Process(c, t.main, t.desk.outbox[n].event).1.Refused?
            && n in Step(c, t, Arrive(n)).main.processed
            && Sum(CreditsOf(i), Step(c, t, Arrive(n)).main.credits) == 1
  {
    var s1 := Step(c, s, Reconcile(i, answer, payments));
    ReachableHoldsInv(c, s);
    ReconcilingIsExact(s.desk, i, answer, payments, s.now);
    StepKeepsInv(c, s, Reconcile(i, answer, payments));
    RunKeepsEvents(c, s1, more, |s.desk.outbox|);
    TimelyEventIsCredited(c, s1, more, |s.desk.outbox|);
  }

  // The other way round: paid too late is refused in every run that follows, and never credited.
  lemma {:induction false} PaidTooLateIsRefused(c: Config, s: State, more: seq<Action>, n: nat)
    requires Inv(c, s) && n < |s.desk.outbox| && n !in s.main.processed
    requires var e := s.desk.outbox[n].event; e.intent < |s.main.intents| && e.paidAt > s.main.intents[e.intent].expiresAt
    ensures var t := Run(c, s, more);
            && n < |t.desk.outbox| && n !in t.main.processed
            && Process(c, t.main, t.desk.outbox[n].event) == (t.main, Refused(PaidAfterExpiry))
    decreases |more|
  {
    TimesStay(c, s, more, n);
    if |more| > 0 {
      var earlier, a := more[..|more| - 1], more[|more| - 1];
      PaidTooLateIsRefused(c, s, earlier, n);
      RunKeepsInvFrom(c, s, earlier);
      RefusedStaysOut(c, Run(c, s, earlier), a, n);
    }
    ProcessingOutcomes(c, Run(c, s, more), n);
  }

  lemma RefusedStaysOut(c: Config, s: State, a: Action, n: nat)
    requires Inv(c, s) && n < |s.desk.outbox| && n !in s.main.processed
    requires Process(c, s.main, s.desk.outbox[n].event) == (s.main, Refused(PaidAfterExpiry))
    ensures n !in Step(c, s, a).main.processed
  {
    if a.Post? {
      var w := WorkerOf(s, a.worker);
      if w.Claimed? && w.row < |s.desk.outbox| { OnlyItsOwnMark(c, s, w.row, n); }
    } else if a.Arrive? {
      if a.row < |s.desk.outbox| { OnlyItsOwnMark(c, s, a.row, n); }
    }
  }

  lemma OnlyItsOwnMark(c: Config, s: State, row: nat, n: nat)
    requires Inv(c, s) && row < |s.desk.outbox| && n < |s.desk.outbox| && n !in s.main.processed
    requires Process(c, s.main, s.desk.outbox[n].event) == (s.main, Refused(PaidAfterExpiry))
    ensures n !in Process(c, s.main, s.desk.outbox[row].event).0.processed
  {
    ProcessingOutcomes(c, s, row);
    EventIsKnown(c, s, row);
  }

  // An event that is accepted credits its user, by the paise or by the hundred, and marks intent and event.
  lemma EventIsCreditedExactly(c: Config, s: State, n: nat)
    requires Reachable(c, s)
    ensures n < |s.desk.outbox| && n !in s.main.processed ==>
              var e := s.desk.outbox[n].event;
              e.intent < |s.main.intents| &&
              var intent := s.main.intents[e.intent];
              var m, m' := s.main, Step(c, s, Arrive(n)).main;
              if e.paidAt > intent.expiresAt then m' == m
              else
                && m'.intents == m.intents[e.intent := intent.(status := Credited, txn := Some(e.txn))]
                && m'.processed == m.processed[n := c.digest(e)]
                && m'.credits == m.credits + [Credit(e.intent, intent.user, if intent.purpose == PremiumCredits then intent.amount / 100 else intent.amount,
                                                     intent.purpose, n)]
                && Balance(m'.premium, intent.user) ==
                   Balance(m.premium, intent.user) + (if intent.purpose == PremiumCredits then intent.amount / 100 else 0)
                && Balance(m'.realMoney, intent.user) ==
                   Balance(m.realMoney, intent.user) + (if intent.purpose == RealMoneyDeposit then intent.amount else 0)
  {
    ReachableHoldsInv(c, s);
    if n < |s.desk.outbox| {
      ProcessingOutcomes(c, s, n);
      EventIsKnown(c, s, n);
    }
  }

  // ---------------------------------------------------------------- the outbox worker

  // A row is due when it is not delivered, its pause is over and nobody holds a lease on it.
  ghost predicate Due(row: OutboxRow, now: int) {
    row.status != Delivered && row.nextAttempt <= now && (row.lockedUntil.None? || row.lockedUntil.value < now)
  }

  // A claim takes the oldest row that is due, for 30 seconds.
  ghost predicate Took(d: Desk, d': Desk, w: WorkerId, n: nat, now: int) {
    && n < |d.outbox| && Due(d.outbox[n], now) && (forall k :: 0 <= k < n ==> !Due(d.outbox[k], now))
    && d' == d.(outbox := d.outbox[n := d.outbox[n].(status := Processing, lockedUntil := Some(now + 30))],
                workers := d.workers[w := Claimed(n, d.outbox[n].attempts, now + 30)])
  }

  lemma RowIsTakenIff(c: Config, s: State, w: WorkerId)
    requires WorkerOf(s, w) == Idle
    ensures var d, d' := s.desk, Step(c, s, Claim(w)).desk;
            && ((exists n: nat :: Took(d, d', w, n, s.now)) <==> exists k :: 0 <= k < |d.outbox| && Due(d.outbox[k], s.now))
            && ((forall k :: 0 <= k < |d.outbox| ==> !Due(d.outbox[k], s.now)) ==> d' == d)
            && (forall n: nat, later :: Took(d, d', w, n, s.now) && Due(d'.outbox[n], later) ==> later > s.now + 30)
  {
    var found := FirstClaimable(s.desk.outbox, s.now, 0);
    if found.Some? { assert Took(s.desk, Step(c, s, Claim(w)).desk, w, found.value, s.now); }
  }

  // A row whose post succeeded is delivered; a row whose post failed waits twice as long as the last time,
  // and is not due before.
  ghost predicate Marked(d: Desk, d': Desk, w: WorkerId, now: int)
    requires w in d.workers && d.workers[w].Answered? && d.workers[w].row < |d.outbox|
  {
    var worker := d.workers[w];
    var row := d.outbox[worker.row];
    && |d'.outbox| == |d.outbox|
    && (forall k :: 0 <= k < |d.outbox| && k != worker.row ==> d'.outbox[k] == d.outbox[k])
    && d'.workers == d.workers[w := Idle] && d'.orders == d.orders && d'.transactions == d.transactions && d'.sessions == d.sessions
    && var row' := d'.outbox[worker.row];
       if worker.ok then row' == row.(status := Delivered, lockedUntil := None)
       else
         && row' == row.(status := Pending, attempts := worker.attempts + 1, nextAttempt := now + Pause(worker.attempts + 1), lockedUntil := None)
         && forall later :: Due(row', later) <==> later >= now + Pause(worker.attempts + 1)
  }

  // Seconds to wait after so many failed attempts.
  ghost function Pause(attempts: nat): int {
    match attempts
    case 0 => 1 case 1 => 2 case 2 => 4 case 3 => 8 case 4 => 16 case 5 => 32 case 6 => 64 case 7 => 128
    case _ => 256
  }

  lemma DelayIsPause(attempts: nat)
    ensures Delay(attempts) == Pause(attempts)
  {
    assert Pow2(8) == 256 by { assert Pow2(4) == 16; }
  }

  lemma RowIsMarked(c: Config, s: State, w: WorkerId)
    requires WorkerOf(s, w).Answered? && WorkerOf(s, w).row < |s.desk.outbox|
    ensures Marked(s.desk, Step(c, s, Mark(w)).desk, w, s.now)
  {
    DelayIsPause(WorkerOf(s, w).attempts + 1);
  }
}
