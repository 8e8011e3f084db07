// What holds of the two payment services after every run, and where it stops holding.
module PaymentTheorems {
  import opened Types
  import opened Payments
  import opened PaymentLaws

  // ---------------------------------------------------------------- exactly once

  lemma {:induction false} CreditedIntentHasRow(processed: map<EventId, int>, outbox: seq<OutboxRow>, credits: seq<Credit>, i: IntentId)
    requires forall j :: 0 <= j < |credits| ==> CreditOk(credits[j], processed, outbox)
    ensures Sum(CreditsOf(i), credits) >= 0
    ensures Sum(CreditsOf(i), credits) > 0 ==> exists n: nat :: n < |outbox| && outbox[n].event.intent == i
  {
    if |credits| > 0 {
      var last := credits[|credits| - 1];
      CreditedIntentHasRow(processed, outbox, credits[..|credits| - 1], i);
      assert CreditOk(last, processed, outbox);
      if last.intent == i { assert outbox[last.event].event.intent == i; }
    }
  }

  lemma AtMostOne(c: Config, s: State, i: IntentId)
    requires Inv(c, s)
    ensures 0 <= Sum(CreditsOf(i), s.main.credits) <= 1
  {
    CreditedIntentHasRow(s.main.processed, s.desk.outbox, s.main.credits, i);
    if n: nat :| n < |s.desk.outbox| && s.desk.outbox[n].event.intent == i {
      assert Sum(CreditsOf(s.desk.outbox[n].event.intent), s.main.credits) == (if n in s.main.processed then 1 else 0);
    }
  }

  lemma CreditFitsIntent(c: Config, s: State, j: nat)
    requires Inv(c, s) && j < |s.main.credits|
    ensures var k := s.main.credits[j];
            && k.intent < |s.main.intents|
            && k.user == s.main.intents[k.intent].user
            && k.purpose == s.main.intents[k.intent].purpose
            && s.main.intents[k.intent].amount == (if k.purpose == PremiumCredits then 100 * k.amount else k.amount)
  {
    var k := s.main.credits[j];
    assert CreditOk(k, s.main.processed, s.desk.outbox);
    EventIsKnown(c, s, k.event);
    assert IntentOk(s.main.intents[k.intent], k.intent, s.main.processed, s.desk.outbox);
  }

  // An intent is credited at most once, to its own user, for its own amount and purpose: the paise
  // themselves, or one premium credit per hundred of them.
  lemma AtMostOneCredit(c: Config, s: State, i: IntentId)
    requires Reachable(c, s)
    ensures var m := s.main;
            && 0 <= Sum(CreditsOf(i), m.credits) <= 1
            && forall j :: 0 <= j < |m.credits| && m.credits[j].intent == i ==>
                 && i < |m.intents|
                 && m.credits[j].user == m.intents[i].user
                 && m.credits[j].purpose == m.intents[i].purpose
                 && m.intents[i].amount == (if m.intents[i].purpose == PremiumCredits then 100 * m.credits[j].amount else m.credits[j].amount)
  {
    ReachableHoldsInv(c, s);
    AtMostOne(c, s, i);
    forall j: nat | j < |s.main.credits| && s.main.credits[j].intent == i
      ensures && i < |s.main.intents|
              && s.main.credits[j].user == s.main.intents[i].user
              && s.main.credits[j].purpose == s.main.intents[i].purpose
              && s.main.intents[i].amount ==
                 (if s.main.intents[i].purpose == PremiumCredits then 100 * s.main.credits[j].amount else s.main.credits[j].amount)
    {
      CreditFitsIntent(c, s, j);
    }
  }

  // A row the worker was told about, or marked delivered, has been credited exactly once; and a row is
  // credited exactly when the main service holds its event.
  lemma DeliveredMeansCredited(c: Config, s: State, n: nat)
    requires Reachable(c, s)
    ensures n < |s.desk.outbox| ==>
              && (s.desk.outbox[n].status == Delivered ==> n in s.main.processed)
              && (forall w :: w in s.desk.workers && s.desk.workers[w].Answered? && s.desk.workers[w].row == n && s.desk.workers[w].ok ==>
                    n in s.main.processed)
              && Sum(CreditsOf(s.desk.outbox[n].event.intent), s.main.credits) == (if n in s.main.processed then 1 else 0)
  {
    ReachableHoldsInv(c, s);
    forall w | w in s.desk.workers && s.desk.workers[w].Answered? && s.desk.workers[w].row == n && s.desk.workers[w].ok
      ensures n in s.main.processed
    {
      assert WorkerOk(s.desk.workers[w], s.main.processed, s.desk.outbox);
    }
  }

  // Every credit goes back to a transaction the payment service verified with the provider.
  lemma CreditsAreBacked(c: Config, s: State, j: nat)
    requires Reachable(c, s)
    ensures j < |s.main.credits| ==>
              var i := s.main.credits[j].intent;
              && i < |s.main.intents| && i in s.desk.orders && s.main.credits[j].event < |s.desk.outbox|
              && s.desk.orders[i].verified
              && s.desk.orders[i].terms == TermsOf(s.main.intents[i])
              && s.desk.orders[i].orderId in s.desk.transactions
              && s.desk.transactions[s.desk.orders[i].orderId] == s.desk.outbox[s.main.credits[j].event].event.txn
  {
    ReachableHoldsInv(c, s);
    if j < |s.main.credits| {
      assert CreditOk(s.main.credits[j], s.main.processed, s.desk.outbox);
      assert RowOk(s.desk, s.main.credits[j].event);
    }
  }

  // An outbox row is written exactly when the provider confirms the order as paid in full and its first
  // successful payment of the whole amount is a transaction nobody recorded, for an order that has none.
  lemma RowIsWrittenIff(d: Desk, i: IntentId, answer: ProviderOrder, payments: seq<ProviderPayment>, now: int)
    requires i in d.orders
    ensures var o := d.orders[i];
            |ReconcileTx(d, i, answer, payments, now).outbox| != |d.outbox| <==>
              && answer.orderId == o.orderId && answer.paid && answer.inr && answer.amount == Some(o.terms.amount)
              && o.orderId !in d.transactions
              && exists k :: 0 <= k < |payments| && FirstMatch(payments, k, o.orderId, o.terms.amount) && !TxnRecorded(d.transactions, payments[k].txn)
  {
    FindPaymentMatches(payments, d.orders[i].orderId, d.orders[i].terms.amount);
  }

  ghost predicate FirstMatch(payments: seq<ProviderPayment>, k: nat, orderId: OrderId, amount: int)
    requires k < |payments|
  {
    Matches(payments[k], orderId, amount) && forall l :: 0 <= l < k ==> !Matches(payments[l], orderId, amount)
  }

  // Balances are the sums of the credits behind them.
  lemma BalancesAreCredits(c: Config, s: State, u: UserId)
    requires Reachable(c, s)
    ensures var m := s.main;
            Balance(m.premium, u) == Sum(PremiumOf(u), m.credits) && Balance(m.realMoney, u) == Sum(RealMoneyOf(u), m.credits)
  {
    ReachableHoldsInv(c, s);
  }

  // Once an event was accepted or taken for a duplicate, delivering it again changes nothing.
  lemma SecondDeliveryChangesNothing(c: Config, s: State, n: nat)
    requires Reachable(c, s)
    ensures n < |s.desk.outbox| ==>
              var (m, reply) := Process(c, s.main, s.desk.outbox[n].event);
              !reply.Refused? ==> Process(c, m, s.desk.outbox[n].event) == (m, Duplicate)
  {
    ReachableHoldsInv(c, s);
    if n < |s.desk.outbox| {
      ProcessKeepsInv(c, s, n);
      ProcessingOutcomes(c, s.(main := Process(c, s.main, s.desk.outbox[n].event).0), n);
    }
  }

  // ---------------------------------------------------------------- what one step leaves alone

  lemma ProcessKeepsCredits(c: Config, m: Main, e: Event)
    ensures m.credits <= Process(c, m, e).0.credits
    ensures |Process(c, m, e).0.intents| == |m.intents|
    ensures forall i :: 0 <= i < |m.intents| && m.intents[i].status == Credited ==> Process(c, m, e).0.intents[i].status == Credited
  {
  }

  lemma StepKeepsCredits(c: Config, s: State, a: Action)
    ensures s.main.credits <= Step(c, s, a).main.credits
  {
    if a.Post? {
      var w := WorkerOf(s, a.worker);
      if w.Claimed? && w.row < |s.desk.outbox| { ProcessKeepsCredits(c, s.main, s.desk.outbox[w.row].event); }
    } else if a.Arrive? {
      if a.row < |s.desk.outbox| { ProcessKeepsCredits(c, s.main, s.desk.outbox[a.row].event); }
    }
  }

  // No credit is ever taken back or rewritten.
  lemma {:induction false} CreditsAreAppendOnly(c: Config, s: State, actions: seq<Action>)
    ensures s.main.credits <= Run(c, s, actions).main.credits
  {
    if |actions| > 0 {
      CreditsAreAppendOnly(c, s, actions[..|actions| - 1]);
      StepKeepsCredits(c, Run(c, s, actions[..|actions| - 1]), actions[|actions| - 1]);
    }
  }

  // ---------------------------------------------------------------- one intent per key

  // What an intent asks for never changes; only its status and its transaction do.
  predicate SameOffer(i: Intent, i': Intent) { i' == i.(status := i'.status, txn := i'.txn) }

  ghost predicate IntentsKept(intents: seq<Intent>, intents': seq<Intent>) {
    && |intents| <= |intents'|
    && forall i :: 0 <= i < |intents| ==> SameOffer(intents[i], intents'[i])
  }

  ghost predicate KeysDiffer(intents: seq<Intent>) {
    forall i, j :: 0 <= i < j < |intents| ==> intents[i].clientKey != intents[j].clientKey
  }

  lemma ProcessKeepsIntents(c: Config, m: Main, e: Event)
    ensures IntentsKept(m.intents, Process(c, m, e).0.intents) && |Process(c, m, e).0.intents| == |m.intents|
  {
  }

  lemma KeptIntentsKeepKeys(intents: seq<Intent>, intents': seq<Intent>)
    requires IntentsKept(intents, intents') && |intents'| == |intents| && KeysDiffer(intents)
    ensures KeysDiffer(intents')
  {
    forall i, j | 0 <= i < j < |intents'| ensures intents'[i].clientKey != intents'[j].clientKey {
      assert SameOffer(intents[i], intents'[i]) && SameOffer(intents[j], intents'[j]);
    }
  }

  lemma StepKeepsIntents(c: Config, s: State, a: Action)
    ensures IntentsKept(s.main.intents, Step(c, s, a).main.intents)
    ensures KeysDiffer(s.main.intents) ==> KeysDiffer(Step(c, s, a).main.intents)
  {
    if a.Post? {
      var w := WorkerOf(s, a.worker);
      if w.Claimed? && w.row < |s.desk.outbox| { ProcessKeepsIntents(c, s.main, s.desk.outbox[w.row].event); }
    } else if a.Arrive? {
      if a.row < |s.desk.outbox| { ProcessKeepsIntents(c, s.main, s.desk.outbox[a.row].event); }
    }
    if KeysDiffer(s.main.intents) && !a.CreateIntent? { KeptIntentsKeepKeys(s.main.intents, Step(c, s, a).main.intents); }
  }

  lemma KeptIsTransitive(one: seq<Intent>, two: seq<Intent>, three: seq<Intent>)
    requires IntentsKept(one, two) && IntentsKept(two, three)
    ensures IntentsKept(one, three)
  {
    forall i | 0 <= i < |one| ensures SameOffer(one[i], three[i]) {
      assert SameOffer(one[i], two[i]) && SameOffer(two[i], three[i]);
    }
  }

  lemma {:induction false} IntentsKeepTheirTerms(c: Config, s: State, actions: seq<Action>)
    ensures IntentsKept(s.main.intents, Run(c, s, actions).main.intents)
  {
    if |actions| > 0 {
      var earlier := Run(c, s, actions[..|actions| - 1]);
      IntentsKeepTheirTerms(c, s, actions[..|actions| - 1]);
      StepKeepsIntents(c, earlier, actions[|actions| - 1]);
      KeptIsTransitive(s.main.intents, earlier.main.intents, Run(c, s, actions).main.intents);
    }
  }

  // However requests that share a key interleave, they leave one intent behind.
  lemma {:induction false} OneIntentPerKey(c: Config, actions: seq<Action>)
    ensures KeysDiffer(Run(c, EMPTY, actions).main.intents)
  {
    if |actions| > 0 {
      OneIntentPerKey(c, actions[..|actions| - 1]);
      StepKeepsIntents(c, Run(c, EMPTY, actions[..|actions| - 1]), actions[|actions| - 1]);
    }
  }

  // ---------------------------------------------------------------- retries

  lemma {:induction false} PowGrows(m: nat, n: nat)
    requires m <= n
    ensures 1 <= Pow2(m) <= Pow2(n)
  {
    if m < n { PowGrows(m, n - 1); } else if n > 0 { PowGrows(m - 1, n - 1); }
  }

  // The pause doubles from 2 to 256 seconds; the cap of 300 is never reached.
  lemma DelayDoubles(attempts: nat)
    requires attempts >= 1
    ensures 2 <= Delay(attempts) <= 256
    ensures attempts < 8 ==> Delay(attempts + 1) == 2 * Delay(attempts)
    ensures attempts >= 8 ==> Delay(attempts) == 256
  {
    assert Pow2(8) == 256 by { assert Pow2(4) == 16; }
    PowGrows(1, if attempts < 8 then attempts else 8);
    PowGrows(if attempts < 8 then attempts else 8, 8);
    if attempts < 8 { PowGrows(attempts + 1, 8); }
  }

  // ---------------------------------------------------------------- marks that are not final

  // DELIVERED is undone in exactly one way: a worker whose own post failed, or whose answer was lost,
  // still holds the row.
  lemma DeliveredIsUndoneIff(c: Config, s: State, a: Action, n: nat)
    requires n < |s.desk.outbox| && s.desk.outbox[n].status == Delivered
    ensures var t := Step(c, s, a);
            n < |t.desk.outbox| && (t.desk.outbox[n].status != Delivered <==>
              a.Mark? && WorkerOf(s, a.worker).Answered? && WorkerOf(s, a.worker).row == n && !WorkerOf(s, a.worker).ok)
  {
    if a.Claim? { ClaimSkipsDelivered(s.desk, a.worker, s.now, n); }
  }

  lemma ClaimSkipsDelivered(d: Desk, w: WorkerId, now: int, n: nat)
    requires n < |d.outbox| && d.outbox[n].status == Delivered
    ensures |ClaimTx(d, w, now).outbox| == |d.outbox| && ClaimTx(d, w, now).outbox[n] == d.outbox[n]
  {
    var found := FirstClaimable(d.outbox, now, 0);
    assert found.Some? ==> found.value != n;
  }

  // CREDITED is undone in exactly one way: a reader of getIntent saw the intent expired before the credit.
  lemma CreditedIsUndoneIff(c: Config, s: State, a: Action, i: IntentId)
    requires i < |s.main.intents| && s.main.intents[i].status == Credited
    ensures var t := Step(c, s, a);
            i < |t.main.intents| && (t.main.intents[i].status != Credited <==> a.WriteExpired? && ReaderOf(s, a.reader) == SawExpired(i))
  {
    if a.Post? {
      var w := WorkerOf(s, a.worker);
      if w.Claimed? && w.row < |s.desk.outbox| { ProcessKeepsCredits(c, s.main, s.desk.outbox[w.row].event); }
    } else if a.Arrive? {
      if a.row < |s.desk.outbox| { ProcessKeepsCredits(c, s.main, s.desk.outbox[a.row].event); }
    }
  }

  lemma RunPrefix(c: Config, actions: seq<Action>, n: nat)
    requires n < |actions|
    ensures Run(c, EMPTY, actions[..n + 1]) == Step(c, Run(c, EMPTY, actions[..n]), actions[n])
  {
    assert actions[..n + 1][..n] == actions[..n];
  }

  // One intent, paid at once.
  function PaidIntent(): seq<Action> {
    var id := OrderId(PremiumCredits, 0);
    [CreateIntent(7, 1000, PremiumCredits, "deposit-0001"), ExchangeToken(0), CreateOrder(0),
     Reconcile(0, ProviderOrder(id, true, true, Some(1000)), [ProviderPayment(id, true, true, Some(1000), "cf-1", Some(0))])]
  }

  function PaidEvent(): Event {
    Event(0, 0, Terms(7, 1000, PremiumCredits), OrderId(PremiumCredits, 0), "cf-1", 0)
  }

  const NEW_INTENT: Intent := Intent(7, 1000, PremiumCredits, "deposit-0001", 900, Created, None)

  lemma OrderIsCreated(c: Config, rest: seq<Action>)
    ensures var s := Run(c, EMPTY, (PaidIntent() + rest)[..3]);
            && s.now == 0 && s.main == EMPTY.main.(intents := [NEW_INTENT])
            && s.desk.outbox == [] && s.desk.transactions == map[] && s.desk.workers == map[]
            && s.desk.orders == map[0 := Order(Terms(7, 1000, PremiumCredits), OrderId(PremiumCredits, 0), false)]
  {
    RunPrefix(c, PaidIntent() + rest, 0);
    RunPrefix(c, PaidIntent() + rest, 1);
    RunPrefix(c, PaidIntent() + rest, 2);
  }

  lemma IntentGetsPaid(c: Config, rest: seq<Action>)
    ensures var s := Run(c, EMPTY, (PaidIntent() + rest)[..4]);
            && s.now == 0 && s.main == EMPTY.main.(intents := [NEW_INTENT])
            && s.desk.outbox == [OutboxRow(PaidEvent(), Pending, 0, 0, None)] && s.desk.workers == map[]
  {
    OrderIsCreated(c, rest);
    RunPrefix(c, PaidIntent() + rest, 3);
    var id := OrderId(PremiumCredits, 0);
    assert Matches(ProviderPayment(id, true, true, Some(1000), "cf-1", Some(0)), id, 1000);
  }

  // The first worker's lease runs out, a second one delivers, and then the first one's answer turns out lost.
  function Late(): seq<Action> { [Claim(1), Tick(31), Claim(2), Post(1, true, false), Post(2, true, true), Mark(2)] }

  lemma FirstClaims(c: Config)
    ensures var s := Run(c, EMPTY, (PaidIntent() + Late())[..6]);
            && s.now == 31 && s.main == EMPTY.main.(intents := [NEW_INTENT])
            && s.desk.outbox == [OutboxRow(PaidEvent(), Processing, 0, 0, Some(30))]
            && s.desk.workers == map[1 := Claimed(0, 0, 30)]
  {
    IntentGetsPaid(c, Late());
    RunPrefix(c, PaidIntent() + Late(), 4);
    RunPrefix(c, PaidIntent() + Late(), 5);
  }

  lemma BothClaim(c: Config)
    ensures var s := Run(c, EMPTY, (PaidIntent() + Late())[..7]);
            && |s.desk.outbox| == 1 && s.desk.outbox[0].event == PaidEvent() && s.main == EMPTY.main.(intents := [NEW_INTENT])
            && WorkerOf(s, 1) == Claimed(0, 0, 30) && WorkerOf(s, 2) == Claimed(0, 0, 61)
  {
    FirstClaims(c);
    RunPrefix(c, PaidIntent() + Late(), 6);
  }

  // Both posts arrive: the first one credits, the second one is a duplicate.
  lemma TwoPosts(c: Config, s: State)
    requires |s.desk.outbox| == 1 && s.desk.outbox[0].event == PaidEvent() && s.main == EMPTY.main.(intents := [NEW_INTENT])
    requires WorkerOf(s, 1) == Claimed(0, 0, 30) && WorkerOf(s, 2) == Claimed(0, 0, 61)
    ensures var t := PostStep(c, PostStep(c, s, 1, true, false), 2, true, true);
            && t.desk.outbox == s.desk.outbox && 0 in t.main.processed
            && WorkerOf(t, 1) == Answered(0, 0, false) && WorkerOf(t, 2) == Answered(0, 0, true)
  {
    assert Verdict(c, s.main, PaidEvent()) == Accepted;
    assert Verdict(c, CreditTx(c, s.main, PaidEvent()), PaidEvent()) == Duplicate;
  }

  lemma BothPost(c: Config)
    ensures var s := Run(c, EMPTY, (PaidIntent() + Late())[..9]);
            && |s.desk.outbox| == 1 && 0 in s.main.processed
            && WorkerOf(s, 1) == Answered(0, 0, false) && WorkerOf(s, 2) == Answered(0, 0, true)
  {
    BothClaim(c);
    RunPrefix(c, PaidIntent() + Late(), 7);
    RunPrefix(c, PaidIntent() + Late(), 8);
    TwoPosts(c, Run(c, EMPTY, (PaidIntent() + Late())[..7]));
  }

  lemma DeliveredCanBeUndone(c: Config)
    ensures var s := Run(c, EMPTY, PaidIntent() + Late());
            var t := Step(c, s, Mark(1));
            && |s.desk.outbox| == 1 == |t.desk.outbox|
            && s.desk.outbox[0].status == Delivered && t.desk.outbox[0].status == Pending
            && 0 in t.main.processed
  {
    BothPost(c);
    RunPrefix(c, PaidIntent() + Late(), 9);
    assert (PaidIntent() + Late())[..10] == PaidIntent() + Late();
  }

  // A reader looks at the intent after it expired but before the payment arrives, and writes afterwards.
  function Reads(): seq<Action> { [Tick(900), ReadIntent(5, 0), Arrive(0)] }

  lemma CreditedCanBeUndone(c: Config)
    ensures var s := Run(c, EMPTY, PaidIntent() + Reads());
            var t := Step(c, s, WriteExpired(5));
            && |s.main.intents| == 1 == |t.main.intents|
            && s.main.intents[0].status == Credited && t.main.intents[0].status == Expired
            && |t.main.credits| == 1
  {
    var t := PaidIntent() + Reads();
    IntentGetsPaid(c, Reads());
    RunPrefix(c, t, 4);
    RunPrefix(c, t, 5);
    RunPrefix(c, t, 6);
    assert t[..7] == t;
    assert Verdict(c, Run(c, EMPTY, t[..6]).main, PaidEvent()) == Accepted;
  }
}
