/** What processing a provider event makes of the store: the webhook row, the payment, column by
    column, and the case that a failure opens. */
module EventOutcomes {
  import opened Domain
  import opened Store
  import opened Events
  import opened Lifecycle
  import opened Engine
  import opened Ledger
  import opened Origins

  /* ----- The payment ----- */

  /** The status that an event reports. */
  function Reports(kind: EventKind): PaymentStatus {
    match kind
    case CreatedEvent => Created
    case AuthorizedEvent => Authorized
    case CapturedEvent => Captured
    case FailedEvent => PaymentFailed
    case CancelledEvent => Cancelled
    case RefundedEvent => Refunded
  }

  /** Captured money is only refunded, and refunded money only captured again. */
  function StatusLeft(was: PaymentStatus, kind: EventKind): PaymentStatus {
    match was
    case Captured => if kind.RefundedEvent? then Refunded else Captured
    case Refunded => if kind.CapturedEvent? then Captured else Refunded
    case _ => Reports(kind)
  }

  /** The payment after an event: an order is never forgotten, a failure code only replaced by
      another failure's, and time and amount are those of the last capture. */
  predicate PaymentLeft(was: Payment, e: EventBody, pay: Payment) {
    && e.PaymentEvent? && e.amount >= 0
    && pay.customer == was.customer && pay.currency == was.currency
    && pay.status == StatusLeft(was.status, e.kind)
    && pay.order == (if e.order.Some? then e.order else was.order)
    && pay.failure == (if e.kind.FailedEvent? && e.failure.Some? then e.failure else was.failure)
    && pay.capturedAt == (if e.kind.CapturedEvent? then Some(e.occurredAt) else was.capturedAt)
    && pay.amount == (if e.kind.CapturedEvent? then e.amount else was.amount)
  }

  /** The payment that an event is the first to report. */
  predicate PaymentBorn(e: EventBody, pay: Payment) {
    && e.PaymentEvent? && e.amount >= 0 && e.customer == Some(pay.customer)
    && pay.status == Reports(e.kind) && pay.order == e.order && pay.failure == e.failure
    && pay.amount == e.amount && pay.currency == e.currency
    && pay.capturedAt == (if e.kind.CapturedEvent? then Some(e.occurredAt) else None)
  }

  /* ----- The case ----- */

  /** A case of the payment that is neither recovered nor stopped. */
  predicate Live(c: Case, p: PaymentId) {
    c.merchant == p.merchant && c.payment == Some(p) && !c.status.Recovered? && !c.status.Stopped?
  }

  /** A detected case of a failed payment, with all of its amount at risk. */
  function DetectedCase(p: PaymentId, pay: Payment, now: Micros): Case {
    Case(p.merchant, pay.customer, Some(p), Detected, pay.amount, 0, pay.currency, 1, now, None, None, None, None)
  }

  /* ----- The event ----- */

  /** The event names a payment that is known, or a customer of its own merchant. */
  predicate Attributable(db: Db, w: Webhook, p: PaymentId)
    requires w.body.PaymentEvent?
  {
    || p in db.payments
    || (w.body.customer.Some? && w.body.customer.value in db.customers && db.customers[w.body.customer.value] == w.merchant)
  }

  /** What a payment event makes of payment p and the cases. */
  ghost predicate Takes(db: Db, db': Db, w: Webhook, p: PaymentId, now: Micros) {
    && p in db'.payments && db'.payments == db.payments[p := db'.payments[p]]
    && (if p in db.payments then PaymentLeft(db.payments[p], w.body, db'.payments[p]) else PaymentBorn(w.body, db'.payments[p]))
    && db'.cases == if w.body.PaymentEvent? && w.body.kind.FailedEvent? && forall c <- db.cases :: !Live(c, p)
                    then db.cases + [DetectedCase(p, db'.payments[p], now)] else db.cases
  }

  /** What processing event `key` makes of the store. */
  ghost predicate ProcessedAs(db: Db, db': Db, key: EventKey, now: Micros) {
    if key !in db.webhooks || !db.webhooks[key].status.Received? then db' == db
    else
      var w := db.webhooks[key];
      var buried := db.(webhooks := db.webhooks[key := Webhook(w.merchant, w.body, DeadLetter)]);
      var logged := db.(webhooks := db.webhooks[key := Webhook(w.merchant, w.body, Processed)],
                        audit := db.audit + [AuditRow(None, EventDone(key, now))]);
      if w.merchant !in db.merchants || w.body.MalformedEvent? then db' == buried
      else if w.body.UnknownEvent? then db' == logged
      else
        var p := PaymentId(w.merchant, key.provider, w.body.reference);
        if !Attributable(db, w, p) then db' == buried
        else if w.body.amount < 0 then db' == db
        else db' == logged.(payments := db'.payments, cases := db'.cases) && Takes(db, db', w, p, now)
  }

  /** Between transactions a case is live exactly if the program finds it open. */
  lemma {:induction false} LiveIsOpen(c: Case, p: PaymentId)
    requires Sound(c)
    ensures Live(c, p) <==> OpenFor(c, p)
  {
  }

  lemma {:induction false} SomeLiveIsOpen(cases: seq<Case>, p: PaymentId)
    requires forall c <- cases :: Sound(c)
    ensures HasOpenCase(cases, p) <==> exists c <- cases :: Live(c, p)
  {
    if c :| c in cases && Live(c, p) {
      LiveIsOpen(c, p);
      assert OpenFor(c, p);
    }
    if c :| c in cases && OpenFor(c, p) {
      LiveIsOpen(c, p);
      assert Live(c, p);
    }
  }

  lemma {:induction false} AppliedTakes(db: Db, key: EventKey, w: Webhook, now: Micros)
    requires w.body.PaymentEvent? && w.body.amount >= 0 && (forall c <- db.cases :: Sound(c))
    requires PaymentOf(w, key.provider) in db.payments || w.body.customer.Some?
    ensures var b := Applied(Books(db.payments, db.cases), key, w, now);
            Takes(db, db.(payments := b.payments, cases := b.cases), w, PaymentOf(w, key.provider), now)
  {
    var p := PaymentOf(w, key.provider);
    SomeLiveIsOpen(db.cases, p);
    if p in db.payments {
      UpdateLeaves(db.payments[p], w.body);
    } else {
      FreshIsBorn(w.body);
    }
  }

  lemma {:induction false} UpdateLeaves(was: Payment, e: EventBody)
    requires e.PaymentEvent? && e.amount >= 0
    ensures PaymentLeft(was, e, Updated(was, e))
  {
  }

  lemma {:induction false} FreshIsBorn(e: EventBody)
    requires e.PaymentEvent? && e.amount >= 0 && e.customer.Some?
    ensures PaymentBorn(e, Fresh(e))
  {
  }

  lemma {:induction false} ProcessingOfEvent(db: Db, key: EventKey, now: Micros)
    requires forall c <- db.cases :: Sound(c)
    ensures ProcessedAs(db, EventProcessed(db, key, now), key, now)
  {
    if Waiting(db, key) {
      var w := db.webhooks[key];
      if TreatmentOf(db.merchants.Keys, db.customers, db.payments, key, w).Apply? {
        AppliedTakes(db, key, w, now);
      }
    }
  }

  /** In every reachable store: processing an event applies, logs or buries it, or, on a
      negative amount, is rolled back; a failure opens a case exactly if its payment has no
      live one, and then a fresh one for the payment as it is on record. */
  lemma {:induction false} EventOutcome(genesis: Db, steps: seq<Step>, s: Step)
    requires genesis.cases == [] && genesis.audit == [] && s.op.ProcessEvent?
    ensures var t := Ticked(Run(genesis, steps), s);
            ProcessedAs(t, Next(Run(genesis, steps), s), s.op.key, t.clock)
  {
    var t := Ticked(Run(genesis, steps), s);
    CasesAreSound(genesis, steps);
    ProcessingStep(Run(genesis, steps), s);
    ProcessingOfEvent(t, s.op.key, t.clock);
  }

  lemma {:induction false} ProcessingStep(db: Db, s: Step)
    requires s.op.ProcessEvent?
    ensures Next(db, s) == EventProcessed(Ticked(db, s), s.op.key, Ticked(db, s).clock)
  {
    assert Next(db, s) == Stepped(Ticked(db, s), s.op, s.env);
  }

  lemma {:induction false} CasesAreSound(genesis: Db, steps: seq<Step>)
    requires genesis.cases == [] && genesis.audit == []
    ensures forall c <- Run(genesis, steps).cases :: Sound(c)
  {
    var db := Run(genesis, steps);
    RunKeepsAudited(genesis, steps);
    forall c | c in db.cases ensures Sound(c) {
      var i :| 0 <= i < |db.cases| && db.cases[i] == c;
      assert Faithful(db.audit, i, db.cases[i]);
    }
  }

  /** At most one case of a payment is neither recovered nor stopped, in every reachable store. */
  lemma {:induction false} OneLiveCase(genesis: Db, steps: seq<Step>, i: nat, j: nat, p: PaymentId)
    requires genesis.cases == [] && genesis.audit == []
    requires i < j < |Run(genesis, steps).cases|
    ensures !(Live(Run(genesis, steps).cases[i], p) && Live(Run(genesis, steps).cases[j], p))
  {
    var cases := Run(genesis, steps).cases;
    CasesAreSound(genesis, steps);
    OneOpenCasePerPayment(genesis, steps);
    LiveIsOpen(cases[i], p);
    LiveIsOpen(cases[j], p);
  }

  /** A failure that waits to be processed and can be attributed. */
  predicate FailureWaits(db: Db, key: EventKey) {
    && key in db.webhooks
    && var w := db.webhooks[key];
       && w.status.Received? && w.merchant in db.merchants
       && w.body.PaymentEvent? && w.body.kind.FailedEvent? && w.body.amount >= 0
       && Attributable(db, w, PaymentId(w.merchant, key.provider, w.body.reference))
  }

  /** Every case of the payment has been recovered or stopped. */
  predicate AllClosed(cases: seq<Case>, p: PaymentId) {
    forall c <- cases :: c.merchant == p.merchant && c.payment == Some(p) ==> c.status.Recovered? || c.status.Stopped?
  }

  /** The failure opens one case, exactly if every case of its payment is closed. */
  ghost predicate OpensUnlessLive(db: Db, db': Db, key: EventKey, now: Micros)
    requires FailureWaits(db, key)
  {
    var p := PaymentId(db.webhooks[key].merchant, key.provider, db.webhooks[key].body.reference);
    && p in db'.payments
    && db'.cases == if AllClosed(db.cases, p) then db.cases + [DetectedCase(p, db'.payments[p], now)] else db.cases
  }

  lemma {:induction false} FailureTakes(db: Db, db': Db, key: EventKey, now: Micros)
    requires FailureWaits(db, key) && ProcessedAs(db, db', key, now)
    ensures OpensUnlessLive(db, db', key, now)
  {
    var p := PaymentId(db.webhooks[key].merchant, key.provider, db.webhooks[key].body.reference);
    assert Takes(db, db', db.webhooks[key], p, now);
    assert AllClosed(db.cases, p) <==> forall c <- db.cases :: !Live(c, p);
  }

  /** In every reachable store, a failure opens a case exactly if every case of its payment has
      been recovered or stopped, whatever for and however long ago. */
  lemma {:induction false} FailureOpensIff(genesis: Db, steps: seq<Step>, s: Step)
    requires genesis.cases == [] && genesis.audit == [] && s.op.ProcessEvent?
    requires FailureWaits(Ticked(Run(genesis, steps), s), s.op.key)
    ensures var t := Ticked(Run(genesis, steps), s);
            OpensUnlessLive(t, Next(Run(genesis, steps), s), s.op.key, t.clock)
  {
    var t := Ticked(Run(genesis, steps), s);
    EventOutcome(genesis, steps, s);
    FailureTakes(t, Next(Run(genesis, steps), s), s.op.key, t.clock);
  }

  lemma {:induction false} CasesGrowIff(db: Db, db': Db, key: EventKey, now: Micros)
    requires ProcessedAs(db, db', key, now)
    ensures |db'.cases| > |db.cases| <==>
              && FailureWaits(db, key)
              && AllClosed(db.cases, PaymentId(db.webhooks[key].merchant, key.provider, db.webhooks[key].body.reference))
  {
    if FailureWaits(db, key) {
      FailureTakes(db, db', key, now);
    }
  }

  /** Cases are opened by such failures alone: no other step of any service opens one. */
  lemma {:induction false} CaseOpensOnlySo(genesis: Db, steps: seq<Step>, s: Step)
    requires genesis.cases == [] && genesis.audit == []
    ensures var t := Ticked(Run(genesis, steps), s);
            |Next(Run(genesis, steps), s).cases| > |t.cases| <==>
              && s.op.ProcessEvent? && FailureWaits(t, s.op.key)
              && var w := t.webhooks[s.op.key]; AllClosed(t.cases, PaymentId(w.merchant, s.op.key.provider, w.body.reference))
  {
    var db := Run(genesis, steps);
    if s.op.ProcessEvent? {
      EventOutcome(genesis, steps, s);
      CasesGrowIff(Ticked(db, s), Next(db, s), s.op.key, Ticked(db, s).clock);
    } else {
      NoEventNoCase(db, s);
    }
  }

  /* ----- Deliveries and lost jobs ----- */

  /** A delivery adds one waiting row for a new event of a known merchant, and nothing else. */
  lemma {:induction false} DeliveryOutcome(db: Db, s: Step)
    requires s.op.Ingest?
    ensures var t := Ticked(db, s);
            Next(db, s) ==
            if s.op.merchant in db.merchants && s.op.key !in db.webhooks
            then t.(webhooks := db.webhooks[s.op.key := Webhook(s.op.merchant, s.op.body, Received)]) else t
  {
    assert Next(db, s) == Stepped(Ticked(db, s), s.op, s.env);
  }

  /** A job that is lost for good buries a row that still waits, and changes nothing else. */
  lemma {:induction false} LossOutcome(db: Db, s: Step)
    requires s.op.LoseEvent?
    ensures var t, key := Ticked(db, s), s.op.key;
            Next(db, s) ==
            if !s.op.retriesLeft && key in db.webhooks && db.webhooks[key].status.Received?
            then t.(webhooks := db.webhooks[key := Webhook(db.webhooks[key].merchant, db.webhooks[key].body, DeadLetter)]) else t
  {
    assert Next(db, s) == Stepped(Ticked(db, s), s.op, s.env);
  }
}
