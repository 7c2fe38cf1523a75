/** Provider events take effect exactly once, whatever is delivered twice, crashes, is
    retried or is buried. */
module EventEffects {
  import opened Domain
  import opened Store
  import opened Events
  import opened Engine
  import opened Ledger

  /** An event that was processed to its end, and when. */
  datatype Entry = Entry(key: EventKey, at: Micros)

  /** The processed events, in the order of their audit rows. */
  function EventLog(audit: seq<AuditRow>): seq<Entry> {
    if audit == [] then []
    else
      var last := audit[|audit| - 1];
      EventLog(audit[..|audit| - 1])
      + if last.caseId.None? && last.entry.EventDone? then [Entry(last.entry.event, last.entry.at)] else []
  }

  predicate Logs(log: seq<Entry>, key: EventKey) {
    exists e <- log :: e.key == key
  }

  ghost predicate DistinctEvents(log: seq<Entry>) {
    forall i, j | 0 <= i < j < |log| :: log[i].key != log[j].key
  }

  predicate IsProcessed(webhooks: map<EventKey, Webhook>, key: EventKey) {
    key in webhooks && webhooks[key].status.Processed?
  }

  /** Every processed event is logged once, and no other is. */
  ghost predicate LoggedOnce(db: Db) {
    DistinctEvents(EventLog(db.audit)) && forall key :: Logs(EventLog(db.audit), key) <==> IsProcessed(db.webhooks, key)
  }

  /** What the store knows of an event never changes, other than its status. */
  ghost predicate SameEvents(db: Db, db': Db) {
    forall key | key in db.webhooks ::
      key in db'.webhooks && db'.webhooks[key].merchant == db.webhooks[key].merchant
          && db'.webhooks[key].body == db.webhooks[key].body
  }

  lemma {:induction false} OneMoreRow(audit: seq<AuditRow>, row: AuditRow)
    ensures EventLog(audit + [row]) ==
            EventLog(audit) + if row.caseId.None? && row.entry.EventDone? then [Entry(row.entry.event, row.entry.at)] else []
  {
    assert (audit + [row])[..|audit + [row]| - 1] == audit;
  }

  lemma {:induction false} CaseRowsAreNoEvents(audit: seq<AuditRow>, i: nat, log: seq<AuditEntry>)
    ensures EventLog(audit + Tag(i, log)) == EventLog(audit)
  {
    if log == [] {
      assert audit + Tag(i, log) == audit;
    } else {
      var front := log[..|log| - 1];
      assert audit + Tag(i, log) == (audit + Tag(i, front)) + [AuditRow(Some(i), log[|log| - 1])];
      CaseRowsAreNoEvents(audit, i, front);
      OneMoreRow(audit + Tag(i, front), AuditRow(Some(i), log[|log| - 1]));
    }
  }

  function BooksOf(db: Db): Books {
    Books(db.payments, db.cases)
  }

  predicate Applicable(b: Books, key: EventKey, w: Webhook) {
    w.body.PaymentEvent? && w.body.amount >= 0 && (PaymentOf(w, key.provider) in b.payments || w.body.customer.Some?)
  }

  /** The effect of one event on the books; an event of an unknown type has none. */
  function Effect(b: Books, key: EventKey, w: Webhook, at: Micros): Books {
    if Applicable(b, key, w) then Applied(b, key, w, at) else b
  }

  /** Nothing is logged, and no event becomes processed or stops being so. */
  ghost predicate LogsNothing(db: Db, db': Db) {
    && EventLog(db'.audit) == EventLog(db.audit)
    && forall k :: IsProcessed(db'.webhooks, k) <==> IsProcessed(db.webhooks, k)
  }

  /** A waiting event is processed: it is logged and takes effect. */
  ghost predicate LogsOne(db: Db, db': Db, key: EventKey, now: Micros) {
    && Waiting(db, key)
    && db'.audit == db.audit + [AuditRow(None, EventDone(key, now))]
    && db'.webhooks == db.webhooks[key := db.webhooks[key].(status := Processed)]
    && (db.webhooks[key].body.PaymentEvent? ==> Applicable(BooksOf(db), key, db.webhooks[key]))
    && BooksOf(db') == Effect(BooksOf(db), key, db.webhooks[key], now)
  }

  /** Only the processing of a waiting event extends the event log, and then by that event;
      every other event step leaves the books alone. */
  ghost predicate EventStep(db: Db, db': Db, key: EventKey, now: Micros) {
    SameEvents(db, db') && (LogsOne(db, db', key, now) || (LogsNothing(db, db') && BooksOf(db') == BooksOf(db)))
  }

  lemma {:induction false} ProcessingShape(db: Db, key: EventKey, now: Micros)
    ensures EventStep(db, EventProcessed(db, key, now), key, now)
  {
  }

  lemma {:induction false} IngestingShape(db: Db, key: EventKey, merchant: MerchantId, body: EventBody, now: Micros)
    ensures EventStep(db, Ingested(db, key, merchant, body), key, now)
  {
  }

  lemma {:induction false} LosingShape(db: Db, key: EventKey, retriesLeft: bool, now: Micros)
    ensures EventStep(db, EventLost(db, key, retriesLeft), key, now)
  {
  }

  /** A step of ingestion, of processing, or of a job that fails. */
  predicate ConcernsEvents(s: Step) {
    s.op.Ingest? || s.op.ProcessEvent? || s.op.LoseEvent? || s.op.RollBack?
  }

  function KeyOf(s: Step): EventKey
    requires ConcernsEvents(s)
  {
    match s.op
    case Ingest(key, _, _) => key
    case ProcessEvent(key) => key
    case LoseEvent(key, _) => key
    case _ => EventKey(0, 0)
  }

  lemma {:induction false} EventStepShape(db: Db, s: Step)
    requires ConcernsEvents(s)
    ensures EventStep(Ticked(db, s), Next(db, s), KeyOf(s), db.clock + s.delay)
  {
    SteppedShape(Ticked(db, s), s);
    assert Next(db, s) == Stepped(Ticked(db, s), s.op, s.env);
  }

  lemma {:induction false} SteppedShape(db: Db, s: Step)
    requires ConcernsEvents(s)
    ensures EventStep(db, Stepped(db, s.op, s.env), KeyOf(s), db.clock)
  {
    match s.op
    case Ingest(key, merchant, body) =>
      IngestingShape(db, key, merchant, body, db.clock);
      assert Stepped(db, s.op, s.env) == Ingested(db, key, merchant, body);
    case ProcessEvent(key) =>
      ProcessingShape(db, key, db.clock);
      assert Stepped(db, s.op, s.env) == EventProcessed(db, key, db.clock);
    case LoseEvent(key, retriesLeft) =>
      LosingShape(db, key, retriesLeft, db.clock);
      assert Stepped(db, s.op, s.env) == EventLost(db, key, retriesLeft);
    case RollBack =>
      assert Stepped(db, s.op, s.env) == db;
  }

  lemma {:induction false} CaseStepLogsNothing(db: Db, s: Step)
    requires !ConcernsEvents(s)
    ensures SameEvents(db, Next(db, s)) && LogsNothing(db, Next(db, s))
  {
    NextShape(db, s);
    if Commits(db, s) {
      CaseRowsAreNoEvents(db.audit, CaseOf(s.op).value, WorkOf(db, s).log);
    }
  }

  lemma {:induction false} LogsOneOnce(db: Db, db': Db, key: EventKey, now: Micros)
    requires LoggedOnce(db) && LogsOne(db, db', key, now)
    ensures LoggedOnce(db')
  {
    var log := EventLog(db.audit);
    OneMoreRow(db.audit, AuditRow(None, EventDone(key, now)));
    var log' := log + [Entry(key, now)];
    assert !Logs(log, key);
    assert forall e :: e in log' <==> e in log || e == Entry(key, now);
    forall k ensures Logs(log', k) <==> IsProcessed(db'.webhooks, k) {
      assert Logs(log', k) <==> Logs(log, k) || k == key;
    }
    forall i, j | 0 <= i < j < |log'| ensures log'[i].key != log'[j].key {
      assert log'[i] in log;
    }
  }

  lemma {:induction false} LogsNothingOnce(db: Db, db': Db)
    requires LoggedOnce(db) && LogsNothing(db, db')
    ensures LoggedOnce(db')
  {
  }

  lemma {:induction false} EventStepOnce(db: Db, db': Db, key: EventKey, now: Micros)
    requires LoggedOnce(db) && EventStep(db, db', key, now)
    ensures LoggedOnce(db')
  {
    if LogsOne(db, db', key, now) {
      LogsOneOnce(db, db', key, now);
    } else {
      LogsNothingOnce(db, db');
    }
  }

  lemma {:induction false} NextLogsOnce(db: Db, s: Step)
    requires LoggedOnce(db)
    ensures LoggedOnce(Next(db, s))
  {
    if ConcernsEvents(s) {
      EventStepShape(db, s);
      LogsNothingOnce(db, Ticked(db, s));
      EventStepOnce(Ticked(db, s), Next(db, s), KeyOf(s), db.clock + s.delay);
    } else {
      CaseStepLogsNothing(db, s);
      LogsNothingOnce(db, Next(db, s));
    }
  }

  /** In any run of the whole engine, each event is processed at most once, and the audit
      log says which events were. */
  lemma {:induction false} EachEventOnce(genesis: Db, steps: seq<Step>)
    requires genesis.audit == [] && genesis.webhooks == map[]
    ensures LoggedOnce(Run(genesis, steps))
  {
    if steps != [] {
      EachEventOnce(genesis, steps[..|steps| - 1]);
      NextLogsOnce(Run(genesis, steps[..|steps| - 1]), steps[|steps| - 1]);
    }
  }

  /* ----- First deliveries and buried events ----- */

  /** A row that no longer waits stays as it is, whatever is delivered, processed or lost. */
  lemma {:induction false} SettledEventStays(db: Db, s: Step, key: EventKey)
    requires key in db.webhooks && !db.webhooks[key].status.Received?
    ensures key in Next(db, s).webhooks && Next(db, s).webhooks[key] == db.webhooks[key]
  {
    var t := Ticked(db, s);
    assert Next(db, s) == Stepped(t, s.op, s.env);
    if CaseOf(s.op).Some? {
      CaseStepShape(t, s.op, s.env);
    } else {
      SettledInStep(t, s.op, s.env, key);
    }
  }

  lemma {:induction false} SettledInStep(db: Db, op: Op, env: Env, key: EventKey)
    requires CaseOf(op).None? && key in db.webhooks && !db.webhooks[key].status.Received?
    ensures var db' := Stepped(db, op, env); key in db'.webhooks && db'.webhooks[key] == db.webhooks[key]
  {
    match op
    case Ingest(k, merchant, body) => assert Stepped(db, op, env) == Ingested(db, k, merchant, body);
    case ProcessEvent(k) =>
      SettledByProcessing(db, k, key, db.clock);
      assert Stepped(db, op, env) == EventProcessed(db, k, db.clock);
    case LoseEvent(k, retriesLeft) => assert Stepped(db, op, env) == EventLost(db, k, retriesLeft);
    case RollBack => assert Stepped(db, op, env) == db;
  }

  lemma {:induction false} SettledByProcessing(db: Db, k: EventKey, key: EventKey, now: Micros)
    requires key in db.webhooks && !db.webhooks[key].status.Received?
    ensures var db' := EventProcessed(db, k, now); key in db'.webhooks && db'.webhooks[key] == db.webhooks[key]
  {
  }

  /** Processed and buried rows are final over any run, and a buried event is never logged:
      only logged events take effect. */
  lemma {:induction false} SettledEventsAreFinal(db: Db, steps: seq<Step>, key: EventKey)
    requires LoggedOnce(db) && key in db.webhooks && !db.webhooks[key].status.Received?
    ensures var db' := Run(db, steps);
            && LoggedOnce(db')
            && key in db'.webhooks && db'.webhooks[key] == db.webhooks[key]
            && (Logs(EventLog(db'.audit), key) <==> db.webhooks[key].status.Processed?)
  {
    if steps != [] {
      var front := steps[..|steps| - 1];
      SettledEventsAreFinal(db, front, key);
      SettledEventStays(Run(db, front), steps[|steps| - 1], key);
      NextLogsOnce(Run(db, front), steps[|steps| - 1]);
    }
    assert Logs(EventLog(Run(db, steps).audit), key) <==> IsProcessed(Run(db, steps).webhooks, key);
  }

  /** No event is forgotten, changed or unprocessed by a step. */
  lemma {:induction false} EventsStay(db: Db, s: Step)
    ensures SameEvents(db, Next(db, s))
    ensures forall key | IsProcessed(db.webhooks, key) :: IsProcessed(Next(db, s).webhooks, key)
  {
    if ConcernsEvents(s) {
      EventStepShape(db, s);
    } else {
      CaseStepLogsNothing(db, s);
    }
  }

  lemma {:induction false} RunKeepsEvents(db: Db, steps: seq<Step>)
    ensures SameEvents(db, Run(db, steps))
  {
    if steps != [] {
      RunKeepsEvents(db, steps[..|steps| - 1]);
      EventsStay(Run(db, steps[..|steps| - 1]), steps[|steps| - 1]);
    }
  }

  /** The row that a delivery finds, or is the first to write. */
  function FirstDelivery(db: Db, op: Op): Webhook
    requires op.Ingest?
  {
    if op.key in db.webhooks then db.webhooks[op.key] else Webhook(op.merchant, op.body, Received)
  }

  /** The first delivery of an event stands for ever: a later one of the same id leaves the
      store as it was, and whatever follows, the row says what the first one said. */
  lemma {:induction false} FirstDeliveryStands(db: Db, s: Step, more: seq<Step>)
    requires s.op.Ingest? && s.op.merchant in db.merchants
    ensures var first, db', final := FirstDelivery(db, s.op), Next(db, s), Run(Next(db, s), more);
            && db' == (if s.op.key in db.webhooks then Ticked(db, s)
                       else Ticked(db, s).(webhooks := db.webhooks[s.op.key := first]))
            && s.op.key in final.webhooks
            && final.webhooks[s.op.key].merchant == first.merchant && final.webhooks[s.op.key].body == first.body
  {
    var t := Ticked(db, s);
    assert Next(db, s) == Ingested(t, s.op.key, s.op.merchant, s.op.body);
    RunKeepsEvents(Next(db, s), more);
  }

  /* ----- One pass ----- */

  /** Every event of a log takes effect once, in order. */
  function OnePass(webhooks: map<EventKey, Webhook>, log: seq<Entry>, start: Books): Books {
    if log == [] then start
    else
      var before, e := OnePass(webhooks, log[..|log| - 1], start), log[|log| - 1];
      if e.key in webhooks then Effect(before, e.key, webhooks[e.key], e.at) else before
  }

  lemma {:induction false} PassReadsBodies(db: Db, db': Db, log: seq<Entry>, start: Books)
    requires SameEvents(db, db') && forall e <- log :: e.key in db.webhooks
    ensures OnePass(db'.webhooks, log, start) == OnePass(db.webhooks, log, start)
  {
    if log != [] {
      var e := log[|log| - 1];
      assert e in log;
      PassReadsBodies(db, db', log[..|log| - 1], start);
      SameEffect(OnePass(db.webhooks, log[..|log| - 1], start), e, db.webhooks[e.key], db'.webhooks[e.key]);
    }
  }

  lemma {:induction false} SameEffect(b: Books, e: Entry, w: Webhook, w': Webhook)
    requires w'.merchant == w.merchant && w'.body == w.body
    ensures Effect(b, e.key, w', e.at) == Effect(b, e.key, w, e.at)
  {
  }

  lemma {:induction false} OneMoreEvent(webhooks: map<EventKey, Webhook>, log: seq<Entry>, e: Entry, start: Books)
    requires e.key in webhooks
    ensures OnePass(webhooks, log + [e], start) == Effect(OnePass(webhooks, log, start), e.key, webhooks[e.key], e.at)
  {
    assert (log + [e])[..|log + [e]| - 1] == log;
  }

  /** Since `past` was the event log and `start` the books, each event logged later has taken
      effect once. */
  ghost predicate PassedOnce(db: Db, past: seq<Entry>, start: Books) {
    var log := EventLog(db.audit);
    && |past| <= |log| && log[..|past|] == past
    && BooksOf(db) == OnePass(db.webhooks, log[|past|..], start)
  }

  lemma {:induction false} StepExtendsPass(db: Db, db': Db, key: EventKey, now: Micros, past: seq<Entry>, start: Books)
    requires LoggedOnce(db) && EventStep(db, db', key, now)
    requires PassedOnce(db, past, start)
    ensures PassedOnce(db', past, start)
  {
    var log := EventLog(db.audit);
    forall e | e in log ensures e.key in db.webhooks {
      assert Logs(log, e.key);
    }
    PassReadsBodies(db, db', log[|past|..], start);
    if LogsOne(db, db', key, now) {
      var e := Entry(key, now);
      OneMoreRow(db.audit, AuditRow(None, EventDone(key, now)));
      assert (log + [e])[|past|..] == log[|past|..] + [e];
      OneMoreEvent(db'.webhooks, log[|past|..], e, start);
      SameEffect(BooksOf(db), e, db.webhooks[key], db'.webhooks[key]);
    }
  }

  lemma {:induction false} NextPassesOnce(db: Db, s: Step, past: seq<Entry>, start: Books)
    requires LoggedOnce(db) && PassedOnce(db, past, start) && ConcernsEvents(s)
    ensures PassedOnce(Next(db, s), past, start)
  {
    EventStepShape(db, s);
    LogsNothingOnce(db, Ticked(db, s));
    StepExtendsPass(Ticked(db, s), Next(db, s), KeyOf(s), db.clock + s.delay, past, start);
  }

  /** Exactly-once event effect: wherever a run of the engine has got to, after any further
      ingests, duplicate ingests, processings, rolled-back crashes and dead-letter marks,
      payments and cases are what one pass over the newly processed events makes of them. */
  lemma {:induction false} EventsTakeEffectOnce(genesis: Db, before: seq<Step>, steps: seq<Step>)
    requires genesis.audit == [] && genesis.webhooks == map[]
    requires forall s <- steps :: ConcernsEvents(s)
    ensures var db, db' := Run(genesis, before), Run(genesis, before + steps);
            LoggedOnce(db') && PassedOnce(db', EventLog(db.audit), BooksOf(db))
  {
    EachEventOnce(genesis, before);
    RunInTwoParts(genesis, before, steps);
    EventStepsPassOnce(Run(genesis, before), steps);
  }

  lemma {:induction false} EventStepsPassOnce(db: Db, steps: seq<Step>)
    requires LoggedOnce(db)
    requires forall s <- steps :: ConcernsEvents(s)
    ensures LoggedOnce(Run(db, steps)) && PassedOnce(Run(db, steps), EventLog(db.audit), BooksOf(db))
  {
    if steps != [] {
      var front, s := steps[..|steps| - 1], steps[|steps| - 1];
      assert s in steps && forall x <- front :: x in steps;
      EventStepsPassOnce(db, front);
      NextLogsOnce(Run(db, front), s);
      NextPassesOnce(Run(db, front), s, EventLog(db.audit), BooksOf(db));
    }
  }

  /* ----- The status of a payment ----- */

  predicate About(w: Webhook, key: EventKey, p: PaymentId) {
    w.body.PaymentEvent? && PaymentOf(w, key.provider) == p
  }

  /** The processed events of a payment, in order. */
  function EventsOf(webhooks: map<EventKey, Webhook>, log: seq<Entry>, p: PaymentId): seq<EventBody> {
    if log == [] then []
    else
      var e := log[|log| - 1];
      EventsOf(webhooks, log[..|log| - 1], p)
      + if e.key in webhooks && About(webhooks[e.key], e.key, p) then [webhooks[e.key].body] else []
  }

  predicate Decisive(e: EventBody) {
    e.PaymentEvent? && (e.kind.CapturedEvent? || e.kind.RefundedEvent?)
  }

  /** The last capture or refund of a history, if there is one. */
  function LastDecisive(es: seq<EventBody>): (last: Option<EventBody>)
    ensures last.Some? ==> Decisive(last.value) && last.value in es
    ensures last.None? <==> forall e <- es :: !Decisive(e)
  {
    if es == [] then None
    else if Decisive(es[|es| - 1]) then Some(es[|es| - 1])
    else
      assert es == es[..|es| - 1] + [es[|es| - 1]];
      LastDecisive(es[..|es| - 1])
  }

  /** The last capture of a history, if there is one. */
  function LastCapture(es: seq<EventBody>): (last: Option<EventBody>)
    ensures last.Some? ==> last.value.PaymentEvent? && last.value.kind.CapturedEvent? && last.value in es
    ensures last.None? <==> forall e <- es :: !(e.PaymentEvent? && e.kind.CapturedEvent?)
  {
    if es == [] then None
    else if es[|es| - 1].PaymentEvent? && es[|es| - 1].kind.CapturedEvent? then Some(es[|es| - 1])
    else
      assert es == es[..|es| - 1] + [es[|es| - 1]];
      LastCapture(es[..|es| - 1])
  }

  /** A payment as its history tells it: a capture or refund outweighs everything but a later
      capture or refund, and the last capture says when and how much. */
  ghost predicate Tells(es: seq<EventBody>, pay: Payment) {
    && es != [] && (forall e <- es :: e.PaymentEvent?)
    && pay.status == (if LastDecisive(es).Some? then StatusOf(LastDecisive(es).value.kind) else StatusOf(es[|es| - 1].kind))
    && pay.capturedAt == (if LastCapture(es).Some? then Some(LastCapture(es).value.occurredAt) else None)
    && pay.amount == (if LastCapture(es).Some? then LastCapture(es).value.amount else es[0].amount)
  }

  function Lookup(payments: map<PaymentId, Payment>, p: PaymentId): Option<Payment> {
    if p in payments then Some(payments[p]) else None
  }

  ghost predicate TellsOf(es: seq<EventBody>, pay: Option<Payment>) {
    if pay.Some? then Tells(es, pay.value) else es == []
  }

  /** The store has a payment exactly when it has processed events, and as they tell it. */
  ghost predicate HistoryTells(db: Db, p: PaymentId) {
    TellsOf(EventsOf(db.webhooks, EventLog(db.audit), p), Lookup(db.payments, p))
  }

  lemma {:induction false} FreshTells(e: EventBody)
    requires e.PaymentEvent? && e.amount >= 0 && e.customer.Some?
    ensures Tells([e], Fresh(e))
  {
  }

  lemma {:induction false} UpdateTells(es: seq<EventBody>, pay: Payment, e: EventBody)
    requires Tells(es, pay) && e.PaymentEvent? && e.amount >= 0
    ensures Tells(es + [e], Updated(pay, e))
  {
    var all := es + [e];
    assert all[..|all| - 1] == es && all[|all| - 1] == e;
  }

  lemma {:induction false} HistoryReadsBodies(db: Db, db': Db, log: seq<Entry>, p: PaymentId)
    requires SameEvents(db, db') && forall e <- log :: e.key in db.webhooks
    ensures EventsOf(db'.webhooks, log, p) == EventsOf(db.webhooks, log, p)
  {
    if log != [] {
      assert log[|log| - 1] in log;
      HistoryReadsBodies(db, db', log[..|log| - 1], p);
    }
  }

  lemma {:induction false} OneMoreInHistory(webhooks: map<EventKey, Webhook>, log: seq<Entry>, e: Entry, p: PaymentId)
    requires e.key in webhooks
    ensures EventsOf(webhooks, log + [e], p) ==
            EventsOf(webhooks, log, p) + if About(webhooks[e.key], e.key, p) then [webhooks[e.key].body] else []
  {
    assert (log + [e])[..|log + [e]| - 1] == log;
  }

  /** What an event makes of its payment. */
  function Retold(pay: Option<Payment>, e: EventBody): Option<Payment> {
    if !e.PaymentEvent? || e.amount < 0 then pay
    else if pay.Some? then Some(Updated(pay.value, e))
    else if e.customer.Some? then Some(Fresh(e))
    else None
  }

  lemma {:induction false} RetoldTells(es: seq<EventBody>, pay: Option<Payment>, e: EventBody)
    requires TellsOf(es, pay) && e.PaymentEvent? && e.amount >= 0 && (pay.Some? || e.customer.Some?)
    ensures TellsOf(es + [e], Retold(pay, e))
  {
    if pay.Some? {
      UpdateTells(es, pay.value, e);
    } else {
      FreshTells(e);
      assert es + [e] == [e];
    }
  }

  lemma {:induction false} EffectOnPayment(b: Books, key: EventKey, w: Webhook, at: Micros, p: PaymentId)
    requires w.body.PaymentEvent? ==> Applicable(b, key, w)
    ensures Lookup(Effect(b, key, w, at).payments, p)
            == if About(w, key, p) then Retold(Lookup(b.payments, p), w.body) else Lookup(b.payments, p)
  {
  }

  lemma {:induction false} HistoryAfter(db: Db, db': Db, key: EventKey, now: Micros, p: PaymentId)
    requires LoggedOnce(db) && SameEvents(db, db') && LogsOne(db, db', key, now)
    ensures EventsOf(db'.webhooks, EventLog(db'.audit), p) ==
            EventsOf(db.webhooks, EventLog(db.audit), p) + if About(db.webhooks[key], key, p)
                then [db.webhooks[key].body] else []
  {
    SameHistory(db, db', p);
    OneMoreRow(db.audit, AuditRow(None, EventDone(key, now)));
    OneMoreInHistory(db'.webhooks, EventLog(db.audit), Entry(key, now), p);
  }

  lemma {:induction false} PaymentAfter(db: Db, db': Db, key: EventKey, now: Micros, p: PaymentId)
    requires LogsOne(db, db', key, now)
    ensures var w := db.webhooks[key];
            && (About(w, key, p) ==> w.body.amount >= 0 && (Lookup(db.payments, p).Some? || w.body.customer.Some?))
            && Lookup(db'.payments, p) == if About(w, key, p) then Retold(Lookup(db.payments, p), w.body)
                else Lookup(db.payments, p)
  {
    EffectOnPayment(BooksOf(db), key, db.webhooks[key], now, p);
    assert db'.payments == BooksOf(db').payments;
  }

  lemma {:induction false} EventTells(db: Db, db': Db, key: EventKey, now: Micros, p: PaymentId)
    requires LoggedOnce(db) && SameEvents(db, db') && LogsOne(db, db', key, now) && HistoryTells(db, p)
    ensures HistoryTells(db', p)
  {
    var es, w, pay := EventsOf(db.webhooks, EventLog(db.audit), p), db.webhooks[key], Lookup(db.payments, p);
    HistoryAfter(db, db', key, now, p);
    PaymentAfter(db, db', key, now, p);
    if About(w, key, p) {
      RetoldTells(es, pay, w.body);
      assert TellsOf(es + [w.body], Retold(pay, w.body));
    } else {
      assert es + [] == es;
    }
  }

  lemma {:induction false} SameHistory(db: Db, db': Db, p: PaymentId)
    requires LoggedOnce(db) && SameEvents(db, db')
    ensures EventsOf(db'.webhooks, EventLog(db.audit), p) == EventsOf(db.webhooks, EventLog(db.audit), p)
  {
    var log := EventLog(db.audit);
    forall e | e in log ensures e.key in db.webhooks {
      assert Logs(log, e.key);
    }
    HistoryReadsBodies(db, db', log, p);
  }

  lemma {:induction false} StepTells(db: Db, db': Db, key: EventKey, now: Micros, p: PaymentId)
    requires LoggedOnce(db) && EventStep(db, db', key, now) && HistoryTells(db, p)
    ensures HistoryTells(db', p)
  {
    if LogsOne(db, db', key, now) {
      EventTells(db, db', key, now, p);
    } else {
      SameHistory(db, db', p);
    }
  }
}
