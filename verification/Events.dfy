/** Webhook ingestion and processing: the effect of provider events on payments and cases. */
module Events {
  import opened Domain
  import opened Store

  function StatusOf(kind: EventKind): PaymentStatus {
    match kind
    case FailedEvent => PaymentFailed
    case CapturedEvent => Captured
    case RefundedEvent => Refunded
    case CancelledEvent => Cancelled
    case AuthorizedEvent => Authorized
    case CreatedEvent => Created
  }

  /** _is_status_downgrade. */
  predicate Downgrade(current: PaymentStatus, incoming: PaymentStatus) {
    || (current == Captured && (incoming.Created? || incoming.Authorized? || incoming.PaymentFailed? || incoming.Cancelled?))
    || (current == Refunded && incoming != Refunded)
  }

  function Or<T>(a: Option<T>, b: Option<T>): Option<T> {
    if a.Some? then a else b
  }

  /** _find_or_create_payment, for a payment that is already in the store. */
  function Updated(was: Payment, e: EventBody): Payment
    requires e.PaymentEvent? && e.amount >= 0
  {
    var status := StatusOf(e.kind);
    was.(status := if status == Captured || !Downgrade(was.status, status) then status else was.status,
         order := Or(e.order, was.order),
         failure := if status == PaymentFailed then Or(e.failure, was.failure) else was.failure,
         capturedAt := if status == Captured then Some(e.occurredAt) else was.capturedAt,
         amount := if status == Captured then e.amount else was.amount)
  }

  function Fresh(e: EventBody): Payment
    requires e.PaymentEvent? && e.amount >= 0 && e.customer.Some?
  {
    var status := StatusOf(e.kind);
    Payment(e.customer.value, e.order, e.amount, e.currency, status, e.failure,
            if status == Captured then Some(e.occurredAt) else None)
  }

  predicate OpenFor(c: Case, p: PaymentId) {
    c.merchant == p.merchant && c.payment == Some(p) && c.closedAt.None?
  }

  predicate HasOpenCase(cases: seq<Case>, p: PaymentId) {
    exists c <- cases :: OpenFor(c, p)
  }

  /** _create_or_attach_recovery_case. */
  function WithCaseFor(cases: seq<Case>, p: PaymentId, pay: Payment, now: Micros): seq<Case> {
    if HasOpenCase(cases, p) then cases
    else cases + [Case(p.merchant, pay.customer, Some(p), Detected, pay.amount, 0, pay.currency, 1, now,
                       None, None, None, None)]
  }

  /** The two tables that an event changes. */
  datatype Books = Books(payments: map<PaymentId, Payment>, cases: seq<Case>)

  function PaymentOf(w: Webhook, provider: nat): PaymentId
    requires w.body.PaymentEvent?
  {
    PaymentId(w.merchant, provider, w.body.reference)
  }

  datatype Treatment = Apply | Ignore | Bury | Crash

  /** What processing does with a webhook row that is still waiting. */
  function TreatmentOf(merchants: set<MerchantId>, customers: map<CustomerId, MerchantId>,
                     payments: map<PaymentId, Payment>, key: EventKey, w: Webhook): Treatment
  {
    if w.merchant !in merchants || w.body.MalformedEvent? then Bury
    else if w.body.UnknownEvent? then Ignore
    else
      var known := PaymentOf(w, key.provider) in payments;
      var resolved := w.body.customer.Some? && w.body.customer.value in customers
          && customers[w.body.customer.value] == w.merchant;
      if !known && !resolved then Bury
      else if w.body.amount < 0 then Crash
      else Apply
  }

  /** The effect of one event. */
  function Applied(b: Books, key: EventKey, w: Webhook, now: Micros): Books
    requires w.body.PaymentEvent? && w.body.amount >= 0
    requires PaymentOf(w, key.provider) in b.payments || w.body.customer.Some?
  {
    var p := PaymentOf(w, key.provider);
    var pay := if p in b.payments then Updated(b.payments[p], w.body) else Fresh(w.body);
    Books(b.payments[p := pay], if w.body.kind == FailedEvent then WithCaseFor(b.cases, p, pay, now) else b.cases)
  }

  function SetEvent(db: Db, key: EventKey, status: EventStatus): Db
    requires key in db.webhooks
  {
    db.(webhooks := db.webhooks[key := db.webhooks[key].(status := status)])
  }

  /** EventIngestionService.ingest: the first row for an event id stands. */
  function Ingested(db: Db, key: EventKey, merchant: MerchantId, body: EventBody): Db {
    if merchant !in db.merchants || key in db.webhooks then db
    else db.(webhooks := db.webhooks[key := Webhook(merchant, body, Received)])
  }

  predicate Waiting(db: Db, key: EventKey) {
    key in db.webhooks && db.webhooks[key].status == Received
  }

  function Logged(db: Db, key: EventKey, now: Micros): Db
    requires key in db.webhooks
  {
    SetEvent(db, key, Processed).(audit := db.audit + [AuditRow(None, EventDone(key, now))])
  }

  /** process_webhook_event, committed by its job; a crash rolls everything back. */
  function EventProcessed(db: Db, key: EventKey, now: Micros): Db {
    if !Waiting(db, key) then db
    else
      var w := db.webhooks[key];
      match TreatmentOf(db.merchants.Keys, db.customers, db.payments, key, w)
      case Bury => SetEvent(db, key, DeadLetter)
      case Ignore => Logged(db, key, now)
      case Crash => db
      case Apply =>
        var b := Applied(Books(db.payments, db.cases), key, w, now);
        Logged(db, key, now).(payments := b.payments, cases := b.cases)
  }

  /** A job whose transaction was rolled back; without retries left the row is buried. */
  function EventLost(db: Db, key: EventKey, retriesLeft: bool): Db {
    if !retriesLeft && Waiting(db, key) then SetEvent(db, key, DeadLetter) else db
  }
}
