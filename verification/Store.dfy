/** The tables, and the unit of work in which a service changes one locked case. */
module Store {
  import opened Domain
  import opened StateMachine

  /** The whole database. `creditedFrom` is a history variable of the model: for each
      payment, the captured amount at the last moment a case was credited from it. */
  datatype Db = Db(
    clock: Micros,
    window: int,
    grace: int,
    merchants: map<MerchantId, PolicySettings>,
    customers: map<CustomerId, MerchantId>,
    payments: map<PaymentId, Payment>,
    cases: seq<Case>,
    audit: seq<AuditRow>,
    tools: Tools,
    webhooks: map<EventKey, Webhook>,
    creditedFrom: map<PaymentId, nat>)

  const NO_TOOLS := Tools([], [], map[], [], [])

  function Empty(window: int, grace: int, merchants: map<MerchantId, PolicySettings>,
                 customers: map<CustomerId, MerchantId>): Db {
    Db(0, window, grace, merchants, customers, map[], [], [], NO_TOOLS, map[], map[])
  }

  /** One locked case row, the audit rows written about it so far, and the other
      tables that the transaction may change. Nothing here is committed yet. */
  datatype Work = Work(
    id: nat,
    row: Case,
    log: seq<AuditEntry>,
    tools: Tools,
    payments: map<PaymentId, Payment>,
    creditedFrom: map<PaymentId, nat>)
  {
    /** transition_case, on an edge that the state machine allows. */
    function Move(to: CaseStatus, now: Micros): Work
      requires Legal(row.status, to)
    {
      this.(row := row.(status := to, version := row.version + 1,
                        closedAt := if Terminal(to) then Some(now) else None),
            log := log + [Moved(row.status, to, row.version + 1, now)])
    }

    /** transition_case, on an edge that the state machine forbids. */
    function Refuse(to: CaseStatus): Work {
      this.(log := log + [MoveRejected(row.status, to)])
    }

    function Note(m: Option<Mismatch>): Work {
      this.(row := row.(mismatch := m))
    }

    /** Books `amount` from payment `p` on the case. */
    function Credit(p: PaymentId, event: Option<EventKey>, amount: nat, m: Option<Mismatch>): Work
      requires p in payments
    {
      this.(row := row.(amountRecovered := amount, verifiedPayment := Some(p), verifiedEvent := event, mismatch := m),
            log := if row.amountRecovered == amount then log else log + [AmountUpdated(row.amountRecovered, amount)],
            creditedFrom := creditedFrom[p := payments[p].amount])
    }
  }

  function Begin(db: Db, i: nat): Work
    requires i < |db.cases|
  {
    Work(i, db.cases[i], [], db.tools, db.payments, db.creditedFrom)
  }

  function Tag(i: nat, log: seq<AuditEntry>): seq<AuditRow> {
    seq(|log|, k requires 0 <= k < |log| => AuditRow(Some(i), log[k]))
  }

  /** Writes a unit of work on case i back. */
  function Commit(db: Db, i: nat, w: Work): Db
    requires i < |db.cases|
  {
    db.(cases := db.cases[i := w.row],
        audit := db.audit + Tag(i, w.log),
        tools := w.tools,
        payments := w.payments,
        creditedFrom := w.creditedFrom)
  }
}
