/** All invariants of the store together, and the services that keep them. */
module Safety {
  import opened Domain
  import opened Store
  import opened Engine
  import opened Ledger
  import opened Conservation
  import opened Idempotency
  import opened Rows
  import opened Quotas
  import opened Retries
  import opened Budget
  import opened EventEffects
  import opened Origins
  import opened Sessions

  /** Faithful audit log and sound cases, one open case per payment, books without double
      counting, one run per key, owned rows, the three quotas, events processed once,
      payments that their events explain, and a failure behind every case. */
  ghost predicate Safe(db: Db) {
    && Audited(db)
    && OneOpenCase(db.cases)
    && Booked(db.cases, db.creditedFrom)
    && KeysSafe(db.tools)
    && TablesSound(db, db.tools)
    && WithinQuota(db)
    && WithinRetries(db, db.tools.actions)
    && (CapsAreFractions(db) ==> BudgetKept(db, db.tools.actions))
    && LoggedOnce(db)
    && (forall p :: Explained(db, p))
    && (exists openers :: OpenedInOrder(db, openers))
  }

  lemma {:induction false} EveryRunIsSafe(window: int, grace: int, merchants: map<MerchantId, PolicySettings>,
                       customers: map<CustomerId, MerchantId>, steps: seq<Step>)
    ensures Safe(Run(Empty(window, grace, merchants, customers), steps))
  {
    var genesis := Empty(window, grace, merchants, customers);
    RunKeepsAudited(genesis, steps);
    OneOpenCasePerPayment(genesis, steps);
    RunKeepsBooked(genesis, steps);
    RunKeepsKeysSafe(genesis, steps);
    RunKeepsTablesSound(genesis, steps);
    QuotaInRuns(genesis, steps);
    RetriesStayWithinLimit(genesis, steps);
    if CapsAreFractions(genesis) {
      BudgetInRuns(genesis, steps);
    }
    EachEventOnce(genesis, steps);
    forall p ensures Explained(Run(genesis, steps), p) {
      EveryPaymentIsExplained(genesis, steps, p);
    }
    EveryCaseHasItsFailure(genesis, steps);
  }

  /** The services, run on an empty store in any order, leave it safe. */
  method Operate(window: int, grace: int, merchants: map<MerchantId, PolicySettings>,
                 customers: map<CustomerId, MerchantId>, steps: seq<Step>) returns (session: Session)
    ensures session.store == Run(Empty(window, grace, merchants, customers), steps) && Safe(session.store)
  {
    session := new Session(Empty(window, grace, merchants, customers));
    session.RunAll(steps);
    EveryRunIsSafe(window, grace, merchants, customers, steps);
  }
}
