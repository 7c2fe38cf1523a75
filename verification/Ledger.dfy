/** The recovery ledger over runs of any length: what the audit log replays to, that a
    case takes at most twelve transitions, and that a terminal case is frozen. */
module Ledger {
  import opened Domain
  import opened StateMachine
  import opened Store
  import opened Replay
  import opened Events
  import opened Lifecycle
  import opened Engine

  /* ----- The shape of a step ----- */

  /** The step commits a unit of work on case i. */
  predicate Commits(db: Db, s: Step) {
    Locks(db, s.op) && Worked(Ticked(db, s), s.op, s.env).Done?
  }

  function WorkOf(db: Db, s: Step): (w: Work)
    requires Commits(db, s)
  {
    Worked(Ticked(db, s), s.op, s.env).work
  }

  predicate Newborn(c: Case) {
    LifeOf(c) == BORN && c.verifiedPayment.None? && c.verifiedEvent.None? && c.payment.Some?
  }

  /** At most one case is opened, for a payment that has none. */
  ghost predicate CasesGrow(cases: seq<Case>, cases': seq<Case>) {
    cases' == cases
    || (|cases'| == |cases| + 1 && cases == cases'[..|cases|] && Newborn(cases'[|cases|])
        && cases'[|cases|].payment.value.merchant == cases'[|cases|].merchant
        && !HasOpenCase(cases, cases'[|cases|].payment.value))
  }

  /** A step that locks no case: at most one case is opened and one event is logged. */
  ghost predicate LedgerGrows(db: Db, db': Db) {
    && CasesGrow(db.cases, db'.cases)
    && (db'.audit == db.audit || exists e :: db'.audit == db.audit + [AuditRow(None, e)])
    && db'.creditedFrom == db.creditedFrom && db'.tools == db.tools
    && db'.merchants == db.merchants && db'.customers == db.customers && db'.clock == db.clock
  }

  lemma {:induction false} EventGrows(db: Db, key: EventKey, now: Micros)
    ensures LedgerGrows(db, EventProcessed(db, key, now))
  {
    if Waiting(db, key) {
      var w := db.webhooks[key];
      match TreatmentOf(db.merchants.Keys, db.customers, db.payments, key, w)
      case Bury =>
      case Crash =>
      case Ignore => LoggingGrows(db, key, now, db.payments, db.cases);
      case Apply =>
        var b := Applied(Books(db.payments, db.cases), key, w, now);
        ApplyingOpens(Books(db.payments, db.cases), key, w, now);
        LoggingGrows(db, key, now, b.payments, b.cases);
    }
  }

  lemma {:induction false} ApplyingOpens(b: Books, key: EventKey, w: Webhook, now: Micros)
    requires w.body.PaymentEvent? && w.body.amount >= 0
    requires PaymentOf(w, key.provider) in b.payments || w.body.customer.Some?
    ensures CasesGrow(b.cases, Applied(b, key, w, now).cases)
  {
  }

  lemma {:induction false} LoggingGrows(db: Db, key: EventKey, now: Micros, payments: map<PaymentId, Payment>, cases: seq<Case>)
    requires key in db.webhooks && CasesGrow(db.cases, cases)
    ensures LedgerGrows(db, Logged(db, key, now).(payments := payments, cases := cases))
  {
    var e := EventDone(key, now);
    assert Logged(db, key, now).audit == db.audit + [AuditRow(None, e)];
  }

  /** Every step either commits one unit of work or makes the ledger grow. */
  lemma {:induction false} NextShape(db: Db, s: Step)
    ensures if Commits(db, s) then Next(db, s) == Commit(Ticked(db, s), CaseOf(s.op).value, WorkOf(db, s))
            else LedgerGrows(Ticked(db, s), Next(db, s))
  {
    var t := Ticked(db, s);
    assert Next(db, s) == Stepped(t, s.op, s.env);
    if CaseOf(s.op).Some? {
      CaseStepShape(t, s.op, s.env);
    } else {
      EventStepGrows(t, s.op, s.env);
    }
  }

  lemma {:induction false} CaseStepShape(db: Db, op: Op, env: Env)
    requires CaseOf(op).Some?
    ensures Stepped(db, op, env) ==
            if Locks(db, op) && Worked(db, op, env).Done? then Commit(db, CaseOf(op).value, Worked(db, op, env).work) else db
  {
  }

  lemma {:induction false} EventStepGrows(db: Db, op: Op, env: Env)
    requires CaseOf(op).None?
    ensures LedgerGrows(db, Stepped(db, op, env))
  {
    if op.ProcessEvent? {
      EventGrows(db, op.key, db.clock);
      assert Stepped(db, op, env) == EventProcessed(db, op.key, db.clock);
    } else {
      assert Stepped(db, op, env) == db.(webhooks := Stepped(db, op, env).webhooks);
    }
  }

  lemma {:induction false} RunInTwoParts(db: Db, a: seq<Step>, b: seq<Step>)
    ensures Run(db, a + b) == Run(Run(db, a), b)
  {
    if b == [] {
      assert a + b == a;
    } else {
      assert (a + b)[..|a + b| - 1] == a + b[..|b| - 1];
      RunInTwoParts(db, a, b[..|b| - 1]);
    }
  }

  /* ----- Audit replay and soundness ----- */

  ghost predicate Faithful(audit: seq<AuditRow>, i: nat, c: Case) {
    Replayed(Some(BORN), CaseLog(audit, i)) == Some(LifeOf(c)) && Sound(c)
  }

  ghost predicate OnlyAbout(audit: seq<AuditRow>, n: nat) {
    forall row <- audit :: row.caseId.Some? ==> row.caseId.value < n
  }

  /** Every case is sound, and the audit log replays to it. */
  ghost predicate Audited(db: Db) {
    OnlyAbout(db.audit, |db.cases|) && forall i | 0 <= i < |db.cases| :: Faithful(db.audit, i, db.cases[i])
  }

  lemma {:induction false} NoRowsNoLog(audit: seq<AuditRow>, i: nat)
    requires OnlyAbout(audit, i)
    ensures CaseLog(audit, i) == []
  {
    if audit != [] {
      NoRowsNoLog(audit[..|audit| - 1], i);
      assert audit[|audit| - 1] in audit;
    }
  }

  lemma {:induction false} CommitKeepsAudited(db: Db, i: nat, w: Work)
    requires Audited(db) && i < |db.cases|
    requires Follows(db.cases[i], w) && Sound(w.row)
    ensures Audited(Commit(db, i, w))
  {
    var db' := Commit(db, i, w);
    forall j | 0 <= j < |db'.cases| ensures Faithful(db'.audit, j, db'.cases[j]) {
      CommitExtendsOneLog(db, i, w, j);
      assert Faithful(db.audit, j, db.cases[j]);
      if j == i {
        ReplayInTwoParts(Some(BORN), CaseLog(db.audit, i), w.log);
      } else {
        assert CaseLog(db'.audit, j) == CaseLog(db.audit, j);
      }
    }
    assert forall row <- Tag(i, w.log) :: row.caseId == Some(i);
    assert forall row :: row in db'.audit <==> row in db.audit || row in Tag(i, w.log);
  }

  lemma {:induction false} GrowthKeepsAudited(db: Db, db': Db)
    requires Audited(db) && LedgerGrows(db, db')
    ensures Audited(db')
  {
    forall j | 0 <= j < |db'.cases| ensures Faithful(db'.audit, j, db'.cases[j]) {
      GrowthKeepsLog(db, db', j);
      if j < |db.cases| {
        assert db.cases[j] == db'.cases[j];
        assert Faithful(db.audit, j, db.cases[j]);
      } else {
        NoRowsNoLog(db.audit, j);
        NewbornIsFaithful(db'.audit, j, db'.cases[j]);
      }
    }
  }

  lemma {:induction false} GrowthKeepsLog(db: Db, db': Db, j: nat)
    requires LedgerGrows(db, db')
    ensures CaseLog(db'.audit, j) == CaseLog(db.audit, j)
  {
    if db'.audit != db.audit {
      var e :| db'.audit == db.audit + [AuditRow(None, e)];
      CaseLogInTwoParts(db.audit, [AuditRow(None, e)], j);
    }
  }

  lemma {:induction false} NewbornIsFaithful(audit: seq<AuditRow>, i: nat, c: Case)
    requires CaseLog(audit, i) == [] && Newborn(c)
    ensures Faithful(audit, i, c)
  {
  }

  lemma {:induction false} NextKeepsAudited(db: Db, s: Step)
    requires Audited(db)
    ensures Audited(Next(db, s))
  {
    NextShape(db, s);
    if Commits(db, s) {
      var t, i := Ticked(db, s), CaseOf(s.op).value;
      WorkedKeeps(t, s.op, s.env);
      assert Faithful(db.audit, i, db.cases[i]);
      CommitKeepsAudited(t, i, WorkOf(db, s));
    } else {
      GrowthKeepsAudited(Ticked(db, s), Next(db, s));
    }
  }

  lemma {:induction false} RunKeepsAudited(db: Db, steps: seq<Step>)
    requires Audited(db)
    ensures Audited(Run(db, steps))
  {
    if steps != [] {
      RunKeepsAudited(db, steps[..|steps| - 1]);
      NextKeepsAudited(Run(db, steps[..|steps| - 1]), steps[|steps| - 1]);
    }
  }

  lemma {:induction false} FaithfulCounts(audit: seq<AuditRow>, i: nat, c: Case)
    requires Faithful(audit, i, c)
    ensures c.version == 1 + Moves(CaseLog(audit, i)) <= 1 + TOP_RANK
  {
    ReplayCounts(BORN, CaseLog(audit, i));
  }

  lemma {:induction false} RunIsFaithful(genesis: Db, steps: seq<Step>, i: nat)
    requires genesis.cases == [] && genesis.audit == []
    requires i < |Run(genesis, steps).cases|
    ensures Faithful(Run(genesis, steps).audit, i, Run(genesis, steps).cases[i])
  {
    RunKeepsAudited(genesis, steps);
  }

  /** Audit replay: over any run from the empty store, the transition rows of a case form an
      unbroken chain of rising legal edges from DETECTED to its status, which the version
      counts; the other replayed fields are its closing time and the recovered amount. */
  lemma {:induction false} AuditReplays(genesis: Db, steps: seq<Step>, i: nat)
    requires genesis.cases == [] && genesis.audit == []
    requires i < |Run(genesis, steps).cases|
    ensures var db := Run(genesis, steps);
            && Replayed(Some(BORN), CaseLog(db.audit, i)) == Some(LifeOf(db.cases[i]))
            && db.cases[i].version == 1 + Moves(CaseLog(db.audit, i))
            && (db.cases[i].closedAt.Some? <==> Terminal(db.cases[i].status))
  {
    RunIsFaithful(genesis, steps, i);
    FaithfulCounts(Run(genesis, steps).audit, i, Run(genesis, steps).cases[i]);
  }

  /** Bounded lifecycle: no case takes more than twelve transitions, and none rests in
      EXECUTING or VERIFYING. */
  lemma {:induction false} LifecycleIsBounded(genesis: Db, steps: seq<Step>, i: nat)
    requires genesis.cases == [] && genesis.audit == []
    requires i < |Run(genesis, steps).cases|
    ensures var c := Run(genesis, steps).cases[i];
            c.version <= 1 + TOP_RANK == 13 && c.status != Executing && c.status != Verifying
  {
    RunIsFaithful(genesis, steps, i);
    FaithfulCounts(Run(genesis, steps).audit, i, Run(genesis, steps).cases[i]);
  }

  /** Full-credit characterisation: never more than the amount at risk, all of it exactly in
      RECOVERED. */
  lemma {:induction false} CreditIsCharacterised(genesis: Db, steps: seq<Step>, i: nat)
    requires genesis.cases == [] && genesis.audit == []
    requires i < |Run(genesis, steps).cases|
    ensures var c := Run(genesis, steps).cases[i];
            && 0 <= c.amountRecovered <= c.amountAtRisk
            && (c.amountAtRisk > 0 ==> (c.status == Recovered <==> c.amountRecovered == c.amountAtRisk))
  {
    RunIsFaithful(genesis, steps, i);
  }

  /** Processing, verification, execution, approval and rejection never attempt a transition
      that the state machine forbids; only the walk to the policy check and the orchestrator
      can be refused one. */
  lemma {:induction false} ServicesAttemptOnlyLegalMoves(db: Db, s: Step)
    requires Commits(db, s) && !s.op.PreparePolicyCheck? && !s.op.Advance?
    ensures NoRefusal(WorkOf(db, s).log)
  {
    WorkedKeeps(Ticked(db, s), s.op, s.env);
  }

  /* ----- Terminal freeze ----- */

  lemma {:induction false} NextFreezes(db: Db, s: Step, i: nat)
    requires i < |db.cases|
    ensures i < |Next(db, s).cases| && SameIdentity(db.cases[i], Next(db, s).cases[i])
    ensures Terminal(db.cases[i].status) ==> SameLedger(db.cases[i], Next(db, s).cases[i])
  {
    NextShape(db, s);
    if Commits(db, s) {
      WorkedKeeps(Ticked(db, s), s.op, s.env);
    } else if Next(db, s).cases != db.cases {
      assert db.cases[i] == Next(db, s).cases[..|db.cases|][i];
    }
  }

  /** Once a step ends with a case RECOVERED or STOPPED, no later step of any service changes
      its status, version, closing time, recovered amount or verified ids. */
  lemma {:induction false} TerminalIsFrozen(db: Db, steps: seq<Step>, i: nat)
    requires i < |db.cases| && Terminal(db.cases[i].status)
    ensures i < |Run(db, steps).cases| && SameLedger(db.cases[i], Run(db, steps).cases[i])
  {
    if steps != [] {
      TerminalIsFrozen(db, steps[..|steps| - 1], i);
      NextFreezes(Run(db, steps[..|steps| - 1]), steps[|steps| - 1], i);
    }
  }

  /* ----- One open case per payment ----- */

  ghost predicate OneOpenCase(cases: seq<Case>) {
    forall i, j, p | 0 <= i < j < |cases| && OpenFor(cases[i], p) && OpenFor(cases[j], p) :: false
  }

  /** A case that is open for a payment was already so before the step. */
  lemma {:induction false} ClosedStaysClosed(db: Db, s: Step, i: nat, p: PaymentId)
    requires Audited(db) && i < |db.cases|
    ensures i < |Next(db, s).cases|
    ensures OpenFor(Next(db, s).cases[i], p) ==> OpenFor(db.cases[i], p)
  {
    NextFreezes(db, s, i);
    assert Faithful(db.audit, i, db.cases[i]);
  }

  /** The step opens no case for a payment that has one, and reopens none. */
  ghost predicate OpensFairly(before: seq<Case>, after: seq<Case>) {
    && |before| <= |after| <= |before| + 1
    && (forall i, p | 0 <= i < |before| :: OpenFor(after[i], p) ==> OpenFor(before[i], p))
    && (forall p :: |after| > |before| && OpenFor(after[|before|], p) ==> !HasOpenCase(before, p))
  }

  lemma {:induction false} NextOpensFairly(db: Db, s: Step)
    requires Audited(db)
    ensures OpensFairly(db.cases, Next(db, s).cases)
  {
    forall i, p | 0 <= i < |db.cases| ensures i < |Next(db, s).cases|
        && (OpenFor(Next(db, s).cases[i], p) ==> OpenFor(db.cases[i], p)) {
      ClosedStaysClosed(db, s, i, p);
    }
    NewCases(db, s);
  }

  lemma {:induction false} NewCases(db: Db, s: Step)
    ensures var cases := Next(db, s).cases;
            && |db.cases| <= |cases| <= |db.cases| + 1
            && (forall p :: |cases| > |db.cases| && OpenFor(cases[|db.cases|], p) ==> !HasOpenCase(db.cases, p))
  {
    NextShape(db, s);
  }

  lemma {:induction false} StillOneOpenCase(before: seq<Case>, after: seq<Case>)
    requires OneOpenCase(before) && OpensFairly(before, after)
    ensures OneOpenCase(after)
  {
    forall i, j, p | 0 <= i < j < |after| && OpenFor(after[i], p) && OpenFor(after[j], p) ensures false {
      assert OpenFor(before[i], p) && before[i] in before;
    }
  }

  /** Each payment has at most one open case in every reachable state, without any help from
      a database index. */
  lemma {:induction false} OneOpenCasePerPayment(genesis: Db, steps: seq<Step>)
    requires genesis.cases == [] && genesis.audit == []
    ensures OneOpenCase(Run(genesis, steps).cases)
  {
    if steps != [] {
      var before := steps[..|steps| - 1];
      OneOpenCasePerPayment(genesis, before);
      RunKeepsAudited(genesis, before);
      var db, s := Run(genesis, before), steps[|steps| - 1];
      NextOpensFairly(db, s);
      StillOneOpenCase(db.cases, Next(db, s).cases);
    }
  }
}
