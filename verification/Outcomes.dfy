/** What a step makes of the case that it locks: where processing, verification, rejection and
    the orchestrator leave it, column by column, in terms of what the store held before. */
module Outcomes {
  import opened Domain
  import opened StateMachine
  import opened Store
  import opened Processor
  import opened Planning
  import opened Verification
  import opened Crediting
  import opened Execution
  import opened Engine
  import opened Ledger

  /** The step has written case i and the tool tables, and nothing else but audit rows. */
  ghost predicate Writes(t: Db, db': Db, i: nat) {
    && i < |t.cases| == |db'.cases|
    && db' == t.(cases := t.cases[i := db'.cases[i]], audit := db'.audit, tools := db'.tools)
  }

  lemma {:induction false} CommitWrites(t: Db, i: nat, w: Work)
    requires i < |t.cases| && w.id == i
    ensures Begin(Commit(t, i, w), i) == w.(log := [])
    ensures w.payments == t.payments && w.creditedFrom == t.creditedFrom ==> Writes(t, Commit(t, i, w), i)
    ensures w == Begin(t, i) ==> Commit(t, i, w) == t
  {
    assert t.cases[i := t.cases[i]] == t.cases;
    assert w.log == [] ==> t.audit + Tag(i, w.log) == t.audit;
  }

  lemma {:induction false} StepCommits(db: Db, s: Step)
    requires Locks(db, s.op) && Worked(Ticked(db, s), s.op, s.env).Done?
    ensures Next(db, s) == Commit(Ticked(db, s), CaseOf(s.op).value, Worked(Ticked(db, s), s.op, s.env).work)
  {
    CaseStepShape(Ticked(db, s), s.op, s.env);
    assert Next(db, s) == Stepped(Ticked(db, s), s.op, s.env);
  }

  /* ----- Processing ----- */

  /** Processing a case up to its policy check ends it where suspicion, the limits and the
      thresholds say; every other case stays as it is, and so does the whole store. */
  lemma {:induction false} ProcessingOutcome(db: Db, s: Step)
    requires Locks(db, s.op) && s.op.ProcessCase?
    ensures var i, t, db' := s.op.i, Ticked(db, s), Next(db, s);
            if Rank(db.cases[i].status) <= Rank(PolicyCheck) then
              Writes(t, db', i)
              && ProcessedTo(Begin(t, i), Begin(db', i), db.merchants[db.cases[i].merchant], s.env, t.clock)
            else db' == t
  {
    var i, t := s.op.i, Ticked(db, s);
    var u, settings := Begin(t, i), db.merchants[db.cases[i].merchant];
    var w := ProcessLocked(u, settings, s.env, t.clock);
    StepCommits(db, s);
    assert Next(db, s) == Commit(t, i, w);
    if Rank(u.row.status) <= Rank(PolicyCheck) {
      ProcessingEnds(u, settings, s.env, t.clock);
      ProcessedUnlogged(u, w, settings, s.env, t.clock);
    }
    CommitWrites(t, i, w);
  }

  lemma {:induction false} ProcessedUnlogged(u: Work, w: Work, settings: PolicySettings, env: Env, now: Micros)
    requires u.log == [] && ProcessedTo(u, w, settings, env, now)
    ensures ProcessedTo(u, w.(log := []), settings, env, now)
  {
  }

  /* ----- Verification ----- */

  /** Where a case stands when the verdict falls. */
  function StandsFor(u: Work, settings: PolicySettings, env: Env, now: Micros): CaseStatus {
    if ReachesVerifying(u, settings, env, now) then Verifying
    else if Rank(u.row.status) > Rank(PolicyCheck) then u.row.status
    else if Suspect(u.row, env) then Escalated
    else if PlanForbidden(u, PlannedFor(FailureOf(u.row, u.payments)), settings, env, now) then Stopped
    else AwaitingApproval
  }

  /** The closing time of a case that has come from one status to another. */
  function ClosedIn(c: Case, status: CaseStatus, now: Micros): Option<Micros> {
    if status == c.status then c.closedAt
    else if status.Recovered? || status.Stopped? then Some(now) else None
  }

  /** The columns that a verification may assign. */
  ghost predicate Verdict(c: Case, c': Case, status: CaseStatus, mismatch: Option<Mismatch>, now: Micros) {
    && c' == c.(status := c'.status, version := c'.version, closedAt := c'.closedAt, mismatch := c'.mismatch,
                amountRecovered := c'.amountRecovered, verifiedPayment := c'.verifiedPayment, verifiedEvent := c'.verifiedEvent)
    && c'.status == status && c'.closedAt == ClosedIn(c, status, now) && c'.mismatch == mismatch
  }

  predicate Unpaid(c: Case, c': Case) {
    c'.amountRecovered == c.amountRecovered && c'.verifiedPayment == c.verifiedPayment && c'.verifiedEvent == c.verifiedEvent
  }

  predicate PaidBy(c': Case, p: PaymentId, event: Option<EventKey>, amount: nat) {
    c'.amountRecovered == amount && c'.verifiedPayment == Some(p) && c'.verifiedEvent == event
  }

  /** The verdict on a payment that has not been counted. */
  ghost predicate JudgedOn(db: Db, u: Work, c': Case, p: PaymentId, event: Option<EventKey>,
                           settings: PolicySettings, env: Env, now: Micros)
    requires p in u.payments
  {
    var c, amount, stands := u.row, u.payments[p].amount, StandsFor(u, settings, env, now);
    var failed := if stands.Verifying? then NotRecovered else stands;
    if !Evidence(db, u, p) then
      && Unpaid(c, c')
      && exists k: nat :: FailsFirst(Checks(db, u, p), k) && Verdict(c, c', failed, Some(Checks(db, u, p)[k].reason), now)
    else if amount < c.amountAtRisk then
      PaidBy(c', p, event, amount) && Verdict(c, c', failed, Some(UnknownMismatch), now)
    else if stands.Verifying? then
      PaidBy(c', p, event, c.amountAtRisk) && Verdict(c, c', Recovered, None, now)
    else Unpaid(c, c') && Verdict(c, c', stands, c.mismatch, now)
  }

  /** What a verification makes of a case. */
  ghost predicate VerifiedTo(db: Db, u: Work, c': Case, payment: Option<PaymentId>, event: Option<EventKey>,
                             settings: PolicySettings, env: Env, now: Micros)
  {
    var c, target := u.row, Target(u, payment);
    if c.status.Stopped? then c' == c
    else if target.None? then c' == c.(mismatch := Some(PaymentMismatch))
    else if Counted(db, u, target.value, event) then
      c' == c.(mismatch := Some(if event.Some? && c.verifiedEvent == event then DuplicateEvent else AlreadyCounted))
    else if c.status.Recovered? then c' == c
    else JudgedOn(db, u, c', target.value, event, settings, env, now)
  }

  /** Driving the case leaves it where it stands for the verdict. */
  lemma {:induction false} DrivenStands(u: Work, settings: PolicySettings, env: Env, now: Micros)
    requires !u.row.status.Verifying? && !u.row.status.Recovered?
    ensures var v := EnsureVerifying(u, settings, env, now);
            v.row == u.row.(status := StandsFor(u, settings, env, now), version := v.row.version,
                            closedAt := ClosedIn(u.row, StandsFor(u, settings, env, now), now))
  {
    if Rank(u.row.status) <= Rank(PolicyCheck) {
      ProcessingEnds(u, settings, env, now);
      DrivenFromProcessed(u, ProcessLocked(u, settings, env, now), settings, env, now);
      assert EnsureVerifying(u, settings, env, now)
             == var w := ProcessLocked(u, settings, env, now);
                if w.row.status == ActionCompleted then w.Move(Verifying, now) else w;
    }
  }

  lemma {:induction false} DrivenFromProcessed(u: Work, w: Work, settings: PolicySettings, env: Env, now: Micros)
    requires Rank(u.row.status) <= Rank(PolicyCheck) && ProcessedTo(u, w, settings, env, now)
    ensures var v := if w.row.status == ActionCompleted then w.Move(Verifying, now) else w;
            v.row == u.row.(status := StandsFor(u, settings, env, now), version := v.row.version,
                            closedAt := ClosedIn(u.row, StandsFor(u, settings, env, now), now))
  {
  }

  lemma {:induction false} VerdictFalls(db: Db, u: Work, v: Work, p: PaymentId, event: Option<EventKey>,
                       settings: PolicySettings, env: Env, now: Micros)
    requires p in u.payments && v.payments == u.payments && !u.row.status.Verifying? && !u.row.status.Recovered?
    requires v.row == u.row.(status := StandsFor(u, settings, env, now), version := v.row.version,
                             closedAt := ClosedIn(u.row, StandsFor(u, settings, env, now), now))
    ensures JudgedOn(db, u, ApplyMatch(v, p, event, EvaluateMatch(db, u, p), now).row, p, event, settings, env, now)
  {
    MatchIffEvidence(db, u, p);
    if !Evidence(db, u, p) {
      SomeCheckFails(db, u, p);
      var k: nat :| FailsFirst(Checks(db, u, p), k);
      MismatchIsFirstFailure(db, u, p, k);
      MismatchFalls(db, u, v, p, event, k, settings, env, now);
    } else {
      MatchFalls(db, u, v, p, event, settings, env, now);
    }
  }

  lemma {:induction false} MismatchFalls(db: Db, u: Work, v: Work, p: PaymentId, event: Option<EventKey>, k: nat,
                       settings: PolicySettings, env: Env, now: Micros)
    requires p in u.payments && v.payments == u.payments && !u.row.status.Verifying? && !u.row.status.Recovered?
    requires v.row == u.row.(status := StandsFor(u, settings, env, now), version := v.row.version,
                             closedAt := ClosedIn(u.row, StandsFor(u, settings, env, now), now))
    requires !Evidence(db, u, p) && FailsFirst(Checks(db, u, p), k)
    ensures JudgedOn(db, u, ApplyMatch(v, p, event, Mismatched(Checks(db, u, p)[k].reason), now).row, p, event,
                     settings, env, now)
  {
    var stands, reason := StandsFor(u, settings, env, now), Checks(db, u, p)[k].reason;
    var c' := ApplyMatch(v, p, event, Mismatched(reason), now).row;
    assert Verdict(u.row, c', if stands.Verifying? then NotRecovered else stands, Some(reason), now);
    assert Unpaid(u.row, c');
  }

  lemma {:induction false} MatchFalls(db: Db, u: Work, v: Work, p: PaymentId, event: Option<EventKey>,
                       settings: PolicySettings, env: Env, now: Micros)
    requires p in u.payments && v.payments == u.payments && !u.row.status.Verifying? && !u.row.status.Recovered?
    requires v.row == u.row.(status := StandsFor(u, settings, env, now), version := v.row.version,
                             closedAt := ClosedIn(u.row, StandsFor(u, settings, env, now), now))
    requires Evidence(db, u, p)
    ensures JudgedOn(db, u, ApplyMatch(v, p, event, EvaluateMatch(db, u, p), now).row, p, event, settings, env, now)
  {
    MatchIffEvidence(db, u, p);
    var m, amount := EvaluateMatch(db, u, p), u.payments[p].amount;
    assert m == if amount < u.row.amountAtRisk then PartialCapture(amount) else FullCapture(u.row.amountAtRisk);
  }

  /** A payment that is no evidence lacks one requirement before all others. */
  lemma {:induction false} SomeCheckFails(db: Db, u: Work, p: PaymentId)
    requires p in u.payments && !Evidence(db, u, p)
    ensures exists k: nat :: FailsFirst(Checks(db, u, p), k)
  {
    var checks := Checks(db, u, p);
    if forall j | 0 <= j < |checks| :: checks[j].passes {
      assert checks[0].passes && checks[1].passes && checks[2].passes && checks[3].passes;
      assert checks[4].passes && checks[5].passes && checks[6].passes && checks[7].passes;
    } else {
      FirstOfThem(checks, |checks|);
    }
  }

  lemma {:induction false} FirstOfThem(checks: seq<Check>, n: nat)
    requires n <= |checks| && exists j | 0 <= j < n :: !checks[j].passes
    ensures exists k: nat :: FailsFirst(checks, k)
  {
    if j :| 0 <= j < n - 1 && !checks[j].passes {
      FirstOfThem(checks, n - 1);
    } else {
      assert FailsFirst(checks, n - 1);
    }
  }

  /** A verification, from every status in which a case rests between transactions: the case is
      left alone, or told why its payment is refused, or paid in part or in full. */
  lemma {:induction false} VerificationOutcome(db: Db, s: Step)
    requires Locks(db, s.op) && s.op.VerifyCase? && !db.cases[s.op.i].status.Verifying?
    ensures var i, t, db' := s.op.i, Ticked(db, s), Next(db, s);
            && |db'.cases| == |db.cases| && (forall j | 0 <= j < |db.cases| && j != i :: db'.cases[j] == db.cases[j])
            && db'.payments == db.payments && db'.webhooks == db.webhooks
            && VerifiedTo(t, Begin(t, i), db'.cases[i], s.op.payment, s.op.event, db.merchants[db.cases[i].merchant],
                          s.env, t.clock)
  {
    var i, t := s.op.i, Ticked(db, s);
    var u, settings := Begin(t, i), db.merchants[db.cases[i].merchant];
    StepCommits(db, s);
    VerificationEnds(t, u, s.op.payment, s.op.event, settings, s.env, t.clock);
    VerifyIsOn(t, u, s.op.payment, s.op.event, settings, s.env, t.clock);
    assert Next(db, s) == Commit(t, i, Verify(t, u, s.op.payment, s.op.event, settings, s.env, t.clock));
  }

  lemma {:induction false} VerifyIsOn(db: Db, u: Work, payment: Option<PaymentId>, event: Option<EventKey>,
                       settings: PolicySettings, env: Env, now: Micros)
    ensures Verify(db, u, payment, event, settings, env, now).payments == u.payments
  {
    var target := ResolvePayment(u, payment);
    if u.row.status != Stopped && target.Some? {
      KeepsPayments(u, settings, env, now);
      ApplyKeepsRest(EnsureVerifying(u, settings, env, now), target.value, event, EvaluateMatch(db, u, target.value), now);
    }
  }

  lemma {:induction false} VerificationEnds(db: Db, u: Work, payment: Option<PaymentId>, event: Option<EventKey>,
                       settings: PolicySettings, env: Env, now: Micros)
    requires !u.row.status.Verifying?
    ensures VerifiedTo(db, u, Verify(db, u, payment, event, settings, env, now).row, payment, event, settings, env, now)
  {
    var target := Target(u, payment);
    if target.Some? {
      var p := target.value;
      DuplicateIffCounted(db, u, p, event);
      if !u.row.status.Stopped? && !u.row.status.Recovered? && !Counted(db, u, p, event) {
        var v := EnsureVerifying(u, settings, env, now);
        KeepsPayments(u, settings, env, now);
        DrivenStands(u, settings, env, now);
        VerdictFalls(db, u, v, p, event, settings, env, now);
        assert Verify(db, u, payment, event, settings, env, now) == ApplyMatch(v, p, event, EvaluateMatch(db, u, p), now);
      }
    }
  }

  /** What the caller of a verification is told. */
  lemma {:induction false} ReportOutcome(db: Db, u: Work, payment: Option<PaymentId>, event: Option<EventKey>)
    ensures var report, c, target := Reported(db, u, payment, event), u.row, Target(u, payment);
            if c.status.Stopped? then report == MatchReport(false, c.amountRecovered, Some(UnknownMismatch))
            else if target.None? then report == MatchReport(false, 0, Some(PaymentMismatch))
            else if Counted(db, u, target.value, event) then
              report == MatchReport(false, c.amountRecovered,
                                    Some(if event.Some? && c.verifiedEvent == event then DuplicateEvent else AlreadyCounted))
            else if c.status.Recovered? then report == MatchReport(true, c.amountRecovered, None)
            else if !Evidence(db, u, target.value) then
              exists k: nat :: FailsFirst(Checks(db, u, target.value), k)
                               && report == MatchReport(false, 0, Some(Checks(db, u, target.value)[k].reason))
            else
              var amount := u.payments[target.value].amount;
              report == if amount < c.amountAtRisk then MatchReport(false, amount, None)
                        else MatchReport(true, c.amountAtRisk, None)
  {
    var target := Target(u, payment);
    if target.Some? {
      DuplicateIffCounted(db, u, target.value, event);
      MatchIffEvidence(db, u, target.value);
      if !Evidence(db, u, target.value) {
        SomeCheckFails(db, u, target.value);
        var k: nat :| FailsFirst(Checks(db, u, target.value), k);
        MismatchIsFirstFailure(db, u, target.value, k);
        assert EvaluateMatch(db, u, target.value) == Mismatched(Checks(db, u, target.value)[k].reason);
      }
    }
  }

  /* ----- Rejection ----- */

  /** Approval n is the last one that was asked for this row of this case. */
  ghost predicate IsLatest(approvals: seq<Approval>, i: nat, a: nat, n: nat) {
    && n < |approvals| && approvals[n].caseId == i && approvals[n].action == a
    && forall m | n < m < |approvals| :: !(approvals[m].caseId == i && approvals[m].action == a)
  }

  /** There is an approval to decide: of a row of the case's merchant, for this case. */
  ghost predicate Decides(db: Db, i: nat, a: nat, n: nat)
    requires i < |db.cases|
  {
    && a < |db.tools.actions| && db.tools.actions[a].keyId.merchant == db.cases[i].merchant
    && IsLatest(db.tools.approvals, i, a, n)
  }

  lemma {:induction false} LatestIsLast(approvals: seq<Approval>, i: nat, a: nat)
    ensures match LatestApproval(approvals, i, a)
            case Some(n) => IsLatest(approvals, i, a, n)
            case None => forall n: nat :: !IsLatest(approvals, i, a, n)
  {
    if approvals != [] {
      var n := |approvals| - 1;
      if !(approvals[n].caseId == i && approvals[n].action == a) {
        LatestIsLast(approvals[..n], i, a);
        assert forall m | 0 <= m < n :: approvals[..n][m] == approvals[m];
        assert forall m: nat :: IsLatest(approvals, i, a, m) ==> IsLatest(approvals[..n], i, a, m);
      }
    }
  }

  lemma {:induction false} FindsDecidable(db: Db, i: nat, a: nat)
    requires i < |db.cases|
    ensures match FindApproval(Begin(db, i), a)
            case Some(n) => Decides(db, i, a, n)
            case None => forall n: nat :: !Decides(db, i, a, n)
  {
    LatestIsLast(db.tools.approvals, i, a);
  }

  /** The key of a rejected row fails, and keeps what it has answered. */
  function KeyRejected(keys: map<KeyId, KeyRecord>, id: KeyId): map<KeyId, KeyRecord> {
    if id in keys then keys[id := KeyRecord(KeyFailed, keys[id].request, keys[id].result)] else keys
  }

  /** A human takes over a case that was waiting for the decision. */
  function HandedOver(c: Case): Case {
    if c.status.AwaitingApproval? then c.(status := Escalated, version := c.version + 1, closedAt := None) else c
  }

  /** The tool tables after a rejection of row a under approval n. */
  function ToolsRejected(t: Tools, a: nat, n: nat): Tools
    requires a < |t.actions| && n < |t.approvals|
  {
    t.(approvals := t.approvals[n := t.approvals[n].(status := Rejected)],
       actions := t.actions[a := t.actions[a].(status := ActionCancelled)],
       keys := KeyRejected(t.keys, t.actions[a].keyId))
  }

  lemma {:induction false} RejectEnds(u: Work, a: nat, now: Micros)
    ensures var found, w := FindApproval(u, a), Reject(u, a, now);
            if found.None? then w == u
            else w == u.(row := HandedOver(u.row), log := w.log, tools := ToolsRejected(u.tools, a, found.value))
  {
    var found := FindApproval(u, a);
    if found.Some? {
      var n, id := found.value, u.tools.actions[a].keyId;
      assert Rejecting(u, a, n).tools.keys == KeyRejected(u.tools.keys, id);
      assert Rejecting(u, a, n).tools == ToolsRejected(u.tools, a, n);
    }
  }

  /** What a rejection makes of the store. */
  ghost predicate RejectedTo(t: Db, db': Db, i: nat, a: nat)
    requires i < |t.cases|
  {
    && (forall n: nat | Decides(t, i, a, n) ::
          db' == t.(cases := t.cases[i := HandedOver(t.cases[i])], audit := db'.audit, tools := ToolsRejected(t.tools, a, n)))
    && ((forall n: nat :: !Decides(t, i, a, n)) ==> db' == t)
  }

  /** A rejection, whatever the approval's status: the latest approval of the row is rejected,
      the row cancelled, its key failed, and a waiting case escalated and left open; nothing
      else changes. Without an approval of the row nothing changes at all. */
  lemma {:induction false} RejectionOutcome(db: Db, s: Step)
    requires Locks(db, s.op) && s.op.RejectAction?
    ensures RejectedTo(Ticked(db, s), Next(db, s), s.op.i, s.op.action)
  {
    var i, a, t := s.op.i, s.op.action, Ticked(db, s);
    StepCommits(db, s);
    WorkOfRejection(t, s.op, s.env);
    RejectEnds(Begin(t, i), a, t.clock);
    RejectCommits(t, i, a, Reject(Begin(t, i), a, t.clock));
    RejectedAsFound(t, Next(db, s), i, a);
  }

  lemma {:induction false} RejectedAsFound(t: Db, db': Db, i: nat, a: nat)
    requires i < |t.cases|
    requires var found := FindApproval(Begin(t, i), a);
             if found.None? then db' == t
             else db' == t.(cases := t.cases[i := HandedOver(t.cases[i])], audit := db'.audit,
                            tools := ToolsRejected(t.tools, a, found.value))
    ensures RejectedTo(t, db', i, a)
  {
    FindsDecidable(t, i, a);
    var found := FindApproval(Begin(t, i), a);
    forall n: nat | Decides(t, i, a, n) ensures found == Some(n) {
      if found.Some? {
        assert IsLatest(t.tools.approvals, i, a, found.value);
      }
    }
  }

  lemma {:induction false} WorkOfRejection(db: Db, op: Op, env: Env)
    requires Locks(db, op) && op.RejectAction?
    ensures Worked(db, op, env) == Done(Reject(Begin(db, op.i), op.action, db.clock), Unanswered)
  {
  }

  lemma {:induction false} RejectCommits(t: Db, i: nat, a: nat, w: Work)
    requires i < |t.cases|
    requires var u, found := Begin(t, i), FindApproval(Begin(t, i), a);
             if found.None? then w == u
             else w == u.(row := HandedOver(u.row), log := w.log, tools := ToolsRejected(u.tools, a, found.value))
    ensures var found, db' := FindApproval(Begin(t, i), a), Commit(t, i, w);
            if found.None? then db' == t
            else db' == t.(cases := t.cases[i := HandedOver(t.cases[i])], audit := db'.audit,
                           tools := ToolsRejected(t.tools, a, found.value))
  {
    CommitWrites(t, i, w);
  }

  /* ----- The orchestrator's moves ----- */

  /** Failing closed hands a case at its policy check to a human, and leaves any other alone. */
  lemma {:induction false} FailClosedOutcome(db: Db, s: Step)
    requires Locks(db, s.op) && s.op.FailClosed?
    ensures var i, t, c, db' := s.op.i, Ticked(db, s), db.cases[s.op.i], Next(db, s);
            if c.status.PolicyCheck? then
              db' == t.(cases := db.cases[i := c.(status := Escalated, version := c.version + 1, closedAt := None)],
                        audit := db'.audit)
            else db' == t
  {
    var i, t := s.op.i, Ticked(db, s);
    StepCommits(db, s);
    WorkOfMoves(t, s.op, s.env);
    CloseCommits(t, i, ClosedOff(Begin(t, i), t.clock));
  }

  lemma {:induction false} WorkOfMoves(db: Db, op: Op, env: Env)
    requires Locks(db, op)
    ensures op.FailClosed? ==> Worked(db, op, env) == Done(ClosedOff(Begin(db, op.i), db.clock), Unanswered)
    ensures op.PreparePolicyCheck? ==> Worked(db, op, env) == Done(Walk(Begin(db, op.i), db.clock), Unanswered)
    ensures op.Advance? ==> Worked(db, op, env) == Done(Advanced(Begin(db, op.i), op.stages, db.clock), Unanswered)
  {
  }

  lemma {:induction false} CloseCommits(t: Db, i: nat, w: Work)
    requires i < |t.cases| && w == ClosedOff(Begin(t, i), t.clock)
    ensures var c, db' := t.cases[i], Commit(t, i, w);
            if c.status.PolicyCheck? then
              db' == t.(cases := t.cases[i := c.(status := Escalated, version := c.version + 1, closedAt := None)],
                        audit := db'.audit)
            else db' == t
  {
    CommitWrites(t, i, w);
  }

  /** The stages before the policy check, and it, by rank. */
  function Reached(rank: nat): CaseStatus
    requires rank <= 6
  {
    match rank
    case 0 => Detected
    case 1 => Triaged
    case 2 => Investigating
    case 3 => Diagnosed
    case 4 => Scoring
    case 5 => StrategySelected
    case _ => PolicyCheck
  }

  predicate AtOrPastCheck(s: CaseStatus) {
    s.PolicyCheck? || s.AwaitingApproval? || s.Executing? || s.ActionCompleted?
  }

  predicate BeforeCheck(s: CaseStatus) {
    s.Detected? || s.Triaged? || s.Investigating? || s.Diagnosed? || s.Scoring? || s.StrategySelected?
  }

  /** The case has climbed to a rank, one version a stage, and is open. */
  function Climbed(c: Case, rank: nat): Case
    requires Rank(c.status) <= rank <= 6
  {
    if rank == Rank(c.status) then c
    else c.(status := Reached(rank), version := c.version + (rank - Rank(c.status)), closedAt := None)
  }

  /** Preparing the policy check takes an earlier case there, leaves one there or beyond alone,
      and audits a refusal for any other, which it cannot tell from an early one. */
  lemma {:induction false} PreparationOutcome(db: Db, s: Step)
    requires Locks(db, s.op) && s.op.PreparePolicyCheck?
    ensures var i, t, c, db' := s.op.i, Ticked(db, s), db.cases[s.op.i], Next(db, s);
            if BeforeCheck(c.status) then db' == t.(cases := db.cases[i := Climbed(c, 6)], audit := db'.audit)
            else if AtOrPastCheck(c.status) then db' == t
            else db' == t.(audit := db.audit + [AuditRow(Some(i), MoveRejected(c.status, Triaged))])
  {
    var i, t := s.op.i, Ticked(db, s);
    StepCommits(db, s);
    WorkOfMoves(t, s.op, s.env);
    WalkEnds(Begin(t, i), t.clock);
    MoveCommits(t, i, Walk(Begin(t, i), t.clock), if BeforeCheck(t.cases[i].status) then Climbed(t.cases[i], 6) else t.cases[i]);
  }

  lemma {:induction false} WalkEnds(u: Work, now: Micros)
    ensures var c, w := u.row, Walk(u, now);
            if BeforeCheck(c.status) then w == u.(row := Climbed(c, 6), log := w.log)
            else if AtOrPastCheck(c.status) then w == u
            else w == u.(log := u.log + [MoveRejected(c.status, Triaged)])
  {
    if BeforeCheck(u.row.status) {
      WalkedClimbs(u, now);
    }
  }

  lemma {:induction false} WalkedClimbs(u: Work, now: Micros)
    requires Rank(u.row.status) <= 6
    ensures var w := Walked(u, now); w == u.(row := Climbed(u.row, 6), log := w.log)
    decreases 6 - Rank(u.row.status)
  {
    if Rank(u.row.status) < 6 {
      WalkedClimbs(u.Move(NextStage(u.row.status), now), now);
    }
  }

  /** Any number of advances takes an early case that many stages on, or leaves it if it has
      come so far; one that is closed, or at its policy check or beyond, stays; for any other
      the first advance is refused and audited. */
  lemma {:induction false} AdvanceOutcome(db: Db, s: Step)
    requires Locks(db, s.op) && s.op.Advance?
    ensures var i, n, t, c, db' := s.op.i, s.op.stages, Ticked(db, s), db.cases[s.op.i], Next(db, s);
            if BeforeCheck(c.status) then
              db' == t.(cases := db.cases[i := Climbed(c, FarthestOf(Rank(c.status), n))], audit := db'.audit)
            else if AtOrPastCheck(c.status) || c.status.Recovered? || c.status.Stopped? || n == 0 then db' == t
            else db' == t.(audit := db.audit + [AuditRow(Some(i), MoveRejected(c.status, Triaged))])
  {
    var i, t := s.op.i, Ticked(db, s);
    StepCommits(db, s);
    WorkOfMoves(t, s.op, s.env);
    AdvanceEnds(Begin(t, i), s.op.stages, t.clock);
    MoveCommits(t, i, Advanced(Begin(t, i), s.op.stages, t.clock),
                if BeforeCheck(t.cases[i].status) then Climbed(t.cases[i], FarthestOf(Rank(t.cases[i].status), s.op.stages))
                else t.cases[i]);
  }

  function FarthestOf(rank: nat, stages: nat): nat {
    if stages <= rank then rank else if stages < 6 then stages else 6
  }

  lemma {:induction false} AdvanceEnds(u: Work, n: nat, now: Micros)
    ensures var c, w := u.row, Advanced(u, n, now);
            if BeforeCheck(c.status) then w == u.(row := Climbed(c, FarthestOf(Rank(c.status), n)), log := w.log)
            else if AtOrPastCheck(c.status) || c.status.Recovered? || c.status.Stopped? || n == 0 then w == u
            else w == u.(log := u.log + [MoveRejected(c.status, Triaged)])
  {
    if BeforeCheck(u.row.status) {
      AdvanceClimbs(u, 0, n, now);
    } else if AtOrPastCheck(u.row.status) {
      AdvanceStays(u, 0, n, now);
    }
  }

  lemma {:induction false} AdvanceStays(u: Work, k: nat, n: nat, now: Micros)
    requires AtOrPastCheck(u.row.status)
    ensures AdvancedFrom(u, k, n, now) == u
    decreases STAGE_COUNT - k
  {
    if k < n && k < STAGE_COUNT {
      AdvanceStays(u, k + 1, n, now);
    }
  }

  lemma {:induction false} AdvanceClimbs(u: Work, k: nat, n: nat, now: Micros)
    requires k <= Rank(u.row.status) <= 6
    ensures var w := AdvancedFrom(u, k, n, now);
            w == u.(row := Climbed(u.row, FarthestOf(Rank(u.row.status), n)), log := w.log)
    decreases STAGE_COUNT - k
  {
    if k < n && k < STAGE_COUNT {
      if StaysPut(u.row.status, Stage(k)) {
        AdvanceClimbs(u, k + 1, n, now);
      } else {
        var v := u.Move(Stage(k), now);
        AdvanceClimbs(v, k + 1, n, now);
        OneStageClimbs(u, v, AdvancedFrom(v, k + 1, n, now), k, n, now);
      }
    }
  }

  lemma {:induction false} OneStageClimbs(u: Work, v: Work, w: Work, k: nat, n: nat, now: Micros)
    requires k == Rank(u.row.status) < 6 && k < n && Legal(u.row.status, Stage(k)) && v == u.Move(Stage(k), now)
    requires w == v.(row := Climbed(v.row, FarthestOf(Rank(v.row.status), n)), log := w.log)
    ensures w == u.(row := Climbed(u.row, FarthestOf(Rank(u.row.status), n)), log := w.log)
  {
  }

  lemma {:induction false} MoveCommits(t: Db, i: nat, w: Work, row: Case)
    requires i < |t.cases|
    requires w == Begin(t, i).(row := row, log := w.log)
    ensures Commit(t, i, w) == t.(cases := t.cases[i := row], audit := t.audit + Tag(i, w.log))
    ensures row == t.cases[i] && w.log == [] ==> Commit(t, i, w) == t
    ensures row == t.cases[i] && |w.log| == 1 ==> Commit(t, i, w) == t.(audit := t.audit + [AuditRow(Some(i), w.log[0])])
  {
    CommitWrites(t, i, w);
    assert |w.log| == 1 ==> Tag(i, w.log) == [AuditRow(Some(i), w.log[0])];
    assert t.cases[i := t.cases[i]] == t.cases;
  }
}
