/** What every service keeps of the one case it locks: legal rising transitions, a
    faithful audit log, a settled status, and the credit rule. */
module Lifecycle {
  import opened Domain
  import opened StateMachine
  import opened Store
  import opened Replay
  import opened Policy
  import opened Processor
  import opened Verification
  import opened Execution
  import opened Engine

  /** What holds of a case between transactions. */
  ghost predicate Sound(c: Case) {
    && c.status != Executing && c.status != Verifying
    && (c.closedAt.Some? <==> Terminal(c.status))
    && CreditRule(c)
  }

  /** The credit never exceeds the amount at risk, and reaches it exactly in RECOVERED. */
  ghost predicate CreditRule(c: Case) {
    && c.amountRecovered <= c.amountAtRisk
    && (c.amountAtRisk > 0 ==> (c.status == Recovered <==> c.amountRecovered == c.amountAtRisk))
    && (c.amountRecovered > 0 ==> c.verifiedPayment.Some?)
    && (c.verifiedPayment.Some? ==> c.verifiedPayment.value.merchant == c.merchant)
  }

  predicate SameIdentity(a: Case, b: Case) {
    && a.merchant == b.merchant && a.customer == b.customer && a.payment == b.payment
    && a.amountAtRisk == b.amountAtRisk && a.currency == b.currency && a.openedAt == b.openedAt
  }

  /** What verification alone may change. */
  predicate SameMoney(a: Case, b: Case) {
    a.amountRecovered == b.amountRecovered && a.verifiedPayment == b.verifiedPayment && a.verifiedEvent == b.verifiedEvent
  }

  predicate SameLedger(a: Case, b: Case) {
    LifeOf(a) == LifeOf(b) && SameMoney(a, b)
  }

  /** The audit rows of the unit of work lead from `start` to the row as it is now. */
  ghost predicate Follows(start: Case, u: Work) {
    SameIdentity(start, u.row) && Replayed(Some(LifeOf(start)), u.log) == Some(LifeOf(u.row))
  }

  /** Besides, no transition was attempted that the state machine forbids. */
  ghost predicate Tracks(start: Case, u: Work) {
    Follows(start, u) && NoRefusal(u.log)
  }

  ghost predicate NoRefusal(log: seq<AuditEntry>) {
    forall e <- log :: !e.MoveRejected?
  }

  lemma {:induction false} OneRowFollows(start: Case, u: Work, w: Work, e: AuditEntry)
    requires Follows(start, u) && w.log == u.log + [e] && SameIdentity(u.row, w.row)
    requires After(Some(LifeOf(u.row)), e) == Some(LifeOf(w.row))
    ensures Follows(start, w)
    ensures Tracks(start, u) && !e.MoveRejected? ==> Tracks(start, w)
  {
    ReplayOneMore(Some(LifeOf(start)), u.log, e);
  }

  lemma {:induction false} MoveTracks(start: Case, u: Work, to: CaseStatus, now: Micros)
    requires Tracks(start, u) && Raises(u.row.status, to)
    ensures Tracks(start, u.Move(to, now))
  {
    OneRowFollows(start, u, u.Move(to, now), Moved(u.row.status, to, u.row.version + 1, now));
  }

  lemma {:induction false} RefuseFollows(start: Case, u: Work, to: CaseStatus)
    requires Follows(start, u)
    ensures Follows(start, u.Refuse(to))
  {
    OneRowFollows(start, u, u.Refuse(to), MoveRejected(u.row.status, to));
  }

  lemma {:induction false} CreditTracks(start: Case, u: Work, p: PaymentId, event: Option<EventKey>, amount: nat,
          m: Option<Mismatch>)
    requires Tracks(start, u) && p in u.payments
    ensures Tracks(start, u.Credit(p, event, amount, m))
  {
    if u.row.amountRecovered != amount {
      OneRowFollows(start, u, u.Credit(p, event, amount, m), AmountUpdated(u.row.amountRecovered, amount));
    }
  }

  /** The same case and audit rows, whatever happened to the other tables. */
  predicate SameCase(u: Work, w: Work) {
    w.id == u.id && w.row == u.row && w.log == u.log
  }

  lemma {:induction false} SameCaseTracks(start: Case, u: Work, w: Work)
    requires Tracks(start, u) && SameCase(u, w)
    ensures Tracks(start, w)
  {
  }

  /* ----- Processing ----- */

  lemma {:induction false} WalkedTracks(start: Case, u: Work, now: Micros)
    requires Tracks(start, u)
    ensures Tracks(start, Walked(u, now))
    decreases Rank(PolicyCheck) - Rank(u.row.status)
  {
    if Rank(u.row.status) < Rank(PolicyCheck) {
      MoveTracks(start, u, NextStage(u.row.status), now);
      WalkedTracks(start, u.Move(NextStage(u.row.status), now), now);
    }
  }

  lemma {:induction false} SteeredTracks(start: Case, u: Work, d: Decision, now: Micros)
    requires Tracks(start, u) && u.row.status == PolicyCheck
    ensures Tracks(start, Steered(u, d, now))
  {
    match d
    case Deny(escalate) => MoveTracks(start, u, if escalate then Escalated else Stopped, now);
    case Ask => MoveTracks(start, u, AwaitingApproval, now);
    case Go => CompletedTracks(start, u, now);
  }

  lemma {:induction false} CompletedTracks(start: Case, u: Work, now: Micros)
    requires Tracks(start, u) && u.row.status == PolicyCheck
    ensures Tracks(start, u.Move(Executing, now).Move(ActionCompleted, now))
  {
    MoveTracks(start, u, Executing, now);
    MoveTracks(start, u.Move(Executing, now), ActionCompleted, now);
  }

  /** Where a processed case ends, and that nothing but its lifecycle changed. */
  ghost predicate ProcessedFrom(u: Work, w: Work) {
    && w.id == u.id && w.payments == u.payments && w.creditedFrom == u.creditedFrom
    && w.row == u.row.(status := w.row.status, version := w.row.version, closedAt := w.row.closedAt)
    && (w.row.status == u.row.status ==> w.row == u.row && w.log == u.log)
    && (w.row.status != u.row.status ==>
          && !SettledForProcessing(u.row.status)
          && (w.row.status.Escalated? || w.row.status.Stopped? || w.row.status.AwaitingApproval?
              || w.row.status.ActionCompleted?)
          && (w.row.closedAt.Some? <==> Terminal(w.row.status)))
    && (w.row.status == u.row.status ==> SettledForProcessing(u.row.status) || u.row.status == Executing)
  }

  lemma {:induction false} ProcessDecidedTracks(start: Case, u: Work, d: Decision, ttl: int, now: Micros)
    requires Tracks(start, u) && u.row.status == PolicyCheck
    ensures var w := ProcessDecided(u, d, ttl, now);
            && Tracks(start, w)
            && w.id == u.id && w.payments == u.payments && w.creditedFrom == u.creditedFrom
            && w.row == u.row.(status := StatusAfter(d), version := w.row.version, closedAt := w.row.closedAt)
            && (w.row.closedAt.Some? <==> Terminal(w.row.status))
  {
    var kind := ChosenAction(u.row, u.payments);
    RecordedKeepsCase(u, kind, d, ttl, now);
    SameCaseTracks(start, u, Recorded(u, kind, d, ttl, now));
    SteeredTracks(start, Recorded(u, kind, d, ttl, now), d, now);
    ProcessDecidedKeeps(u, d, ttl, now);
  }

  lemma {:induction false} DecidedIsProcessed(u: Work, v: Work, w: Work, d: Decision)
    requires !SettledForProcessing(u.row.status) && v.row.status == PolicyCheck
    requires v.id == u.id && v.payments == u.payments && v.creditedFrom == u.creditedFrom
    requires w.id == v.id && w.payments == v.payments && w.creditedFrom == v.creditedFrom
    requires v.row == u.row.(status := v.row.status, version := v.row.version, closedAt := v.row.closedAt)
    requires w.row == v.row.(status := StatusAfter(d), version := w.row.version, closedAt := w.row.closedAt)
    requires w.row.closedAt.Some? <==> Terminal(w.row.status)
    ensures ProcessedFrom(u, w)
  {
  }

  lemma {:induction false} ProcessTracks(start: Case, u: Work, settings: PolicySettings, env: Env, now: Micros)
    requires Tracks(start, u)
    ensures var w := ProcessLocked(u, settings, env, now);
            Tracks(start, w) && ProcessedFrom(u, w)
  {
    if !SettledForProcessing(u.row.status) {
      WalkKeeps(u, now);
      WalkedTracks(start, u, now);
      var v := Walked(u, now);
      if v.row.status == PolicyCheck {
        var d := ProcessDecision(v, settings, env, now);
        ProcessDecidedTracks(start, v, d, settings.approvalTtl, now);
        DecidedIsProcessed(u, v, ProcessDecided(v, d, settings.approvalTtl, now), d);
        assert ProcessLocked(u, settings, env, now) == ProcessDecided(v, d, settings.approvalTtl, now);
      } else {
        assert Rank(u.row.status) >= Rank(PolicyCheck) && u.row.status != PolicyCheck;
      }
    }
  }

  /* ----- Verification ----- */

  /** Where a driven case ends, and that nothing but its lifecycle changed. */
  ghost predicate DrivenFrom(u: Work, w: Work) {
    && w.id == u.id && w.payments == u.payments && w.creditedFrom == u.creditedFrom
    && w.row == u.row.(status := w.row.status, version := w.row.version, closedAt := w.row.closedAt)
    && (w.row.status == u.row.status ==>
          && w.row == u.row && w.log == u.log
          && Rank(u.row.status) > Rank(PolicyCheck) && u.row.status != ActionCompleted)
    && (w.row.status != u.row.status ==>
          && (w.row.status.Escalated? || w.row.status.Stopped? || w.row.status.AwaitingApproval? || w.row.status.Verifying?)
          && (w.row.closedAt.Some? <==> Terminal(w.row.status)))
  }

  lemma {:induction false} EnsureVerifyingTracks(start: Case, u: Work, settings: PolicySettings, env: Env, now: Micros)
    requires Tracks(start, u)
    ensures var w := EnsureVerifying(u, settings, env, now);
            Tracks(start, w) && DrivenFrom(u, w)
  {
    if u.row.status != Verifying && u.row.status != Recovered {
      var w := if u.row.status == ActionCompleted then u else ProcessLocked(u, settings, env, now);
      ProcessTracks(start, u, settings, env, now);
      LastStepTracks(start, u, w, now);
      assert EnsureVerifying(u, settings, env, now) == if w.row.status == ActionCompleted then w.Move(Verifying, now) else w;
    }
  }

  lemma {:induction false} LastStepTracks(start: Case, u: Work, w: Work, now: Micros)
    requires Tracks(start, w) && u.row.status != Verifying && u.row.status != Recovered
    requires if u.row.status == ActionCompleted then w == u else ProcessedFrom(u, w)
    ensures var x := if w.row.status == ActionCompleted then w.Move(Verifying, now) else w;
            Tracks(start, x) && DrivenFrom(u, x)
  {
    if w.row.status == ActionCompleted {
      MoveTracks(start, w, Verifying, now);
    }
  }

  lemma {:induction false} ApplyTracks(start: Case, u: Work, p: PaymentId, event: Option<EventKey>, m: Match, now: Micros)
    requires Tracks(start, u) && p in u.payments
    ensures Tracks(start, ApplyMatch(u, p, event, m, now))
  {
    match m
    case Mismatched(reason) => SettleTracks(start, u.Note(Some(reason)), NotRecovered, now);
    case PartialCapture(captured) =>
      CreditTracks(start, u, p, event, captured, Some(UnknownMismatch));
      SettleTracks(start, u.Credit(p, event, captured, Some(UnknownMismatch)), NotRecovered, now);
    case FullCapture(credited) =>
      CreditTracks(start, u, p, event, credited, None);
      SettleTracks(start, u.Credit(p, event, credited, None), Recovered, now);
  }

  lemma {:induction false} SettleTracks(start: Case, u: Work, verdict: CaseStatus, now: Micros)
    requires Tracks(start, u) && (verdict == Recovered || verdict == NotRecovered)
    ensures Tracks(start, Settle(u, verdict, now))
  {
    if u.row.status == Verifying {
      MoveTracks(start, u, verdict, now);
    }
  }

  /** A verification keeps the case sound, and a terminal case as it is. */
  lemma {:induction false} VerifyKeeps(db: Db, u: Work, payment: Option<PaymentId>, event: Option<EventKey>,
                    settings: PolicySettings, env: Env, now: Micros)
    requires Tracks(u.row, u)
    ensures var w := Verify(db, u, payment, event, settings, env, now);
            && w.id == u.id && Tracks(u.row, w) && w.payments == u.payments
            && (Sound(u.row) ==> Sound(w.row))
            && (Terminal(u.row.status) ==> SameLedger(u.row, w.row) && w.log == u.log)
  {
    var target := ResolvePayment(u, payment);
    if u.row.status != Stopped {
      if target.None? {
        SettleTracks(u.row, u.Note(Some(PaymentMismatch)), NotRecovered, now);
      } else {
        PaymentKeeps(db, u, target.value, event, settings, env, now);
        assert Verify(db, u, payment, event, settings, env, now) == VerifyPayment(db, u, target.value, event, settings, env, now);
      }
    }
  }

  lemma {:induction false} PaymentKeeps(db: Db, u: Work, p: PaymentId, event: Option<EventKey>,
                     settings: PolicySettings, env: Env, now: Micros)
    requires Tracks(u.row, u) && p in u.payments && u.row.status != Stopped
    ensures var w := VerifyPayment(db, u, p, event, settings, env, now);
            && w.id == u.id && Tracks(u.row, w) && w.payments == u.payments
            && (Sound(u.row) ==> Sound(w.row))
            && (Terminal(u.row.status) ==> SameLedger(u.row, w.row) && w.log == u.log)
  {
    if Duplicate(db, u, p, event).None? && u.row.status != Recovered {
      MatchKeeps(db, u, p, event, settings, env, now);
    }
  }

  lemma {:induction false} MatchKeeps(db: Db, u: Work, p: PaymentId, event: Option<EventKey>,
                   settings: PolicySettings, env: Env, now: Micros)
    requires Tracks(u.row, u) && p in u.payments && !Terminal(u.row.status)
    ensures var v := EnsureVerifying(u, settings, env, now);
            && v.payments == u.payments
            && var w := ApplyMatch(v, p, event, EvaluateMatch(db, u, p), now);
               w.id == u.id && Tracks(u.row, w) && w.payments == u.payments && (Sound(u.row) ==> Sound(w.row))
  {
    EnsureVerifyingTracks(u.row, u, settings, env, now);
    var v := EnsureVerifying(u, settings, env, now);
    ApplyTracks(u.row, v, p, event, EvaluateMatch(db, u, p), now);
    if Sound(u.row) {
      ApplySound(db, u, v, p, event, now);
    }
  }

  lemma {:induction false} ApplySound(db: Db, u: Work, v: Work, p: PaymentId, event: Option<EventKey>, now: Micros)
    requires p in u.payments && v.payments == u.payments
    requires Sound(u.row) && !Terminal(u.row.status)
    requires v.row == u.row.(status := v.row.status, version := v.row.version, closedAt := v.row.closedAt)
    requires v.row.status != Recovered && v.row.status != Executing && (v.row.closedAt.Some? <==> Terminal(v.row.status))
    ensures Sound(ApplyMatch(v, p, event, EvaluateMatch(db, u, p), now).row)
  {
  }

  /* ----- Execution and approvals ----- */

  /** A service other than verification: only the lifecycle of the case may change, and
      never that of a terminal case. */
  ghost predicate Steers(u: Work, w: Work) {
    && w.id == u.id && w.creditedFrom == u.creditedFrom
    && w.row == u.row.(status := w.row.status, version := w.row.version, closedAt := w.row.closedAt)
    && (w.row.status == u.row.status ==> w.row == u.row)
    && (w.row.status != u.row.status ==>
          && !Terminal(u.row.status)
          && !(w.row.status.Recovered? || w.row.status.Verifying? || w.row.status.Executing?)
          && (w.row.closedAt.Some? <==> Terminal(w.row.status)))
  }

  lemma {:induction false} SteeringIsSound(u: Work, w: Work)
    requires Steers(u, w) && Sound(u.row)
    ensures Sound(w.row)
    ensures Terminal(u.row.status) ==> w.row == u.row
  {
  }

  lemma {:induction false} UpsertKeepsCase(u: Work, kind: ActionKind, key: KeyId, existing: Option<nat>,
                        status: ActionStatus, request: Option<Request>, now: Micros)
    ensures var w := Upsert(u, kind, key, existing, status, request, now);
            SameCase(u, w) && w == u.(tools := w.tools) && w.tools == u.tools.(actions := w.tools.actions)
  {
  }

  /** apply_case_outcome moves a case that is not terminal to the target, or not at all. */
  ghost predicate Reaches(u: Work, w: Work, target: CaseStatus) {
    && w == u.(row := w.row, log := w.log)
    && w.row == u.row.(status := w.row.status, version := w.row.version, closedAt := w.row.closedAt)
    && (w.row.status == u.row.status ==> w.row == u.row && w.log == u.log)
    && (w.row.status != u.row.status ==>
          !Terminal(u.row.status) && w.row.status == target && (w.row.closedAt.Some? <==> Terminal(target)))
  }

  lemma {:induction false} OutcomeTracks(start: Case, u: Work, target: CaseStatus, now: Micros)
    requires Tracks(start, u) && OutcomeTarget(target)
    ensures var w := ApplyOutcome(u, target, now);
            && Tracks(start, w) && Reaches(u, w, target)
            && (target == ActionCompleted ==> w.row.status != Executing)
  {
    OutcomeReaches(u, target, now);
    if target == ActionCompleted {
      CompletionTracks(start, u, now);
    } else if ApplyOutcome(u, target, now) != u {
      MoveTracks(start, u, target, now);
    }
  }

  lemma {:induction false} OutcomeReaches(u: Work, target: CaseStatus, now: Micros)
    requires OutcomeTarget(target)
    ensures Reaches(u, ApplyOutcome(u, target, now), target)
    ensures target == ActionCompleted ==> ApplyOutcome(u, target, now).row.status != Executing
  {
  }

  lemma {:induction false} CompletionTracks(start: Case, u: Work, now: Micros)
    requires Tracks(start, u)
    ensures Tracks(start, ApplyOutcome(u, ActionCompleted, now))
  {
    if u.row.status == PolicyCheck || u.row.status == AwaitingApproval {
      MoveTracks(start, u, Executing, now);
      MoveTracks(start, u.Move(Executing, now), ActionCompleted, now);
    } else if u.row.status == Executing {
      MoveTracks(start, u, ActionCompleted, now);
    }
  }

  /** A run has started: a case at its policy check or awaiting approval is executing. */
  ghost predicate StartedFrom(u: Work, v: Work, quiet: bool) {
    && v.id == u.id && v.creditedFrom == u.creditedFrom
    && v.row == u.row.(status := v.row.status, version := v.row.version, closedAt := v.row.closedAt)
    && (v.row.status == u.row.status ==> v.row == u.row)
    && (v.row.status != u.row.status ==>
          && (u.row.status.PolicyCheck? || u.row.status.AwaitingApproval?)
          && !quiet && v.row.status == Executing && v.row.closedAt.None?)
  }

  lemma {:induction false} StartedTracks(start: Case, u: Work, r: Request, key: KeyId, existing: Option<nat>, now: Micros)
    requires Tracks(start, u)
    ensures var w := Started(u, r, key, existing, now);
            && Tracks(start, w) && StartedFrom(u, w, Quietly(r.tool))
            && w.payments == u.payments && w.tools == u.tools.(actions := w.tools.actions)
  {
    var w := Upsert(u, r.tool, key, existing, Running, Some(r), now);
    UpsertKeepsCase(u, r.tool, key, existing, Running, Some(r), now);
    SameCaseTracks(start, u, w);
    if !Quietly(r.tool) && (w.row.status.PolicyCheck? || w.row.status.AwaitingApproval?) {
      MoveTracks(start, w, Executing, now);
    }
  }

  lemma {:induction false} AfterRunKeeps(start: Case, v: Work, w: Work, h: Handled, now: Micros)
    requires Tracks(start, v) && SameCase(v, w)
    requires h.Handled? && (h.ok ==> h.target.Some? && OutcomeTarget(h.target.value))
    ensures var x := AfterRun(w, h, now);
            && Tracks(start, x) && x == w.(row := x.row, log := x.log)
            && x.row == w.row.(status := x.row.status, version := x.row.version, closedAt := x.row.closedAt)
            && (w.row.status == Executing && (h.ok ==> h.target.value == ActionCompleted) ==> x.row.status != Executing)
            && (x.row.status == w.row.status ==> x.row == w.row)
            && (x.row.status != w.row.status ==>
                  && !Terminal(w.row.status)
                  && (x.row.status.ActionCompleted? || x.row.status.ExecutionFailed? || x.row.status.RetryScheduled?
                      || x.row.status.Escalated? || x.row.status.Stopped?)
                  && (x.row.closedAt.Some? <==> Terminal(x.row.status)))
  {
    SameCaseTracks(start, v, w);
    if h.ok {
      OutcomeTracks(start, w, h.target.value, now);
    } else if w.row.status == Executing {
      MoveTracks(start, w, ExecutionFailed, now);
    }
  }

  lemma {:induction false} FinishRunKeeps(u: Work, v: Work, h: Handled, a: nat, quiet: bool, grant: Option<Grant>,
          now: Micros)
    requires Tracks(u.row, v) && StartedFrom(u, v, quiet)
    requires HandledFrom(v, h, quiet) && a < |v.tools.actions|
    ensures var ran := FinishRun(v, h, a, quiet, grant, now);
            Tracks(u.row, ran.work) && Steers(u, ran.work)
  {
    AfterRunKeeps(u.row, v, Complete(h.work, a, h), h, now);
  }

  lemma {:induction false} PerformKeeps(customers: map<CustomerId, MerchantId>, u: Work, r: Request, key: KeyId,
          grant: Option<Grant>,
                     env: Env, now: Micros)
    requires Tracks(u.row, u) && ValidInput(r) && Executable(u.row.status)
    ensures var ran := Perform(customers, u, r, key, grant, env, now);
            ran.Lost? || (ran.Finished? && Tracks(u.row, ran.work) && Steers(u, ran.work))
  {
    var existing := Reentered(grant);
    var v := Started(u, r, key, existing, now);
    StartedTracks(u.row, u, r, key, existing, now);
    HandlerKeeps(customers, v, r, env, now);
    var h := RunHandler(customers, v, r, env, now);
    if h.Handled? {
      var a := UpsertAt(u, key, existing);
      FinishRunKeeps(u, v, h, a, Quietly(r.tool), grant, now);
      assert Perform(customers, u, r, key, grant, env, now) == FinishRun(v, h, a, Quietly(r.tool), grant, now);
    }
  }

  lemma {:induction false} AskKeeps(u: Work, r: Request, key: KeyId, ttl: int, now: Micros)
    requires Tracks(u.row, u)
    ensures var ran := AskForApproval(u, r, key, ttl, now);
            Tracks(u.row, ran.work) && Steers(u, ran.work)
  {
    var a := UpsertAt(u, key, None);
    var v := Upsert(u, r.tool, key, None, ApprovalRequired, Some(r), now);
    UpsertKeepsCase(u, r.tool, key, None, ApprovalRequired, Some(r), now);
    var w := AskApproval(v, a, ttl, now);
    SameCaseTracks(u.row, u, w);
    if w.row.status == PolicyCheck {
      MoveTracks(u.row, w, AwaitingApproval, now);
    }
  }

  lemma {:induction false} BlockKeeps(u: Work, r: Request, key: KeyId, existing: Option<nat>, now: Micros)
    requires Tracks(u.row, u)
    ensures var w := Upsert(u, r.tool, key, existing, Blocked, None, now);
            Tracks(u.row, w) && Steers(u, w)
  {
    UpsertKeepsCase(u, r.tool, key, existing, Blocked, None, now);
    SameCaseTracks(u.row, u, Upsert(u, r.tool, key, existing, Blocked, None, now));
  }

  lemma {:induction false} RunJudgedKeeps(customers: map<CustomerId, MerchantId>, u: Work, r: Request, key: KeyId,
                     grant: Option<Grant>, v: Verdict, ttl: int, env: Env, now: Micros)
    requires Tracks(u.row, u) && ValidInput(r)
    ensures var ran := RunJudged(customers, u, r, key, grant, v, ttl, env, now);
            ran.Lost? || (Tracks(u.row, ran.work) && Steers(u, ran.work))
  {
    BlockKeeps(u, r, key, Reentered(grant), now);
    AskKeeps(u, r, key, ttl, now);
    if Executable(u.row.status) {
      PerformKeeps(customers, u, r, key, grant, env, now);
    }
  }

  lemma {:induction false} SteersFrom(u: Work, u': Work, w: Work, w': Work)
    requires SameCase(u, u') && SameCase(w, w') && u.creditedFrom == u'.creditedFrom && w.creditedFrom == w'.creditedFrom
    requires Tracks(u'.row, w) && Steers(u', w)
    ensures Tracks(u.row, w') && Steers(u, w')
  {
  }

  lemma {:induction false} ConcludeKeeps(u: Work, begun: Work, id: KeyId, r: Request, ran: Ran)
    requires SameCase(u, begun) && u.creditedFrom == begun.creditedFrom && id in begun.tools.keys
    requires ran.Lost? || (Tracks(begun.row, ran.work) && Steers(begun, ran.work))
    ensures var done := Conclude(begun, id, r, ran);
            done.Crashed? || (Tracks(u.row, done.work) && Steers(u, done.work))
  {
    if !ran.Lost? {
      SteersFrom(u, begun, ran.work, Conclude(begun, id, r, ran).work);
    }
  }

  lemma {:induction false} ExecuteKeeps(customers: map<CustomerId, MerchantId>, u: Work, r: Request, key: Key,
          grant: Option<Grant>,
                     settings: PolicySettings, env: Env, now: Micros)
    requires Tracks(u.row, u)
    ensures var done := Execute(customers, u, r, key, grant, settings, env, now);
            done.Crashed? || (Tracks(u.row, done.work) && Steers(u, done.work))
  {
    var id := KeyId(u.row.merchant, key);
    if Admission(u, r, id, grant.Some?).None? {
      var v := Opened(u, id, r);
      SameCaseTracks(u.row, u, v);
      RunJudgedKeeps(customers, v, r, id, grant, Judged(v, r, settings, env, now), settings.approvalTtl, env, now);
      ConcludeKeeps(u, v, id, r, RunTool(customers, v, r, id, grant, settings, env, now));
    }
  }

  lemma {:induction false} ApproveKeeps(customers: map<CustomerId, MerchantId>, u: Work, a: nat,
                     settings: PolicySettings, env: Env, now: Micros)
    requires Tracks(u.row, u)
    ensures var done := Approve(customers, u, a, settings, env, now);
            done.Crashed? || (Tracks(u.row, done.work) && Steers(u, done.work))
  {
    var found := FindApproval(u, a);
    if found.Some? {
      var n := found.value;
      var v := ExpireIfNeeded(u, n, now);
      SameCaseTracks(u.row, u, v);
      if ApprovalRefusal(v, a, n).None? {
        var w := Approving(v, a, n);
        SameCaseTracks(u.row, v, w);
        ExecuteKeeps(customers, w, RecordedRequest(v.tools.actions[a]), v.tools.actions[a].keyId.key,
            Some(Grant(n, a)), settings, env, now);
      }
    }
  }

  lemma {:induction false} MoveSteers(u: Work, to: CaseStatus, now: Micros)
    requires Tracks(u.row, u) && Raises(u.row.status, to) && !(to.Recovered? || to.Verifying? || to.Executing?)
    ensures Tracks(u.row, u.Move(to, now)) && Steers(u, u.Move(to, now))
  {
    MoveTracks(u.row, u, to, now);
  }

  lemma {:induction false} RejectKeeps(u: Work, a: nat, now: Micros)
    requires Tracks(u.row, u)
    ensures Tracks(u.row, Reject(u, a, now)) && Steers(u, Reject(u, a, now))
  {
    var found := FindApproval(u, a);
    if found.Some? {
      var w := Rejecting(u, a, found.value);
      SameCaseTracks(u.row, u, w);
      RejectedKeeps(u, w, now);
    }
  }

  lemma {:induction false} RejectedKeeps(u: Work, w: Work, now: Micros)
    requires Tracks(u.row, w) && Tracks(w.row, w) && SameCase(u, w) && w.creditedFrom == u.creditedFrom
    ensures var x := if w.row.status == AwaitingApproval then w.Move(Escalated, now) else w;
            Tracks(u.row, x) && Steers(u, x)
  {
    if w.row.status == AwaitingApproval {
      MoveSteers(w, Escalated, now);
    }
  }

  /* ----- The orchestrator ----- */

  /** The policy-check preparation attempts a forbidden transition exactly off the way. */
  lemma {:induction false} WalkFollows(u: Work, now: Micros)
    requires Tracks(u.row, u)
    ensures var w := Walk(u, now);
            Follows(u.row, w) && Steers(u, w) && (Tracks(u.row, w) <==> OnTheWay(u.row.status))
  {
    if OnTheWay(u.row.status) {
      WalkKeeps(u, now);
      WalkedTracks(u.row, u, now);
      WalkedStaysOpen(u, now);
    } else {
      RefuseFollows(u.row, u, Triaged);
      assert MoveRejected(u.row.status, Triaged) in Walk(u, now).log;
    }
  }

  lemma {:induction false} WalkedStaysOpen(u: Work, now: Micros)
    ensures var w := Walked(u, now);
            if Rank(u.row.status) < Rank(PolicyCheck) then w.row.closedAt.None? else w == u
    decreases Rank(PolicyCheck) - Rank(u.row.status)
  {
    if Rank(u.row.status) < Rank(PolicyCheck) {
      WalkedStaysOpen(u.Move(NextStage(u.row.status), now), now);
    }
  }

  /** The orchestrator cannot take the legal edge back from RETRY_SCHEDULED to SCORING:
      its first call already attempts to triage such a case, and raises. */
  lemma {:induction false} AdvancedFollows(u: Work, v: Work, k: nat, n: nat, now: Micros)
    requires Tracks(u.row, v) && Steers(u, v)
    requires v.row.status == RetryScheduled ==> k == 0
    requires !Terminal(u.row.status)
    ensures var w := AdvancedFrom(v, k, n, now);
            Follows(u.row, w) && Steers(u, w)
    decreases STAGE_COUNT - k
  {
    if k < n && k < STAGE_COUNT {
      if StaysPut(v.row.status, Stage(k)) {
        AdvancedFollows(u, v, k + 1, n, now);
      } else if Legal(v.row.status, Stage(k)) {
        ClimbFollows(u, v, Stage(k), now);
        AdvancedFollows(u, v.Move(Stage(k), now), k + 1, n, now);
      } else {
        RefuseFollows(u.row, v, Stage(k));
      }
    }
  }

  lemma {:induction false} ClimbFollows(u: Work, v: Work, to: CaseStatus, now: Micros)
    requires Tracks(u.row, v) && Steers(u, v) && !Terminal(u.row.status)
    requires Legal(v.row.status, to) && Raises(v.row.status, to) && Rank(to) <= Rank(PolicyCheck)
    ensures var w := v.Move(to, now); Tracks(u.row, w) && Steers(u, w) && w.row.status == to
  {
    MoveTracks(u.row, v, to, now);
    ClimbSteers(u, v, to, now);
  }

  lemma {:induction false} ClimbSteers(u: Work, v: Work, to: CaseStatus, now: Micros)
    requires Follows(u.row, v) && Steers(u, v) && !Terminal(u.row.status)
    requires Raises(v.row.status, to) && Rank(to) <= Rank(PolicyCheck)
    ensures Steers(u, v.Move(to, now))
  {
    ReplayCounts(LifeOf(u.row), v.log);
  }

  lemma {:induction false} ClosedOffTracks(u: Work, now: Micros)
    requires Tracks(u.row, u)
    ensures var w := ClosedOff(u, now);
            Tracks(u.row, w) && Steers(u, w)
  {
    if u.row.status == PolicyCheck {
      MoveTracks(u.row, u, Escalated, now);
    }
  }

  /* ----- Every step ----- */

  lemma {:induction false} ProcessSteers(u: Work, settings: PolicySettings, env: Env, now: Micros)
    requires Tracks(u.row, u)
    ensures var w := ProcessLocked(u, settings, env, now);
            Tracks(u.row, w) && Steers(u, w)
  {
    ProcessTracks(u.row, u, settings, env, now);
  }

  /** What one transaction keeps of the case it locks: an audit log that replays, a sound
      row, a terminal row as it was, and, outside verification, the money. */
  ghost predicate KeepsCase(op: Op, u: Work, w: Work) {
    && Follows(u.row, w)
    && (!op.PreparePolicyCheck? && !op.Advance? ==> Tracks(u.row, w))
    && (Sound(u.row) ==> Sound(w.row))
    && (Terminal(u.row.status) ==> SameLedger(u.row, w.row))
    && (!op.VerifyCase? ==> SameMoney(u.row, w.row) && w.creditedFrom == u.creditedFrom)
  }

  lemma {:induction false} WorkedKeeps(db: Db, op: Op, env: Env)
    requires Locks(db, op)
    ensures var u, done := Begin(db, CaseOf(op).value), Worked(db, op, env);
            done.Crashed? || KeepsCase(op, u, done.work)
  {
    var u := Begin(db, CaseOf(op).value);
    var settings, now := db.merchants[u.row.merchant], db.clock;
    match op {
      case ProcessCase(_) => ProcessSteers(u, settings, env, now);
      case VerifyCase(_, payment, event) => VerifyKeeps(db, u, payment, event, settings, env, now);
      case PreparePolicyCheck(_) => WalkFollows(u, now);
      case ExecuteTool(_, request, name) =>
        ExecuteKeeps(db.customers, u, request, ClientKey(name), None, settings, env, now);
      case ApproveAction(_, a) => ApproveKeeps(db.customers, u, a, settings, env, now);
      case RejectAction(_, a) => RejectKeeps(u, a, now);
      case Advance(_, stages) =>
        if !Terminal(u.row.status) {
          AdvancedFollows(u, u, 0, stages, now);
        }
      case FailClosed(_) => ClosedOffTracks(u, now);
    }
    var done := Worked(db, op, env);
    if done.Done? && !op.VerifyCase? {
      SteersKeeps(op, u, done.work);
    }
  }

  lemma {:induction false} SteersKeeps(op: Op, u: Work, w: Work)
    requires Steers(u, w) && Follows(u.row, w)
    requires !op.PreparePolicyCheck? && !op.Advance? ==> Tracks(u.row, w)
    ensures !op.VerifyCase? ==> KeepsCase(op, u, w)
  {
    if Sound(u.row) {
      SteeringIsSound(u, w);
    }
  }
}
