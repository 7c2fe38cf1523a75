/** Each idempotency key has at most one completed handler run, and its stored answer
    stands: over runs of execute, approve, reject and everything else. */
module Idempotency {
  import opened Domain
  import opened StateMachine
  import opened Store
  import opened Processor
  import opened Verification
  import opened Crediting
  import opened Execution
  import opened Tooling
  import opened Engine
  import opened Ledger

  predicate Completes(c: ToolCall, id: KeyId) {
    c.keyId == id && c.status.Returned? && Ended(c.status.outcome)
  }

  /** The handler runs of a key that came to their end. */
  function Runs(calls: seq<ToolCall>, id: KeyId): nat {
    if calls == [] then 0 else Runs(calls[..|calls| - 1], id) + if Completes(calls[|calls| - 1], id) then 1 else 0
  }

  /** The key has its answer: no call can get past it any more. */
  predicate Settled(rec: KeyRecord) {
    !rec.status.InProgress? && rec.result.Some?
  }

  ghost predicate KeyRule(keys: map<KeyId, KeyRecord>, calls: seq<ToolCall>, id: KeyId) {
    && Runs(calls, id) <= 1
    && (Runs(calls, id) == 1 ==> id in keys && Settled(keys[id]) && Ended(keys[id].result.value.outcome))
    && (id in keys && keys[id].status.InProgress? ==> keys[id].result.Some? && keys[id].result.value.outcome.NeedsApproval?)
    && (id in keys && keys[id].status.KeyCompleted? ==>
          keys[id].result.Some? && !keys[id].result.value.outcome.NeedsApproval?)
  }

  ghost predicate KeysSafe(t: Tools) {
    forall id :: KeyRule(t.keys, t.calls, id)
  }

  /** Requests never change, and a settled answer never does. */
  ghost predicate KeysOnward(t: Tools, t': Tools) {
    forall id | id in t.keys ::
      && id in t'.keys && t'.keys[id].request == t.keys[id].request
      && (Settled(t.keys[id]) ==> Settled(t'.keys[id]) && t'.keys[id].result == t.keys[id].result)
  }

  /* ----- One execution ----- */

  /** The key record and the tool call that a finished or failed run leaves. */
  lemma {:induction false} ConcludeShape(begun: Work, id: KeyId, r: Request, ran: Ran)
    requires id in begun.tools.keys && !ran.Lost?
    ensures var done := Conclude(begun, id, r, ran);
            && done.Done?
            && done.work.tools == ran.work.tools.(keys := ran.work.tools.keys[id := RecordAfter(begun.tools.keys[id], ran)],
                                                  calls := ran.work.tools.calls + [done.work.tools.calls[|ran.work.tools.calls|]])
            && done.work.tools.calls[|ran.work.tools.calls|]
               == ToolCall(id, begun.id, r.tool, if ran.Raised? then Failed(ran.error) else Returned(ran.result.outcome))
            && done.work.payments == ran.work.payments
  {
  }

  lemma {:induction false} OneMoreCall(calls: seq<ToolCall>, c: ToolCall, id: KeyId)
    ensures Runs(calls + [c], id) == Runs(calls, id) + if Completes(c, id) then 1 else 0
  {
    assert (calls + [c])[..|calls + [c]| - 1] == calls;
  }

  /** A key that a call may pass has no completed run yet. */
  lemma {:induction false} AdmittedKeyIsFresh(u: Work, r: Request, id: KeyId, granted: bool)
    requires KeysSafe(u.tools) && Admission(u, r, id, granted).None?
    ensures Runs(u.tools.calls, id) == 0
    ensures id in u.tools.keys ==>
              var rec := u.tools.keys[id]; !Settled(rec) && !rec.status.KeyCompleted? && rec.request == r
  {
    assert KeyRule(u.tools.keys, u.tools.calls, id);
  }

  lemma {:induction false} ConcludeKeepsKeys(t: Tools, id: KeyId, rec: KeyRecord, ran: Ran, call: ToolCall)
    requires KeysSafe(t) && !ran.Lost? && Runs(t.calls, id) == 0
    requires rec == (if id in t.keys then t.keys[id] else rec.(status := InProgress, result := None))
    requires !Settled(rec) && !rec.status.KeyCompleted?
    requires call.keyId == id && call.status == (if ran.Raised? then Failed(ran.error) else Returned(ran.result.outcome))
    ensures var t' := t.(keys := t.keys[id := RecordAfter(rec, ran)], calls := t.calls + [call]);
            KeysSafe(t') && KeysOnward(t, t')
  {
    var keys, calls := t.keys[id := RecordAfter(rec, ran)], t.calls + [call];
    forall k ensures KeyRule(keys, calls, k) {
      assert KeyRule(t.keys, t.calls, k);
      OneMoreCall(t.calls, call, k);
      if k == id {
        ConcludedKey(t, id, rec, ran, call);
      }
    }
  }

  /** The rule of the concluded key itself: this was its first run, if it was one. */
  lemma {:induction false} ConcludedKey(t: Tools, id: KeyId, rec: KeyRecord, ran: Ran, call: ToolCall)
    requires !ran.Lost? && Runs(t.calls, id) == 0 && !Settled(rec) && !rec.status.KeyCompleted?
    requires call.keyId == id && call.status == (if ran.Raised? then Failed(ran.error) else Returned(ran.result.outcome))
    ensures KeyRule(t.keys[id := RecordAfter(rec, ran)], t.calls + [call], id)
  {
    var runs, ended := Runs(t.calls + [call], id), ran.Finished? && Ended(ran.result.outcome);
    OneMoreCall(t.calls, call, id);
    assert runs == if ended then 1 else 0;
    ConcludedRecord(rec, ran);
    assert t.keys[id := RecordAfter(rec, ran)][id] == RecordAfter(rec, ran);
  }

  lemma {:induction false} ConcludedRecord(rec: KeyRecord, ran: Ran)
    requires !ran.Lost? && !Settled(rec) && !rec.status.KeyCompleted?
    ensures var after := RecordAfter(rec, ran);
            && (ran.Finished? && Ended(ran.result.outcome) ==> Settled(after) && Ended(after.result.value.outcome))
            && (after.status.InProgress? ==> after.result.Some? && after.result.value.outcome.NeedsApproval?)
            && (after.status.KeyCompleted? ==> after.result.Some? && !after.result.value.outcome.NeedsApproval?)
  {
  }

  lemma {:induction false} ConclusionKeepsKeys(u: Work, id: KeyId, r: Request, granted: bool, ran: Ran)
    requires KeysSafe(u.tools) && Admission(u, r, id, granted).None?
    requires !ran.Lost? && SameKeys(Opened(u, id, r).tools, ran.work.tools)
    ensures var done := Conclude(Opened(u, id, r), id, r, ran);
            KeysSafe(done.work.tools) && KeysOnward(u.tools, done.work.tools)
  {
    var begun := Opened(u, id, r);
    var rec, done := begun.tools.keys[id], Conclude(begun, id, r, ran);
    ConcludeShape(begun, id, r, ran);
    AdmittedKeyIsFresh(u, r, id, granted);
    var call := done.work.tools.calls[|u.tools.calls|];
    ConcludeKeepsKeys(u.tools, id, rec, ran, call);
    var t := u.tools.(keys := u.tools.keys[id := RecordAfter(rec, ran)], calls := u.tools.calls + [call]);
    assert done.work.tools.keys == t.keys;
    SafeBySameKeys(t, done.work.tools);
  }

  lemma {:induction false} ExecuteKeepsKeys(customers: map<CustomerId, MerchantId>, u: Work, r: Request, key: Key,
                         grant: Option<Grant>, settings: PolicySettings, env: Env, now: Micros)
    requires KeysSafe(u.tools)
    ensures var done := Execute(customers, u, r, key, grant, settings, env, now);
            done.Crashed? || (KeysSafe(done.work.tools) && KeysOnward(u.tools, done.work.tools))
  {
    var id := KeyId(u.row.merchant, key);
    if Admission(u, r, id, grant.Some?).None? {
      var begun := Opened(u, id, r);
      var v := Judged(begun, r, settings, env, now);
      var ran := RunJudged(customers, begun, r, id, grant, v, settings.approvalTtl, env, now);
      RunJudgedShape(customers, begun, r, id, grant, v, settings.approvalTtl, env, now);
      if !ran.Lost? {
        RunLeavesKeys(begun, r, id, grant, v, settings.approvalTtl, now, ran);
        ConclusionKeepsKeys(u, id, r, grant.Some?, ran);
      }
      assert Execute(customers, u, r, key, grant, settings, env, now) == Conclude(begun, id, r, ran);
    }
  }

  lemma {:induction false} SafeBySameKeys(t: Tools, t': Tools)
    requires SameKeys(t, t') && KeysSafe(t)
    ensures KeysSafe(t')
  {
    forall id ensures KeyRule(t'.keys, t'.calls, id) {
      assert KeyRule(t.keys, t.calls, id);
    }
  }

  /* ----- The other operations ----- */

  lemma {:induction false} ProcessKeepsKeys(u: Work, settings: PolicySettings, env: Env, now: Micros)
    ensures SameKeys(u.tools, ProcessLocked(u, settings, env, now).tools)
  {
    WalkKeeps(u, now);
    var v := Walked(u, now);
    if v.row.status == PolicyCheck {
      var d := ProcessDecision(v, settings, env, now);
      DecisionKeepsKeys(v, d, settings.approvalTtl, now);
      assert !SettledForProcessing(u.row.status) ==>
               ProcessLocked(u, settings, env, now) == ProcessDecided(v, d, settings.approvalTtl, now);
    }
  }

  lemma {:induction false} DecisionKeepsKeys(u: Work, d: Decision, ttl: int, now: Micros)
    requires u.row.status == PolicyCheck
    ensures SameKeys(u.tools, ProcessDecided(u, d, ttl, now).tools)
  {
    var w := Recorded(u, ChosenAction(u.row, u.payments), d, ttl, now);
    RecordedKeepsCase(u, ChosenAction(u.row, u.payments), d, ttl, now);
    SteeredShape(w, d, now);
  }

  lemma {:induction false} VerifyKeepsKeys(db: Db, u: Work, payment: Option<PaymentId>, event: Option<EventKey>,
                        settings: PolicySettings, env: Env, now: Micros)
    ensures SameKeys(u.tools, Verify(db, u, payment, event, settings, env, now).tools)
  {
    VerifyTools(db, u, payment, event, settings, env, now);
    ProcessKeepsKeys(u, settings, env, now);
  }

  lemma {:induction false} ApproveKeepsKeys(customers: map<CustomerId, MerchantId>, u: Work, a: nat,
                         settings: PolicySettings, env: Env, now: Micros)
    requires KeysSafe(u.tools)
    ensures var done := Approve(customers, u, a, settings, env, now);
            done.Crashed? || (KeysSafe(done.work.tools) && KeysOnward(u.tools, done.work.tools))
  {
    var found := FindApproval(u, a);
    if found.Some? {
      var n := found.value;
      var v := ExpireIfNeeded(u, n, now);
      SafeBySameKeys(u.tools, v.tools);
      if ApprovalRefusal(v, a, n).None? {
        SafeBySameKeys(u.tools, Approving(v, a, n).tools);
        ExecuteKeepsKeys(customers, Approving(v, a, n), RecordedRequest(v.tools.actions[a]), v.tools.actions[a].keyId.key,
            Some(Grant(n, a)), settings, env, now);
      }
    }
  }

  /** A rejection settles the key, or leaves it settled. */
  lemma {:induction false} RejectKeepsKeys(u: Work, a: nat, now: Micros)
    requires KeysSafe(u.tools)
    ensures KeysSafe(Reject(u, a, now).tools) && KeysOnward(u.tools, Reject(u, a, now).tools)
  {
    var found := FindApproval(u, a);
    if found.Some? {
      var id := u.tools.actions[a].keyId;
      var t := if id in u.tools.keys then FailedKey(u.tools, id) else u.tools;
      if id in u.tools.keys {
        FailedKeyIsSafe(u.tools, id);
      }
      assert SameKeys(t, Rejecting(u, a, found.value).tools);
      SafeBySameKeys(t, Reject(u, a, now).tools);
    }
  }

  function FailedKey(t: Tools, id: KeyId): Tools
    requires id in t.keys
  {
    t.(keys := t.keys[id := t.keys[id].(status := KeyFailed)])
  }

  lemma {:induction false} FailedKeyIsSafe(t: Tools, id: KeyId)
    requires KeysSafe(t) && id in t.keys
    ensures KeysSafe(FailedKey(t, id)) && KeysOnward(t, FailedKey(t, id))
  {
    forall k ensures KeyRule(FailedKey(t, id).keys, t.calls, k) {
      assert KeyRule(t.keys, t.calls, k);
    }
  }

  /** The services that call no tool leave keys and calls alone. */
  lemma {:induction false} ServicesKeepKeys(db: Db, op: Op, env: Env)
    requires Locks(db, op) && !op.ExecuteTool? && !op.ApproveAction? && !op.RejectAction?
    ensures SameKeys(db.tools, Worked(db, op, env).work.tools)
  {
    var u := Begin(db, CaseOf(op).value);
    var settings, now := db.merchants[u.row.merchant], db.clock;
    match op
    case ProcessCase(_) => ProcessKeepsKeys(u, settings, env, now);
    case VerifyCase(_, payment, event) => VerifyKeepsKeys(db, u, payment, event, settings, env, now);
    case PreparePolicyCheck(_) => WalkKeeps(u, now);
    case Advance(_, stages) => AdvancedKeepsTools(u, 0, stages, now);
    case FailClosed(_) =>
  }

  lemma {:induction false} WorkKeepsKeys(db: Db, op: Op, env: Env)
    requires KeysSafe(db.tools) && Locks(db, op)
    ensures var done := Worked(db, op, env);
            done.Crashed? || (KeysSafe(done.work.tools) && KeysOnward(db.tools, done.work.tools))
  {
    var u := Begin(db, CaseOf(op).value);
    var settings, now := db.merchants[u.row.merchant], db.clock;
    if op.ExecuteTool? {
      ExecuteKeepsKeys(db.customers, u, op.request, ClientKey(op.name), None, settings, env, now);
    } else if op.ApproveAction? {
      ApproveKeepsKeys(db.customers, u, op.action, settings, env, now);
    } else if op.RejectAction? {
      RejectKeepsKeys(u, op.action, now);
    } else {
      ServicesKeepKeys(db, op, env);
      SafeBySameKeys(db.tools, Worked(db, op, env).work.tools);
    }
  }

  lemma {:induction false} NextKeepsKeys(db: Db, s: Step)
    requires KeysSafe(db.tools)
    ensures KeysSafe(Next(db, s).tools) && KeysOnward(db.tools, Next(db, s).tools)
  {
    NextShape(db, s);
    if Commits(db, s) {
      WorkKeepsKeys(Ticked(db, s), s.op, s.env);
    }
  }

  lemma {:induction false} RunKeepsKeysSafe(db: Db, steps: seq<Step>)
    requires KeysSafe(db.tools)
    ensures KeysSafe(Run(db, steps).tools) && KeysOnward(db.tools, Run(db, steps).tools)
  {
    if steps != [] {
      var front := steps[..|steps| - 1];
      RunKeepsKeysSafe(db, front);
      NextKeepsKeys(Run(db, front), steps[|steps| - 1]);
    }
  }

  /* ----- Main results ----- */

  /** At-most-once execution: each (merchant, idempotency key) has at most one completed
      handler run, through retries after errors, approval re-entry and rejections. */
  lemma {:induction false} AtMostOneRunPerKey(genesis: Db, steps: seq<Step>, id: KeyId)
    requires genesis.tools == NO_TOOLS
    ensures Runs(Run(genesis, steps).tools.calls, id) <= 1
  {
    RunKeepsKeysSafe(genesis, steps);
    var t := Run(genesis, steps).tools;
    assert KeyRule(t.keys, t.calls, id);
  }

  /** What a call is told, once its key is settled. */
  function AnswerOf(c: Case, r: Request, rec: KeyRecord): Response
    requires rec.result.Some?
  {
    if !ValidInput(r) then Error(InvalidInput)
    else if Terminal(c.status) then Error(CaseTerminal)
    else if r != rec.request then Error(KeyConflict)
    else Replay(rec.result.value)
  }

  /** The answer stands: once a key has run, every later call with the same request is told
      the stored result, every other request conflicts, and neither changes anything. */
  lemma {:induction false} AnswerStands(genesis: Db, steps: seq<Step>, more: seq<Step>, s: Step)
    requires genesis.tools == NO_TOOLS && s.op.ExecuteTool?
    requires var db := Run(genesis, steps + more);
             && Locks(db, s.op)
             && Runs(Run(genesis, steps).tools.calls, KeyId(db.cases[s.op.i].merchant, ClientKey(s.op.name))) == 1
    ensures var db, past := Run(genesis, steps + more), Run(genesis, steps).tools;
            var id := KeyId(db.cases[s.op.i].merchant, ClientKey(s.op.name));
            && id in past.keys && past.keys[id].result.Some? && Ended(past.keys[id].result.value.outcome)
            && Worked(Ticked(db, s), s.op, s.env) == Done(Begin(db, s.op.i),
                AnswerOf(db.cases[s.op.i], s.op.request, past.keys[id]))
            && Next(db, s) == Ticked(db, s)
  {
    RunKeepsKeysSafe(genesis, steps);
    RunInTwoParts(genesis, steps, more);
    RunKeepsKeysSafe(Run(genesis, steps), more);
    AnswerStandsFrom(Run(genesis, steps).tools, Run(genesis, steps + more), s);
  }

  lemma {:induction false} AnswerStandsFrom(past: Tools, db: Db, s: Step)
    requires KeysSafe(past) && KeysOnward(past, db.tools) && s.op.ExecuteTool? && Locks(db, s.op)
    requires Runs(past.calls, KeyId(db.cases[s.op.i].merchant, ClientKey(s.op.name))) == 1
    ensures var id := KeyId(db.cases[s.op.i].merchant, ClientKey(s.op.name));
            && id in past.keys && past.keys[id].result.Some? && Ended(past.keys[id].result.value.outcome)
            && Worked(Ticked(db, s), s.op, s.env) == Done(Begin(db, s.op.i),
                AnswerOf(db.cases[s.op.i], s.op.request, past.keys[id]))
            && Next(db, s) == Ticked(db, s)
  {
    assert KeyRule(past.keys, past.calls, KeyId(db.cases[s.op.i].merchant, ClientKey(s.op.name)));
    SettledStep(db, s);
  }

  lemma {:induction false} SettledStep(db: Db, s: Step)
    requires s.op.ExecuteTool? && Locks(db, s.op)
    requires var id := KeyId(db.cases[s.op.i].merchant, ClientKey(s.op.name)); id in db.tools.keys && Settled(db.tools.keys[id])
    ensures var id := KeyId(db.cases[s.op.i].merchant, ClientKey(s.op.name));
            && Worked(Ticked(db, s), s.op, s.env)
               == Done(Begin(db, s.op.i), AnswerOf(db.cases[s.op.i], s.op.request, db.tools.keys[id]))
            && Next(db, s) == Ticked(db, s)
  {
    SettledKeyAnswers(Ticked(db, s), s.op.i, s.op.request, s.op.name, s.env);
    assert Next(db, s) == CaseStepped(Ticked(db, s), s.op, s.env);
  }

  lemma {:induction false} SettledKeyAnswers(db: Db, i: nat, r: Request, name: nat, env: Env)
    requires Locks(db, ExecuteTool(i, r, name))
    requires var id := KeyId(db.cases[i].merchant, ClientKey(name)); id in db.tools.keys && Settled(db.tools.keys[id])
    ensures var id := KeyId(db.cases[i].merchant, ClientKey(name));
            Worked(db, ExecuteTool(i, r, name), env) == Done(Begin(db, i), AnswerOf(db.cases[i], r, db.tools.keys[id]))
    ensures Commit(db, i, Begin(db, i)) == db
  {
    assert db.cases[i := db.cases[i]] == db.cases;
    assert db.audit + Tag(i, []) == db.audit;
  }

  /** A request other than the one that a key was opened with is refused, settled or not,
      and changes nothing. */
  lemma {:induction false} OtherRequestConflicts(db: Db, i: nat, r: Request, name: nat, env: Env)
    requires Locks(db, ExecuteTool(i, r, name))
    requires var id := KeyId(db.cases[i].merchant, ClientKey(name)); id in db.tools.keys && db.tools.keys[id].request != r
    ensures var done := Worked(db, ExecuteTool(i, r, name), env);
            && done.Done? && done.work == Begin(db, i) && done.response.Error?
            && (ValidInput(r) && !Terminal(db.cases[i].status) ==> done.response == Error(KeyConflict))
  {
  }

  /* ----- Keys that run nothing ----- */

  /** A key that is settled on anything but a handler's answer, as on a request for approval,
      runs nothing any more, whatever is executed, approved or rejected later. */
  lemma {:induction false} DefeatedKeyNeverRuns(db: Db, steps: seq<Step>, id: KeyId)
    requires KeysSafe(db.tools)
    requires id in db.tools.keys && Settled(db.tools.keys[id]) && !Ended(db.tools.keys[id].result.value.outcome)
    ensures var t := Run(db, steps).tools;
            Runs(t.calls, id) == 0 && id in t.keys && t.keys[id].result == db.tools.keys[id].result
  {
    RunKeepsKeysSafe(db, steps);
    var t := Run(db, steps).tools;
    assert KeyRule(t.keys, t.calls, id);
  }
}
