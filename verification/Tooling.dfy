/** What one run of a tool does to the tool tables, outcome by outcome. */
module Tooling {
  import opened Domain
  import opened StateMachine
  import opened Store
  import opened Policy
  import opened Execution
  import opened Engine

  /** Nothing but rows, notices and approvals moves while the key is open. */
  ghost predicate BlockedTools(u: Work, t: Tools, r: Request, key: KeyId, existing: Option<nat>, now: Micros) {
    t == u.tools.(actions := Touched(u.tools.actions, UpsertAt(u, key, existing),
        UpsertRow(u, r.tool, key, existing, Blocked, None, now)))
  }

  function AskedRow(u: Work, r: Request, key: KeyId, now: Micros): Action {
    UpsertRow(u, r.tool, key, None, ApprovalRequired, Some(r), now).(fingerprint := Some(FingerprintOf(u.row)))
  }

  ghost predicate AskedTools(u: Work, t: Tools, r: Request, key: KeyId, ttl: int, now: Micros) {
    var a := UpsertAt(u, key, None);
    t == u.tools.(actions := Touched(u.tools.actions, a, AskedRow(u, r, key, now)),
                  approvals := u.tools.approvals + [Approval(u.id, a, AwaitingDecision, now + ttl)])
  }

  /** The row that a finished run leaves behind. */
  ghost predicate RanRow(u: Work, r: Request, key: KeyId, existing: Option<nat>, now: Micros, row: Action, ok: bool) {
    && row == UpsertRow(u, r.tool, key, existing, Running, Some(r), now)
              .(reference := row.reference, amount := row.amount, newPayment := row.newPayment,
                status := if ok then Succeeded else ActionFailed)
    && (r.tool.OfferDiscount? ==>
          ok && r.input.Discount? && row.amount as int == DiscountPaise(u.row.amountAtRisk, r.input.percent))
  }

  ghost predicate RanTools(u: Work, t: Tools, r: Request, key: KeyId, existing: Option<nat>, now: Micros, ok: bool) {
    var a := UpsertAt(u, key, existing);
    && t == u.tools.(actions := t.actions, notices := t.notices)
    && |t.actions| > a
    && t.actions == Touched(u.tools.actions, a, t.actions[a])
    && RanRow(u, r, key, existing, now, t.actions[a], ok)
    && (t.notices == u.tools.notices
        || (r.tool.SendReminder? && t.notices == u.tools.notices + [Notice(u.row.merchant, u.row.customer, u.id, now)]))
  }

  /** A handler has run to its end. */
  predicate Ended(o: Outcome) {
    o.RunSucceeded? || o.RunFailed?
  }

  /** The outcome of a run, what let it happen, and what it did to the tables. */
  ghost predicate RunShape(u: Work, r: Request, key: KeyId, grant: Option<Grant>, v: Verdict, ttl: int, now: Micros,
          ran: Ran)
    requires !ran.Lost?
  {
    if ran.Raised? then ran.work == u
    else
      && (Executable(u.row.status))
      && (!Ended(ran.result.outcome) ==> ran.work.payments == u.payments)
      && match ran.result.outcome
         case RunBlocked => !v.allowed && BlockedTools(u, ran.work.tools, r, key, Reentered(grant), now)
         case NeedsApproval => v.allowed && v.requiresApproval && grant.None?
             && AskedTools(u, ran.work.tools, r, key, ttl, now)
         case _ =>
           && v.allowed
           && (if grant.None? then !v.requiresApproval else GrantError(u, grant.value, now).None?)
           && RanTools(u, ran.work.tools, r, key, Reentered(grant), now, ran.result.outcome.RunSucceeded?)
  }

  lemma {:induction false} TouchTwice(actions: seq<Action>, a: nat, x: Action, y: Action)
    requires a <= |actions|
    ensures a < |Touched(actions, a, x)| && Touched(actions, a, x)[a] == x
    ensures Touched(actions, a, x)[a := y] == Touched(actions, a, y)
  {
  }

  lemma {:induction false} AskShape(u: Work, r: Request, key: KeyId, ttl: int, now: Micros)
    ensures var ran := AskForApproval(u, r, key, ttl, now);
            AskedTools(u, ran.work.tools, r, key, ttl, now) && ran.work.payments == u.payments
  {
    var row := UpsertRow(u, r.tool, key, None, ApprovalRequired, Some(r), now);
    TouchTwice(u.tools.actions, UpsertAt(u, key, None), row, AskedRow(u, r, key, now));
  }

  /** What a handler reads of the work is the case and its payments. */
  lemma {:induction false} HandlerEffect(customers: map<CustomerId, MerchantId>, v: Work, r: Request, env: Env, now: Micros)
    requires ValidInput(r)
    ensures var h := RunHandler(customers, v, r, env, now);
            h.Handled? ==>
              && (r.tool.OfferDiscount? ==>
                    h.ok && h.amount.Some? && h.amount.value as int == DiscountPaise(v.row.amountAtRisk, r.input.percent))
              && (h.work.tools.notices == v.tools.notices
                  || (r.tool.SendReminder? && h.work.tools.notices
                      == v.tools.notices + [Notice(v.row.merchant, v.row.customer, v.id, now)]))
  {
  }

  lemma {:induction false} StartedShape(u: Work, r: Request, key: KeyId, existing: Option<nat>, now: Micros)
    ensures var v := Started(u, r, key, existing, now);
            && v.id == u.id && v.payments == u.payments
            && v.row == u.row.(status := v.row.status, version := v.row.version, closedAt := v.row.closedAt)
            && v.tools == u.tools.(actions := Touched(u.tools.actions, UpsertAt(u, key, existing),
                                                      UpsertRow(u, r.tool, key, existing, Running, Some(r), now)))
  {
  }

  lemma {:induction false} AfterRunKeepsTools(w: Work, h: Handled, now: Micros)
    requires h.Handled? && (h.ok ==> h.target.Some? && OutcomeTarget(h.target.value))
    ensures AfterRun(w, h, now).tools == w.tools
  {
  }

  lemma {:induction false} FinishShape(u: Work, v: Work, h: Handled, r: Request, key: KeyId, grant: Option<Grant>,
          now: Micros)
    requires HandledFrom(v, h, Quietly(r.tool)) && v.id == u.id
    requires var a, row := UpsertAt(u, key, Reentered(grant)),
        UpsertRow(u, r.tool, key, Reentered(grant), Running, Some(r), now);
             v.tools == u.tools.(actions := Touched(u.tools.actions, a, row))
    requires r.tool.OfferDiscount? ==>
               && h.ok && h.amount.Some? && r.input.Discount?
               && h.amount.value as int == DiscountPaise(u.row.amountAtRisk, r.input.percent)
    requires h.work.tools.notices == u.tools.notices
             || (r.tool.SendReminder? && h.work.tools.notices
                 == u.tools.notices + [Notice(u.row.merchant, u.row.customer, u.id, now)])
    ensures var a := UpsertAt(u, key, Reentered(grant));
            && a < |v.tools.actions|
            && var ran := FinishRun(v, h, a, Quietly(r.tool), grant, now);
               RanTools(u, ran.work.tools, r, key, Reentered(grant), now, h.ok)
  {
    var a, row := UpsertAt(u, key, Reentered(grant)), UpsertRow(u, r.tool, key, Reentered(grant), Running, Some(r), now);
    TouchTwice(u.tools.actions, a, row, CompletedRow(row, h));
    AfterRunKeepsTools(Complete(h.work, a, h), h, now);
  }

  lemma {:induction false} PerformShape(customers: map<CustomerId, MerchantId>, u: Work, r: Request, key: KeyId,
                     grant: Option<Grant>, env: Env, now: Micros)
    requires ValidInput(r)
    ensures var ran := Perform(customers, u, r, key, grant, env, now);
            ran.Lost? || (ran.Finished? && Ended(ran.result.outcome)
                          && RanTools(u, ran.work.tools, r, key, Reentered(grant), now, ran.result.outcome.RunSucceeded?))
  {
    var v := Started(u, r, key, Reentered(grant), now);
    var h := RunHandler(customers, v, r, env, now);
    if h.Handled? {
      StartedShape(u, r, key, Reentered(grant), now);
      HandlerKeeps(customers, v, r, env, now);
      HandlerEffect(customers, v, r, env, now);
      FinishShape(u, v, h, r, key, grant, now);
      assert Perform(customers, u, r, key, grant, env, now) == FinishRun(v, h, UpsertAt(u, key, Reentered(grant)),
          Quietly(r.tool), grant, now);
    }
  }

  lemma {:induction false} RunJudgedShape(customers: map<CustomerId, MerchantId>, u: Work, r: Request, key: KeyId,
                       grant: Option<Grant>, v: Verdict, ttl: int, env: Env, now: Micros)
    requires ValidInput(r)
    ensures var ran := RunJudged(customers, u, r, key, grant, v, ttl, env, now);
            ran.Lost? || RunShape(u, r, key, grant, v, ttl, now, ran)
  {
    AskShape(u, r, key, ttl, now);
    PerformShape(customers, u, r, key, grant, env, now);
  }

  predicate SameKeys(t: Tools, t': Tools) {
    t'.keys == t.keys && t'.calls == t.calls
  }

  /** A run, whatever its outcome, leaves keys and calls to its conclusion. */
  lemma {:induction false} RunLeavesKeys(u: Work, r: Request, key: KeyId, grant: Option<Grant>, v: Verdict, ttl: int,
          now: Micros, ran: Ran)
    requires !ran.Lost? && RunShape(u, r, key, grant, v, ttl, now, ran)
    ensures SameKeys(u.tools, ran.work.tools)
  {
  }

  lemma {:induction false} AdvancedKeepsTools(u: Work, k: nat, n: nat, now: Micros)
    ensures AdvancedFrom(u, k, n, now).tools == u.tools
    decreases STAGE_COUNT - k
  {
    if k < n && k < STAGE_COUNT {
      if StaysPut(u.row.status, Stage(k)) {
        AdvancedKeepsTools(u, k + 1, n, now);
      } else if Legal(u.row.status, Stage(k)) {
        AdvancedKeepsTools(u.Move(Stage(k), now), k + 1, n, now);
      }
    }
  }
}
