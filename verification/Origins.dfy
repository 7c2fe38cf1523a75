/** Where payments come from, in runs of the whole engine: a payment is what its processed
    events, in order, make of nothing, or of the provider's answer that an action row names. */
module Origins {
  import opened Domain
  import opened Store
  import opened Policy
  import opened Processor
  import opened Execution
  import opened Tooling
  import opened Events
  import opened Engine
  import opened Ledger
  import opened Rows
  import opened Gating
  import opened EventEffects

  /* ----- One row ----- */

  /** A row that names a payment is closed, so nothing runs it again. */
  predicate NamesOnceClosed(row: Action) {
    row.newPayment.Some? ==> !Open(row.status)
  }

  ghost predicate NamesClosed(actions: seq<Action>) {
    forall k | 0 <= k < |actions| :: NamesOnceClosed(actions[k])
  }

  /** A row goes on naming its payment, with the amount the provider answered. */
  predicate NamesOn(row: Action, row': Action) {
    row.newPayment.Some? ==> row'.newPayment == row.newPayment && row'.amount == row.amount
  }

  ghost predicate AllNameOn(actions: seq<Action>, actions': seq<Action>) {
    |actions| <= |actions'| && forall k | 0 <= k < |actions| :: NamesOn(actions[k], actions'[k])
  }

  /** A payment that was not in the store is booked, and the row names it and its amount. */
  predicate BooksAs(payments: map<PaymentId, Payment>, payments': map<PaymentId, Payment>, row: Action) {
    && row.newPayment.Some? && row.newPayment.value !in payments && row.newPayment.value in payments'
    && payments' == payments[row.newPayment.value := payments'[row.newPayment.value]]
    && row.amount == payments'[row.newPayment.value].amount
  }

  predicate Names(actions: seq<Action>, p: PaymentId) {
    exists row <- actions :: row.newPayment == Some(p)
  }

  /** At most one payment is booked, which a row names, and no other name is new. */
  ghost predicate BooksNamed(payments: map<PaymentId, Payment>, payments': map<PaymentId, Payment>, actions: seq<Action>,
                             actions': seq<Action>) {
    && (payments' == payments || exists row <- actions' :: BooksAs(payments, payments', row))
    && forall row <- actions' | row.newPayment.Some? ::
         Names(actions, row.newPayment.value) || BooksAs(payments, payments', row)
  }

  /** What a unit of work does to names and payments. */
  ghost predicate Originates(u: Work, w: Work) {
    && NamesClosed(w.tools.actions) && AllNameOn(u.tools.actions, w.tools.actions)
    && BooksNamed(u.payments, w.payments, u.tools.actions, w.tools.actions)
  }

  /** It touches one row, and leaves alone what that row may name. */
  lemma {:induction false} TouchOriginates(u: Work, w: Work, a: nat, row: Action)
    requires NamesClosed(u.tools.actions) && a <= |u.tools.actions|
    requires w.tools.actions == Touched(u.tools.actions, a, row)
    requires NamesOnceClosed(row) && (a < |u.tools.actions| ==> NamesOn(u.tools.actions[a], row))
    requires || BooksAs(u.payments, w.payments, row)
             || (&& w.payments == u.payments
                 && (row.newPayment.Some? ==> a < |u.tools.actions| && u.tools.actions[a].newPayment == row.newPayment))
    ensures Originates(u, w)
  {
    assert w.tools.actions[a] == row;
    forall x | x in w.tools.actions && x.newPayment.Some?
      ensures Names(u.tools.actions, x.newPayment.value) || BooksAs(u.payments, w.payments, x) {
      assert x in u.tools.actions || x == row;
      if x == row && !BooksAs(u.payments, w.payments, row) {
        assert u.tools.actions[a] in u.tools.actions;
      }
    }
  }

  lemma {:induction false} SameRowsOriginate(u: Work, w: Work)
    requires NamesClosed(u.tools.actions) && w.tools.actions == u.tools.actions && w.payments == u.payments
    ensures Originates(u, w)
  {
  }

  /* ----- One run ----- */

  /** A handler books at most one payment, a new one, which it reports with its amount. */
  predicate BooksItsPayment(v: Work, h: Handled) {
    h.Handled? &&
    if h.newPayment.None? then h.work.payments == v.payments
    else
      && h.newPayment.value !in v.payments && h.newPayment.value in h.work.payments
      && h.work.payments == v.payments[h.newPayment.value := h.work.payments[h.newPayment.value]]
      && h.amount == Some(h.work.payments[h.newPayment.value].amount)
  }

  lemma {:induction false} HandlerBooks(customers: map<CustomerId, MerchantId>, v: Work, r: Request, env: Env, now: Micros)
    requires ValidInput(r)
    ensures var h := RunHandler(customers, v, r, env, now);
            h.Handled? ==> BooksItsPayment(v, h)
  {
  }

  lemma {:induction false} FinishedBooks(v: Work, h: Handled, a: nat, quiet: bool, grant: Option<Grant>, now: Micros)
    requires HandledFrom(v, h, quiet) && a < |v.tools.actions|
    ensures var ran := FinishRun(v, h, a, quiet, grant, now);
            && ran.work.payments == h.work.payments
            && ran.work.tools.actions == v.tools.actions[a := CompletedRow(v.tools.actions[a], h)]
  {
    AfterRunKeepsTools(Complete(h.work, a, h), h, now);
  }

  /** The row that a run re-enters or adds names no payment yet. */
  ghost predicate Nameless(u: Work, id: KeyId, grant: Option<Grant>) {
    var a := ExistingAction(u, id, Reentered(grant));
    a.Some? ==> u.tools.actions[a.value].newPayment.None?
  }

  lemma {:induction false} PerformOriginates(customers: map<CustomerId, MerchantId>, u: Work, r: Request, key: KeyId,
                       grant: Option<Grant>, env: Env, now: Micros)
    requires ValidInput(r) && NamesClosed(u.tools.actions) && Nameless(u, key, grant)
    ensures var ran := Perform(customers, u, r, key, grant, env, now);
            ran.Finished? ==> Originates(u, ran.work)
  {
    var existing := Reentered(grant);
    var a, v, row := UpsertAt(u, key, existing), Started(u, r, key, existing, now),
        UpsertRow(u, r.tool, key, existing, Running, Some(r), now);
    var h := RunHandler(customers, v, r, env, now);
    if h.Handled? {
      StartedShape(u, r, key, existing, now);
      HandlerKeeps(customers, v, r, env, now);
      HandlerBooks(customers, v, r, env, now);
      assert row.newPayment.None?;
      FinishOriginates(u, v, h, a, row, Quietly(r.tool), grant, now);
      assert Perform(customers, u, r, key, grant, env, now) == FinishRun(v, h, a, Quietly(r.tool), grant, now);
    }
  }

  lemma {:induction false} FinishOriginates(u: Work, v: Work, h: Handled, a: nat, row: Action, quiet: bool,
                       grant: Option<Grant>, now: Micros)
    requires NamesClosed(u.tools.actions) && a <= |u.tools.actions| && row.newPayment.None?
    requires a < |u.tools.actions| ==> u.tools.actions[a].newPayment.None?
    requires v.payments == u.payments && v.tools.actions == Touched(u.tools.actions, a, row)
    requires HandledFrom(v, h, quiet) && BooksItsPayment(v, h)
    ensures a < |v.tools.actions| && Originates(u, FinishRun(v, h, a, quiet, grant, now).work)
  {
    TouchTwice(u.tools.actions, a, row, CompletedRow(row, h));
    FinishedBooks(v, h, a, quiet, grant, now);
    TouchOriginates(u, FinishRun(v, h, a, quiet, grant, now).work, a, CompletedRow(row, h));
  }

  lemma {:induction false} BlockedOriginates(u: Work, w: Work, r: Request, key: KeyId, grant: Option<Grant>, now: Micros)
    requires NamesClosed(u.tools.actions) && Nameless(u, key, grant)
    requires BlockedTools(u, w.tools, r, key, Reentered(grant), now) && w.payments == u.payments
    ensures Originates(u, w)
  {
    var a := UpsertAt(u, key, Reentered(grant));
    TouchOriginates(u, w, a, UpsertRow(u, r.tool, key, Reentered(grant), Blocked, None, now));
  }

  lemma {:induction false} AskedOriginates(u: Work, w: Work, r: Request, key: KeyId, ttl: int, now: Micros)
    requires NamesClosed(u.tools.actions) && Nameless(u, key, None)
    requires AskedTools(u, w.tools, r, key, ttl, now) && w.payments == u.payments
    ensures Originates(u, w)
  {
    TouchOriginates(u, w, UpsertAt(u, key, None), AskedRow(u, r, key, now));
  }

  lemma {:induction false} RunOriginates(customers: map<CustomerId, MerchantId>, u: Work, r: Request, key: KeyId,
                       grant: Option<Grant>, v: Verdict, ttl: int, env: Env, now: Micros)
    requires ValidInput(r) && NamesClosed(u.tools.actions) && Nameless(u, key, grant)
    ensures var ran := RunJudged(customers, u, r, key, grant, v, ttl, env, now);
            ran.Lost? || Originates(u, ran.work)
  {
    var ran := RunJudged(customers, u, r, key, grant, v, ttl, env, now);
    RunJudgedShape(customers, u, r, key, grant, v, ttl, env, now);
    if ran.Raised? {
      SameRowsOriginate(u, ran.work);
    } else if ran.Finished? {
      match ran.result.outcome {
        case RunBlocked => BlockedOriginates(u, ran.work, r, key, grant, now);
        case NeedsApproval => AskedOriginates(u, ran.work, r, key, ttl, now);
        case _ =>
          PerformOriginates(customers, u, r, key, grant, env, now);
          assert ran == Perform(customers, u, r, key, grant, env, now);
      }
    }
  }

  lemma {:induction false} AimsAreNameless(db: Db, u: Work, r: Request, id: KeyId, grant: Option<Grant>)
    requires TablesSound(db, u.tools) && NamesClosed(u.tools.actions) && Aims(u, r, id, grant)
    requires Admission(u, r, id, grant.Some?).None?
    ensures Nameless(Opened(u, id, r), id, grant)
  {
    if grant.None? {
      NewKeyHasNoRow(db, u, r, id);
    } else {
      assert NamesOnceClosed(u.tools.actions[grant.value.action]);
    }
  }

  lemma {:induction false} ExecuteOriginates(db: Db, u: Work, r: Request, key: Key, grant: Option<Grant>, env: Env)
    requires u.row.merchant in db.merchants
    requires TablesSound(db, u.tools) && NamesClosed(u.tools.actions) && Aims(u, r, KeyId(u.row.merchant, key), grant)
    ensures var done := Execute(db.customers, u, r, key, grant, db.merchants[u.row.merchant], env, db.clock);
            done.Crashed? || Originates(u, done.work)
  {
    var id, settings, now := KeyId(u.row.merchant, key), db.merchants[u.row.merchant], db.clock;
    if Admission(u, r, id, grant.Some?).None? {
      var begun := Opened(u, id, r);
      var v := Judged(begun, r, settings, env, now);
      AimsAreNameless(db, u, r, id, grant);
      RunOriginates(db.customers, begun, r, id, grant, v, settings.approvalTtl, env, now);
      var ran := RunJudged(db.customers, begun, r, id, grant, v, settings.approvalTtl, env, now);
      if !ran.Lost? {
        ConclusionOriginates(u, r, id, ran);
      }
      assert Execute(db.customers, u, r, key, grant, settings, env, now) == Conclude(begun, id, r, ran);
    } else {
      SameRowsOriginate(u, u);
    }
  }

  lemma {:induction false} ConclusionOriginates(u: Work, r: Request, id: KeyId, ran: Ran)
    requires !ran.Lost? && Originates(Opened(u, id, r), ran.work)
    ensures Originates(u, Conclude(Opened(u, id, r), id, r, ran).work)
  {
  }

  /* ----- One step ----- */

  lemma {:induction false} RecordedOriginates(u: Work, kind: ActionKind, d: Decision, ttl: int, now: Micros)
    requires NamesClosed(u.tools.actions)
    ensures Originates(u, Recorded(u, kind, d, ttl, now))
  {
    RecordedKeepsCase(u, kind, d, ttl, now);
    var status := match d case Deny(_) => Blocked case Ask => ApprovalRequired case Go => Pending;
    var request := if d.Ask? then Some(PlannedRequest(kind, now)) else None;
    PlanOriginates(u, kind, status, request, now);
    if d.Ask? {
      var v, a := Plan(u, kind, status, request, now), PlannedAt(u, kind);
      AskOriginates(v, a, ttl, now);
      OriginatesInTwo(u, v, AskApproval(v, a, ttl, now));
    }
  }

  lemma {:induction false} PlanOriginates(u: Work, kind: ActionKind, status: ActionStatus, request: Option<Request>,
          now: Micros)
    requires NamesClosed(u.tools.actions)
    ensures Originates(u, Plan(u, kind, status, request, now))
  {
    if FindAction(u.tools.actions, PlannedKeyId(u, kind)).None? {
      var row := Action(PlannedKeyId(u, kind), u.id, kind, status, u.row.amountAtRisk, now, None, None, request, None);
      TouchOriginates(u, Plan(u, kind, status, request, now), |u.tools.actions|, row);
    }
  }

  lemma {:induction false} AskOriginates(u: Work, a: nat, ttl: int, now: Micros)
    requires NamesClosed(u.tools.actions) && a < |u.tools.actions|
    ensures Originates(u, AskApproval(u, a, ttl, now))
  {
    assert NamesOnceClosed(u.tools.actions[a]);
    TouchOriginates(u, AskApproval(u, a, ttl, now), a, u.tools.actions[a].(fingerprint := Some(FingerprintOf(u.row))));
  }

  /** Two pieces of work in a row, of which the first books nothing. */
  lemma {:induction false} OriginatesInTwo(u: Work, v: Work, w: Work)
    requires Originates(u, v) && Originates(v, w) && v.payments == u.payments
    ensures Originates(u, w)
  {
    forall k | 0 <= k < |u.tools.actions| ensures NamesOn(u.tools.actions[k], w.tools.actions[k]) {
      assert NamesOn(u.tools.actions[k], v.tools.actions[k]);
      assert NamesOn(v.tools.actions[k], w.tools.actions[k]);
    }
    forall row | row in w.tools.actions && row.newPayment.Some?
      ensures Names(u.tools.actions, row.newPayment.value) || BooksAs(u.payments, w.payments, row) {
      if Names(v.tools.actions, row.newPayment.value) {
        var x :| x in v.tools.actions && x.newPayment == row.newPayment;
        assert Names(u.tools.actions, x.newPayment.value) || BooksAs(u.payments, v.payments, x);
      }
    }
  }

  lemma {:induction false} DecidedOriginates(v: Work, d: Decision, ttl: int, now: Micros)
    requires NamesClosed(v.tools.actions) && v.row.status == PolicyCheck
    ensures Originates(v, ProcessDecided(v, d, ttl, now))
  {
    DecidedTools(v, d, ttl, now);
    RecordedOriginates(v, ChosenAction(v.row, v.payments), d, ttl, now);
    ProcessDecidedKeeps(v, d, ttl, now);
  }

  lemma {:induction false} ProcessOriginates(u: Work, settings: PolicySettings, env: Env, now: Micros)
    requires NamesClosed(u.tools.actions)
    ensures Originates(u, ProcessLocked(u, settings, env, now))
  {
    WalkKeeps(u, now);
    var v := Walked(u, now);
    if v.row.status == PolicyCheck {
      var d := ProcessDecision(v, settings, env, now);
      DecidedOriginates(v, d, settings.approvalTtl, now);
      assert !SettledForProcessing(u.row.status) ==>
               ProcessLocked(u, settings, env, now) == ProcessDecided(v, d, settings.approvalTtl, now);
    }
  }

  lemma {:induction false} RejectOriginates(u: Work, a: nat, now: Micros)
    requires NamesClosed(u.tools.actions)
    ensures Originates(u, Reject(u, a, now))
  {
    var found := FindApproval(u, a);
    if found.Some? {
      TouchOriginates(u, SetAction(u, a, ActionCancelled), a, u.tools.actions[a].(status := ActionCancelled));
      assert Reject(u, a, now).tools.actions == SetAction(u, a, ActionCancelled).tools.actions;
    }
  }

  lemma {:induction false} QuietOriginates(db: Db, op: Op, env: Env, w: Work)
    requires Locks(db, op) && QuietWork(db, op, env, w) && NamesClosed(db.tools.actions)
    ensures Originates(Begin(db, CaseOf(op).value), w)
  {
    var u := Begin(db, CaseOf(op).value);
    if op.RejectAction? {
      RejectOriginates(u, op.action, db.clock);
    } else {
      ProcessIsQuiet(u, db.merchants[u.row.merchant], env, db.clock);
      ProcessOriginates(u, db.merchants[u.row.merchant], env, db.clock);
    }
    if w.tools.actions == u.tools.actions {
      SameRowsOriginate(u, w);
    }
  }

  /** Giving an approval names nothing by itself, and aims at an open row of the case. */
  lemma {:induction false} AttemptOriginates(db: Db, op: Op)
    requires Locks(db, op) && AttemptOf(db, op).Attempt?
    requires TablesSound(db, db.tools) && NamesClosed(db.tools.actions)
    ensures var at := AttemptOf(db, op);
            && Originates(Begin(db, CaseOf(op).value), at.start) && at.start.payments == db.payments
            && TablesSound(db, at.start.tools)
            && Aims(at.start, at.request, KeyId(at.start.row.merchant, at.key), at.grant)
  {
    var u := Begin(db, CaseOf(op).value);
    if op.ApproveAction? {
      var a, n := op.action, FindApproval(u, op.action).value;
      var v := ExpireIfNeeded(u, n, db.clock);
      DecisionOnApprovalKeepsTables(db, u, n, Expired);
      ApprovingAims(db, v, a, n);
      assert NamesOnceClosed(u.tools.actions[a]);
      TouchOriginates(u, Approving(v, a, n), a, u.tools.actions[a].(status := Approved));
    } else {
      SameRowsOriginate(u, u);
    }
  }

  lemma {:induction false} WorkOriginates(db: Db, op: Op, env: Env)
    requires Locks(db, op) && TablesSound(db, db.tools) && NamesClosed(db.tools.actions)
    ensures var done := Worked(db, op, env);
            done.Crashed? || Originates(Begin(db, CaseOf(op).value), done.work)
  {
    var at := AttemptOf(db, op);
    if at.NoAttempt? {
      NoAttemptIsQuiet(db, op, env);
      QuietOriginates(db, op, env, Worked(db, op, env).work);
    } else {
      AttemptOriginates(db, op);
      AttemptIsExecution(db, op, env);
      ExecuteOriginates(db, at.start, at.request, at.key, at.grant, env);
      var done := Execute(db.customers, at.start, at.request, at.key, at.grant, db.merchants[at.start.row.merchant], env,
                          db.clock);
      if done.Done? {
        OriginatesInTwo(Begin(db, CaseOf(op).value), at.start, done.work);
      }
    }
  }

  /* ----- The history of every payment ----- */

  /** A row names the payment, which its handler booked with the row's amount. */
  ghost predicate BornAs(actions: seq<Action>, p: PaymentId, born: Payment) {
    exists row <- actions :: row.newPayment == Some(p) && row.amount == born.amount
  }

  /** What a history makes of a payment. */
  function AllRetold(pay: Option<Payment>, es: seq<EventBody>): Option<Payment> {
    if es == [] then pay else Retold(AllRetold(pay, es[..|es| - 1]), es[|es| - 1])
  }

  lemma {:induction false} RetoldStays(pay: Payment, es: seq<EventBody>)
    ensures AllRetold(Some(pay), es).Some?
  {
    if es != [] {
      RetoldStays(pay, es[..|es| - 1]);
    }
  }

  function History(db: Db, p: PaymentId): seq<EventBody> {
    EventsOf(db.webhooks, EventLog(db.audit), p)
  }

  ghost predicate ToldFrom(db: Db, p: PaymentId, born: Payment) {
    BornAs(db.tools.actions, p, born) && Lookup(db.payments, p) == AllRetold(Some(born), History(db, p))
  }

  /** A payment that no row names is as its history tells it from nothing; any other is what
      its history makes of the provider's answer. */
  ghost predicate Explained(db: Db, p: PaymentId) {
    if Names(db.tools.actions, p) then exists born :: ToldFrom(db, p, born) else HistoryTells(db, p)
  }

  lemma {:induction false} StillBorn(actions: seq<Action>, actions': seq<Action>, p: PaymentId, born: Payment)
    requires AllNameOn(actions, actions') && BornAs(actions, p, born)
    ensures BornAs(actions', p, born) && Names(actions', p)
  {
    var row :| row in actions && row.newPayment == Some(p) && row.amount == born.amount;
    var k :| 0 <= k < |actions| && actions[k] == row;
    assert NamesOn(actions[k], actions'[k]);
    assert actions'[k] in actions';
  }

  /** A case step, seen from payments and events. */
  ghost predicate CaseWork(db: Db, db': Db) {
    && SameEvents(db, db') && LogsNothing(db, db')
    && AllNameOn(db.tools.actions, db'.tools.actions)
    && BooksNamed(db.payments, db'.payments, db.tools.actions, db'.tools.actions)
  }

  lemma {:induction false} CaseWorkExplains(db: Db, db': Db, p: PaymentId)
    requires LoggedOnce(db) && CaseWork(db, db') && Explained(db, p)
    ensures Explained(db', p)
  {
    SameHistory(db, db', p);
    assert History(db', p) == History(db, p);
    if Names(db.tools.actions, p) {
      var born :| ToldFrom(db, p, born);
      StillBorn(db.tools.actions, db'.tools.actions, p, born);
      RetoldStays(born, History(db, p));
      assert ToldFrom(db', p, born);
    } else if Names(db'.tools.actions, p) {
      var row :| row in db'.tools.actions && row.newPayment == Some(p);
      assert BooksAs(db.payments, db'.payments, row);
      assert BornAs(db'.tools.actions, p, db'.payments[p]);
      assert ToldFrom(db', p, db'.payments[p]);
    } else {
      assert Lookup(db'.payments, p) == Lookup(db.payments, p);
    }
  }

  lemma {:induction false} EventExplains(db: Db, db': Db, key: EventKey, now: Micros, p: PaymentId)
    requires LoggedOnce(db) && EventStep(db, db', key, now) && db'.tools == db.tools && Explained(db, p)
    ensures Explained(db', p)
  {
    if Names(db.tools.actions, p) {
      var born :| ToldFrom(db, p, born);
      EventTellsFrom(db, db', key, now, p, born);
      assert ToldFrom(db', p, born);
    } else {
      StepTells(db, db', key, now, p);
    }
  }

  lemma {:induction false} EventTellsFrom(db: Db, db': Db, key: EventKey, now: Micros, p: PaymentId, born: Payment)
    requires LoggedOnce(db) && EventStep(db, db', key, now) && db'.tools == db.tools && ToldFrom(db, p, born)
    ensures ToldFrom(db', p, born)
  {
    var es := History(db, p);
    if LogsOne(db, db', key, now) {
      HistoryAfter(db, db', key, now, p);
      PaymentAfter(db, db', key, now, p);
      if About(db.webhooks[key], key, p) {
        assert (es + [db.webhooks[key].body])[..|es|] == es;
      } else {
        assert es + [] == es;
      }
    } else {
      SameHistory(db, db', p);
      assert db'.payments == BooksOf(db').payments;
    }
  }

  lemma {:induction false} CaseStepIsCaseWork(db: Db, s: Step)
    requires TablesSound(db, db.tools) && NamesClosed(db.tools.actions) && !ConcernsEvents(s)
    ensures CaseWork(db, Next(db, s)) && NamesClosed(Next(db, s).tools.actions)
  {
    var t := Ticked(db, s);
    LaterKeepsTables(db, t, db.tools);
    CaseStepLogsNothing(db, s);
    NextShape(db, s);
    if Commits(db, s) {
      WorkOriginates(t, s.op, s.env);
    } else {
      assert Next(db, s) == t;
    }
  }

  lemma {:induction false} TimeExplains(db: Db, t: Db, p: PaymentId)
    requires Explained(db, p) && t == db.(clock := t.clock)
    ensures Explained(t, p)
  {
    if Names(db.tools.actions, p) {
      var born :| ToldFrom(db, p, born);
      assert ToldFrom(t, p, born);
    }
  }

  lemma {:induction false} NextExplains(db: Db, s: Step, p: PaymentId)
    requires TablesSound(db, db.tools) && NamesClosed(db.tools.actions) && LoggedOnce(db) && Explained(db, p)
    ensures NamesClosed(Next(db, s).tools.actions) && Explained(Next(db, s), p)
  {
    if ConcernsEvents(s) {
      var t := Ticked(db, s);
      EventStepShape(db, s);
      LogsNothingOnce(db, t);
      NextShape(db, s);
      TimeExplains(db, t, p);
      EventExplains(t, Next(db, s), KeyOf(s), db.clock + s.delay, p);
    } else {
      CaseStepIsCaseWork(db, s);
      CaseWorkExplains(db, Next(db, s), p);
    }
  }

  /** In any run of the whole engine, whatever is processed, verified, executed, approved or
      rejected in between: each payment that no action row names is told by its processed
      events alone, and each one that a row names started with that row's amount, before any
      event of its own, and is what its events have made of it since. */
  lemma {:induction false} EveryPaymentIsExplained(genesis: Db, steps: seq<Step>, p: PaymentId)
    requires genesis.audit == [] && genesis.webhooks == map[] && genesis.payments == map[] && genesis.tools == NO_TOOLS
    ensures NamesClosed(Run(genesis, steps).tools.actions) && Explained(Run(genesis, steps), p)
  {
    if steps != [] {
      var front := steps[..|steps| - 1];
      EveryPaymentIsExplained(genesis, front, p);
      RunKeepsTablesSound(genesis, front);
      EachEventOnce(genesis, front);
      NextExplains(Run(genesis, front), steps[|steps| - 1], p);
    }
  }

  /** So in any run of the whole engine, a payment that no action row names has the status of
      its last capture or refund if it has one, else of its last event; time and amount are
      its last capture's; and it exists exactly if it has processed events. */
  lemma {:induction false} PaymentsTellTheirHistory(genesis: Db, steps: seq<Step>, p: PaymentId)
    requires genesis.audit == [] && genesis.webhooks == map[] && genesis.payments == map[] && genesis.tools == NO_TOOLS
    requires !Names(Run(genesis, steps).tools.actions, p)
    ensures HistoryTells(Run(genesis, steps), p)
  {
    EveryPaymentIsExplained(genesis, steps, p);
  }

  /* ----- Where cases come from ----- */

  predicate Opens(db: Db, s: Step) {
    |Next(db, s).cases| > |db.cases|
  }

  /** A waiting failure, which can be applied, of a payment that has no open case. */
  predicate MayOpen(db: Db, key: EventKey) {
    && Waiting(db, key)
    && var w := db.webhooks[key];
       && TreatmentOf(db.merchants.Keys, db.customers, db.payments, key, w).Apply?
       && w.body.kind.FailedEvent? && !HasOpenCase(db.cases, PaymentOf(w, key.provider))
  }

  /** The case that a failure opens: of its payment and merchant, at the amount on record. */
  predicate OpenedBy(c: Case, w: Webhook, key: EventKey) {
    && w.body.PaymentEvent? && w.body.kind.FailedEvent?
    && c.merchant == w.merchant && c.payment == Some(PaymentOf(w, key.provider))
  }

  /** A failure that has been processed and opened case k. */
  predicate OpenerOf(db: Db, k: nat, key: EventKey) {
    k < |db.cases| && IsProcessed(db.webhooks, key) && OpenedBy(db.cases[k], db.webhooks[key], key)
  }

  /** A step opens a case exactly when it processes such a failure, and then one case. */
  lemma {:induction false} CaseOpensIff(db: Db, s: Step)
    ensures Opens(db, s) <==> s.op.ProcessEvent? && MayOpen(db, s.op.key)
    ensures Opens(db, s) ==>
              var cases, p := Next(db, s).cases, PaymentOf(db.webhooks[s.op.key], s.op.key.provider);
              && |cases| == |db.cases| + 1 && cases[..|db.cases|] == db.cases
              && OpenedBy(cases[|db.cases|], db.webhooks[s.op.key], s.op.key)
              && p in Next(db, s).payments && cases[|db.cases|].amountAtRisk == Next(db, s).payments[p].amount
              && HasOpenCase(cases, p) && IsProcessed(Next(db, s).webhooks, s.op.key)
  {
    var t := Ticked(db, s);
    if s.op.ProcessEvent? {
      ProcessingOpensIff(t, s.op.key, t.clock);
      assert Next(db, s) == EventProcessed(t, s.op.key, t.clock);
    } else {
      NoEventNoCase(db, s);
    }
  }

  lemma {:induction false} ProcessingOpensIff(db: Db, key: EventKey, now: Micros)
    ensures var db' := EventProcessed(db, key, now);
            if MayOpen(db, key) then
              var p := PaymentOf(db.webhooks[key], key.provider);
              && |db'.cases| == |db.cases| + 1 && db'.cases[..|db.cases|] == db.cases
              && OpenedBy(db'.cases[|db.cases|], db.webhooks[key], key)
              && p in db'.payments && db'.cases[|db.cases|].amountAtRisk == db'.payments[p].amount
              && HasOpenCase(db'.cases, p) && IsProcessed(db'.webhooks, key)
            else db'.cases == db.cases
  {
    var db' := EventProcessed(db, key, now);
    if MayOpen(db, key) {
      assert OpenFor(db'.cases[|db.cases|], PaymentOf(db.webhooks[key], key.provider));
    }
  }

  lemma {:induction false} NoEventNoCase(db: Db, s: Step)
    requires !s.op.ProcessEvent?
    ensures !Opens(db, s)
  {
    NextShape(db, s);
  }

  /** The failures whose processing opened the cases of a run, in order. */
  ghost function Openers(genesis: Db, steps: seq<Step>): seq<EventKey> {
    if steps == [] then []
    else
      var db, s := Run(genesis, steps[..|steps| - 1]), steps[|steps| - 1];
      Openers(genesis, steps[..|steps| - 1]) + if s.op.ProcessEvent? && Opens(db, s) then [s.op.key] else []
  }

  ghost predicate OpenedInOrder(db: Db, openers: seq<EventKey>) {
    && |openers| == |db.cases|
    && (forall k | 0 <= k < |openers| :: OpenerOf(db, k, openers[k]))
    && forall i, j | 0 <= i < j < |openers| :: openers[i] != openers[j]
  }

  lemma {:induction false} NextOpensInOrder(db: Db, s: Step, openers: seq<EventKey>)
    requires OpenedInOrder(db, openers)
    ensures OpenedInOrder(Next(db, s), openers + if s.op.ProcessEvent? && Opens(db, s) then [s.op.key] else [])
  {
    var db' := Next(db, s);
    CaseOpensIff(db, s);
    StillOpenedBy(db, s, openers);
    NewCases(db, s);
  }

  lemma {:induction false} StillOpenedBy(db: Db, s: Step, openers: seq<EventKey>)
    requires OpenedInOrder(db, openers)
    ensures forall k | 0 <= k < |openers| :: OpenerOf(Next(db, s), k, openers[k])
  {
    EventsStay(db, s);
    forall k | 0 <= k < |openers| ensures OpenerOf(Next(db, s), k, openers[k]) {
      assert OpenerOf(db, k, openers[k]) && IsProcessed(db.webhooks, openers[k]);
      NextFreezes(db, s, k);
    }
  }

  /** One case per failure, in any run of the whole engine: each case was opened by a
      processed failure of its own payment, and no failure opened two. */
  lemma {:induction false} EveryCaseHasItsFailure(genesis: Db, steps: seq<Step>)
    requires genesis.cases == []
    ensures OpenedInOrder(Run(genesis, steps), Openers(genesis, steps))
  {
    if steps != [] {
      var front := steps[..|steps| - 1];
      EveryCaseHasItsFailure(genesis, front);
      NextOpensInOrder(Run(genesis, front), steps[|steps| - 1], Openers(genesis, front));
    }
  }
}
