/** No payment is counted twice, and no money is recovered that was not captured: over all
    cases of all merchants, in every reachable state. */
module Conservation {
  import opened Domain
  import opened Store
  import opened Verification
  import opened Lifecycle
  import opened Crediting
  import opened Engine
  import opened Ledger

  /** A positive credit is covered by what its verified payment had captured. */
  ghost predicate Backed(c: Case, credited: map<PaymentId, nat>) {
    c.amountRecovered > 0 ==>
      && c.verifiedPayment.Some? && c.verifiedPayment.value.merchant == c.merchant
      && c.verifiedPayment.value in credited
      && c.amountRecovered <= credited[c.verifiedPayment.value]
  }

  ghost predicate CountedTwice(a: Case, b: Case) {
    a.amountRecovered > 0 && b.amountRecovered > 0 && a.verifiedPayment == b.verifiedPayment
  }

  ghost predicate Booked(cases: seq<Case>, credited: map<PaymentId, nat>) {
    && (forall i | 0 <= i < |cases| :: Backed(cases[i], credited))
    && (forall i, j | 0 <= i < j < |cases| :: !CountedTwice(cases[i], cases[j]))
  }

  /** Crediting one case keeps the books. */
  lemma {:induction false} CreditKeepsBooked(db: Db, u: Work, w: Work, p: PaymentId, event: Option<EventKey>)
    requires Booked(db.cases, db.creditedFrom) && u.id < |db.cases| && u == Begin(db, u.id)
    requires Evidence(db, u, p) && !Counted(db, u, p, event) && Books(w, u, p, event) && SameIdentity(u.row, w.row)
    ensures Booked(db.cases[u.id := w.row], w.creditedFrom)
  {
    var cases := db.cases[u.id := w.row];
    forall j | 0 <= j < |cases| && j != u.id ensures Backed(cases[j], w.creditedFrom) && !CountedTwice(cases[j], w.row) {
      assert Backed(db.cases[j], db.creditedFrom);
      assert db.cases[j].amountRecovered > 0 ==> db.cases[j].verifiedPayment != Some(p);
    }
    forall i, j | 0 <= i < j < |cases| ensures !CountedTwice(cases[i], cases[j]) {
      if i != u.id && j != u.id {
        assert !CountedTwice(db.cases[i], db.cases[j]);
      }
    }
  }

  lemma {:induction false} SameMoneyKeepsBooked(cases: seq<Case>, credited: map<PaymentId, nat>, i: nat, row: Case)
    requires Booked(cases, credited) && i < |cases| && SameMoney(cases[i], row) && SameIdentity(cases[i], row)
    ensures Booked(cases[i := row], credited)
  {
    var after := cases[i := row];
    forall j, k | 0 <= j < k < |after| ensures !CountedTwice(after[j], after[k]) {
      assert !CountedTwice(cases[j], cases[k]);
    }
  }

  lemma {:induction false} WorkKeepsBooked(db: Db, op: Op, env: Env)
    requires Booked(db.cases, db.creditedFrom) && Locks(db, op) && Worked(db, op, env).Done?
    ensures var i, w := CaseOf(op).value, Worked(db, op, env).work;
            Booked(db.cases[i := w.row], w.creditedFrom)
  {
    var u, w := Begin(db, CaseOf(op).value), Worked(db, op, env).work;
    WorkedKeeps(db, op, env);
    if op.VerifyCase? {
      var settings := db.merchants[u.row.merchant];
      VerifyCredits(db, u, op.payment, op.event, settings, env, db.clock);
      if Creditable(db, u, op.payment, op.event, settings, env, db.clock) {
        CreditKeepsBooked(db, u, w, Target(u, op.payment).value, op.event);
      } else {
        SameMoneyKeepsBooked(db.cases, db.creditedFrom, u.id, w.row);
      }
    } else {
      SameMoneyKeepsBooked(db.cases, db.creditedFrom, u.id, w.row);
    }
  }

  lemma {:induction false} RunKeepsBooked(genesis: Db, steps: seq<Step>)
    requires genesis.cases == []
    ensures var db := Run(genesis, steps); Booked(db.cases, db.creditedFrom)
  {
    if steps != [] {
      var before, s := steps[..|steps| - 1], steps[|steps| - 1];
      RunKeepsBooked(genesis, before);
      var db := Run(genesis, before);
      NextShape(db, s);
      if Commits(db, s) {
        WorkKeepsBooked(Ticked(db, s), s.op, s.env);
      } else {
        GrowthKeepsBooked(Ticked(db, s), Next(db, s));
      }
    }
  }

  lemma {:induction false} GrowthKeepsBooked(db: Db, db': Db)
    requires Booked(db.cases, db.creditedFrom) && LedgerGrows(db, db')
    ensures Booked(db'.cases, db'.creditedFrom)
  {
    forall j, k | 0 <= j < k < |db'.cases| ensures !CountedTwice(db'.cases[j], db'.cases[k]) {
      assert k < |db.cases| ==> !CountedTwice(db.cases[j], db.cases[k]);
    }
    forall j | 0 <= j < |db'.cases| ensures Backed(db'.cases[j], db'.creditedFrom) {
      assert j < |db.cases| ==> Backed(db.cases[j], db.creditedFrom) && db'.cases[j] == db.cases[j];
    }
  }

  /** No payment is the verified payment of two cases with positive credit, across merchants. */
  lemma {:induction false} NoPaymentCountsTwice(genesis: Db, steps: seq<Step>, i: nat, j: nat)
    requires genesis.cases == []
    requires i < |Run(genesis, steps).cases| && j < |Run(genesis, steps).cases| && i != j
    ensures var cases := Run(genesis, steps).cases;
            cases[i].amountRecovered > 0 && cases[j].amountRecovered > 0 ==>
              cases[i].verifiedPayment.Some? && cases[i].verifiedPayment != cases[j].verifiedPayment
  {
    RunKeepsBooked(genesis, steps);
    var cases := Run(genesis, steps).cases;
    assert Backed(cases[i], Run(genesis, steps).creditedFrom);
    assert i < j ==> !CountedTwice(cases[i], cases[j]);
    assert j < i ==> !CountedTwice(cases[j], cases[i]);
  }

  /* ----- Conservation ----- */

  function TotalRecovered(cases: seq<Case>): nat {
    if cases == [] then 0 else TotalRecovered(cases[..|cases| - 1]) + cases[|cases| - 1].amountRecovered
  }

  ghost function CountedPayments(cases: seq<Case>): set<PaymentId> {
    set c | c in cases && c.amountRecovered > 0 && c.verifiedPayment.Some? :: c.verifiedPayment.value
  }

  ghost function Total(ps: set<PaymentId>, amounts: map<PaymentId, nat>): nat
    requires ps <= amounts.Keys
  {
    if ps == {} then 0
    else
      var p :| p in ps;
      amounts[p] + Total(ps - {p}, amounts)
  }

  lemma {:induction false} TotalOfOneMore(ps: set<PaymentId>, p: PaymentId, amounts: map<PaymentId, nat>)
    requires ps + {p} <= amounts.Keys && p !in ps
    ensures Total(ps + {p}, amounts) == amounts[p] + Total(ps, amounts)
    decreases |ps|
  {
    var all := ps + {p};
    var q :| q in all && Total(all, amounts) == amounts[q] + Total(all - {q}, amounts);
    if q == p {
      assert all - {p} == ps;
    } else {
      var rest := ps - {q};
      assert all - {q} == rest + {p} && ps == rest + {q};
      TotalOfOneMore(rest, p, amounts);
      TotalOfOneMore(rest, q, amounts);
    }
  }

  lemma {:induction false} CountedIsCovered(cases: seq<Case>, credited: map<PaymentId, nat>)
    requires Booked(cases, credited)
    ensures CountedPayments(cases) <= credited.Keys
    ensures TotalRecovered(cases) <= Total(CountedPayments(cases), credited)
  {
    if cases != [] {
      var n := |cases| - 1;
      var front, c := cases[..n], cases[n];
      assert forall i | 0 <= i < n :: front[i] == cases[i];
      assert cases == front + [c];
      CountedIsCovered(front, credited);
      assert Backed(c, credited);
      if c.amountRecovered > 0 {
        var p := c.verifiedPayment.value;
        assert forall i | 0 <= i < n :: !CountedTwice(front[i], c);
        assert p !in CountedPayments(front);
        assert CountedPayments(cases) == CountedPayments(front) + {p};
        TotalOfOneMore(CountedPayments(front), p, credited);
      } else {
        assert CountedPayments(cases) == CountedPayments(front);
      }
    }
  }

  /** The total recovered over all cases never exceeds the sum, over the distinct payments
      counted, of what each had captured when it was credited. */
  lemma {:induction false} RecoveryIsConserved(genesis: Db, steps: seq<Step>)
    requires genesis.cases == []
    ensures var db := Run(genesis, steps);
            && CountedPayments(db.cases) <= db.creditedFrom.Keys
            && TotalRecovered(db.cases) <= Total(CountedPayments(db.cases), db.creditedFrom)
  {
    RunKeepsBooked(genesis, steps);
    CountedIsCovered(Run(genesis, steps).cases, Run(genesis, steps).creditedFrom);
  }

  /** What is booked changes only in a verification, and then exactly when the case is
      creditable on the evidence in the store; no other step touches it. */
  lemma {:induction false} CreditNeedsEvidence(db: Db, s: Step, i: nat)
    requires i < |db.cases| && i < |Next(db, s).cases|
    requires !SameMoney(db.cases[i], Next(db, s).cases[i])
    ensures Locks(db, s.op) && s.op.VerifyCase? && CaseOf(s.op) == Some(i)
    ensures var t, u := Ticked(db, s), Begin(db, i);
            && Creditable(t, u, s.op.payment, s.op.event, db.merchants[u.row.merchant], s.env, t.clock)
            && Evidence(t, u, Target(u, s.op.payment).value)
  {
    NextShape(db, s);
    var t := Ticked(db, s);
    if Commits(db, s) {
      WorkedKeeps(t, s.op, s.env);
      if s.op.VerifyCase? && CaseOf(s.op) == Some(i) {
        var u := Begin(t, i);
        VerifyCredits(t, u, s.op.payment, s.op.event, db.merchants[u.row.merchant], s.env, t.clock);
      }
    }
  }

  lemma {:induction false} VerifyCommits(db: Db, s: Step)
    requires Locks(db, s.op) && s.op.VerifyCase?
    ensures var i, t := CaseOf(s.op).value, Ticked(db, s);
            Next(db, s) == Commit(t, i, Verify(t, Begin(t, i), s.op.payment, s.op.event, db.merchants[db.cases[i].merchant],
                                               s.env, t.clock))
  {
    assert Next(db, s) == CaseStepped(Ticked(db, s), s.op, s.env);
  }

  /** Two verifications of a case in a row, with the same payment and event, leave its ledger
      as the first one left it, from every state and however long the second one waits. */
  lemma {:induction false} VerifyingTwiceIsVerifyingOnce(db: Db, once: Step, twice: Step)
    requires Locks(db, once.op) && once.op.VerifyCase? && twice.op == once.op
    ensures var i := CaseOf(once.op).value;
            var db' := Next(db, once);
            SameLedger(db'.cases[i], Next(db', twice).cases[i])
  {
    var i, t := CaseOf(once.op).value, Ticked(db, once);
    var u, settings := Begin(t, i), db.merchants[db.cases[i].merchant];
    var w := Verify(t, u, once.op.payment, once.op.event, settings, once.env, t.clock);
    VerifyKeeps(t, u, once.op.payment, once.op.event, settings, once.env, t.clock);
    VerifyCommits(db, once);
    var db' := Commit(t, i, w);
    var t' := Ticked(db', twice);
    VerifyCommits(db', twice);
    VerifyTwice(t, u, t', Begin(t', i), once.op.payment, once.op.event, settings, once.env, twice.env, t.clock, t'.clock);
  }
}
