/** Rebuilding a case's lifecycle from nothing but its audit rows. */
module Replay {
  import opened Domain
  import opened StateMachine
  import opened Store

  /** The part of a case that the audit log determines. */
  datatype Life = Life(status: CaseStatus, version: nat, closedAt: Option<Micros>, recovered: nat)

  const BORN := Life(Detected, 1, None, 0)

  function LifeOf(c: Case): Life {
    Life(c.status, c.version, c.closedAt, c.amountRecovered)
  }

  /** The life after one more audit row; None when the row does not continue it. */
  function After(life: Option<Life>, e: AuditEntry): Option<Life> {
    if life.None? then None
    else
      var l := life.value;
      match e
      case Moved(from, to, version, at) =>
        if from == l.status && Raises(from, to) && version == l.version + 1
        then Some(l.(status := to, version := version, closedAt := if Terminal(to) then Some(at) else None))
        else None
      case AmountUpdated(previous, current) =>
        if previous == l.recovered then Some(l.(recovered := current)) else None
      case MoveRejected(_, _) => life
      case EventDone(_, _) => life
  }

  function Replayed(life: Option<Life>, log: seq<AuditEntry>): Option<Life> {
    if log == [] then life else After(Replayed(life, log[..|log| - 1]), log[|log| - 1])
  }

  lemma {:induction false} ReplayInTwoParts(life: Option<Life>, a: seq<AuditEntry>, b: seq<AuditEntry>)
    ensures Replayed(life, a + b) == Replayed(Replayed(life, a), b)
  {
    if b == [] {
      assert a + b == a;
    } else {
      assert (a + b)[..|a + b| - 1] == a + b[..|b| - 1];
      ReplayInTwoParts(life, a, b[..|b| - 1]);
    }
  }

  lemma {:induction false} ReplayOneMore(life: Option<Life>, a: seq<AuditEntry>, e: AuditEntry)
    ensures Replayed(life, a + [e]) == After(Replayed(life, a), e)
  {
    assert (a + [e])[..|a + [e]| - 1] == a;
  }

  /** The number of transitions that a log records. */
  function Moves(log: seq<AuditEntry>): nat {
    if log == [] then 0 else Moves(log[..|log| - 1]) + if log[|log| - 1].Moved? then 1 else 0
  }

  /** A log that replays counts its transitions in the version, and cannot hold more
      of them than the ranks it climbed. */
  lemma {:induction false} ReplayCounts(life: Life, log: seq<AuditEntry>)
    requires Replayed(Some(life), log).Some?
    ensures var end := Replayed(Some(life), log).value;
            && end.version == life.version + Moves(log)
            && Rank(life.status) + Moves(log) <= Rank(end.status)
  {
    if log != [] {
      ReplayCounts(life, log[..|log| - 1]);
    }
  }

  /** The audit rows about case i, in the order they were written. */
  function CaseLog(audit: seq<AuditRow>, i: nat): seq<AuditEntry> {
    if audit == [] then []
    else
      var last := audit[|audit| - 1];
      CaseLog(audit[..|audit| - 1], i) + if last.caseId == Some(i) then [last.entry] else []
  }

  lemma {:induction false} CaseLogInTwoParts(a: seq<AuditRow>, b: seq<AuditRow>, i: nat)
    ensures CaseLog(a + b, i) == CaseLog(a, i) + CaseLog(b, i)
  {
    if b == [] {
      assert a + b == a;
    } else {
      assert (a + b)[..|a + b| - 1] == a + b[..|b| - 1];
      CaseLogInTwoParts(a, b[..|b| - 1], i);
    }
  }

  lemma {:induction false} CaseLogOfTag(j: nat, log: seq<AuditEntry>, i: nat)
    ensures CaseLog(Tag(j, log), i) == if i == j then log else []
  {
    if log != [] {
      var front := log[..|log| - 1];
      assert Tag(j, log)[..|log| - 1] == Tag(j, front);
      CaseLogOfTag(j, front, i);
      assert log == front + [log[|log| - 1]];
    }
  }

  /** Committing a unit of work extends the log of its case only. */
  lemma {:induction false} CommitExtendsOneLog(db: Db, i: nat, w: Work, j: nat)
    requires i < |db.cases|
    ensures CaseLog(Commit(db, i, w).audit, j) == CaseLog(db.audit, j) + if j == i then w.log else []
  {
    CaseLogInTwoParts(db.audit, Tag(i, w.log), j);
    CaseLogOfTag(i, w.log, j);
  }
}
