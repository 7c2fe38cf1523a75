/** The sliding-window limit on communications with a customer. */
module Quotas {
  import opened Domain
  import opened Store
  import opened Policy
  import opened PolicyContext
  import opened Execution
  import opened Engine
  import opened Ledger
  import opened Gating

  /** The notifications to a customer in the closed 24 hours that start at `from`. */
  function NoticesInDay(notices: seq<Notice>, m: MerchantId, c: CustomerId, from: int): nat {
    if notices == [] then 0
    else
      var n := notices[|notices| - 1];
      NoticesInDay(notices[..|notices| - 1], m, c, from)
      + if n.merchant == m && n.customer == c && from <= n.at <= from + MICROS_PER_DAY then 1 else 0
  }

  /** The limit that the settings stand for; a negative one allows nothing, like zero. */
  function Quota(limit: int): nat {
    if limit < 0 then 0 else limit
  }

  ghost predicate WithinQuota(db: Db) {
    forall m, c, from | m in db.merchants ::
      NoticesInDay(db.tools.notices, m, c, from) <= Quota(db.merchants[m].maxCommunications)
  }

  lemma {:induction false} DayIsSince(notices: seq<Notice>, m: MerchantId, c: CustomerId, from: int, since: int)
    requires since <= from
    ensures NoticesInDay(notices, m, c, from) <= NoticesSince(notices, m, c, since)
  {
    if notices != [] {
      DayIsSince(notices[..|notices| - 1], m, c, from, since);
    }
  }

  lemma {:induction false} OneMoreNotice(notices: seq<Notice>, n: Notice, m: MerchantId, c: CustomerId, from: int)
    ensures NoticesInDay(notices + [n], m, c, from) ==
            NoticesInDay(notices, m, c, from) + if n.merchant == m && n.customer == c
                && from <= n.at <= from + MICROS_PER_DAY then 1 else 0
  {
    assert (notices + [n])[..|notices + [n]| - 1] == notices;
  }

  /** A step notifies nobody, or one customer who had fewer notices than the limit in the
      24 hours before. */
  ghost predicate NotifiesFairly(db: Db, notices: seq<Notice>) {
    || notices == db.tools.notices
    || (&& |notices| == |db.tools.notices| + 1
        && var n := notices[|db.tools.notices|];
           && notices == db.tools.notices + [n] && n.at == db.clock && n.merchant in db.merchants
           && NoticesSince(db.tools.notices, n.merchant, n.customer, db.clock - MICROS_PER_DAY)
              < db.merchants[n.merchant].maxCommunications)
  }

  lemma {:induction false} GateLimitsNotices(u: Work, r: Request, grant: Option<Grant>, settings: PolicySettings,
          env: Env, now: Micros)
    requires r.tool.SendReminder? && GateOpen(u, r, grant, settings, env, now)
    ensures NoticesSince(u.tools.notices, u.row.merchant, u.row.customer, now - MICROS_PER_DAY) < settings.maxCommunications
  {
    AllowedIff(BuildContext(u.row, u.id, u.tools, settings, env, now), ProposalOf(r));
  }

  lemma {:induction false} EffectsNotifyFairly(db: Db, u: Work, w: Work, r: Request, id: KeyId, grant: Option<Grant>,
          env: Env)
    requires u.row.merchant in db.merchants && u.tools.notices == db.tools.notices
    requires Effects(u, w, r, id, GateOpen(u, r, grant, db.merchants[u.row.merchant], env, db.clock), db.clock)
    ensures NotifiesFairly(db, w.tools.notices)
  {
    if w.tools.notices != u.tools.notices {
      GateLimitsNotices(u, r, grant, db.merchants[u.row.merchant], env, db.clock);
    }
  }

  lemma {:induction false} WorkNotifiesFairly(db: Db, op: Op, env: Env)
    requires Locks(db, op)
    ensures var done := Worked(db, op, env);
            done.Crashed? || NotifiesFairly(db, done.work.tools.notices)
  {
    var at, done := AttemptOf(db, op), Worked(db, op, env);
    WorkEffects(db, op, env);
    if done.Done? && at.Attempt? {
      EffectsNotifyFairly(db, at.start, done.work, at.request, KeyId(at.start.row.merchant, at.key), at.grant, env);
    }
  }

  lemma {:induction false} FairNoticeKeepsQuota(db: Db, db': Db)
    requires WithinQuota(db) && NotifiesFairly(db, db'.tools.notices) && db'.merchants == db.merchants
    ensures WithinQuota(db')
  {
    var past, notices := db.tools.notices, db'.tools.notices;
    forall m, c, from | m in db'.merchants
      ensures NoticesInDay(notices, m, c, from) <= Quota(db'.merchants[m].maxCommunications)
    {
      assert NoticesInDay(past, m, c, from) <= Quota(db.merchants[m].maxCommunications);
      if notices != past {
        var n := notices[|past|];
        OneMoreNotice(past, n, m, c, from);
        if n.merchant == m && n.customer == c && from <= n.at <= from + MICROS_PER_DAY {
          DayIsSince(past, m, c, from, n.at - MICROS_PER_DAY);
        }
      }
    }
  }

  lemma {:induction false} NextKeepsQuota(db: Db, s: Step)
    requires WithinQuota(db)
    ensures WithinQuota(Next(db, s))
  {
    NextShape(db, s);
    if Commits(db, s) {
      WorkNotifiesFairly(Ticked(db, s), s.op, s.env);
    }
    FairNoticeKeepsQuota(Ticked(db, s), Next(db, s));
  }

  /** Sliding-window limit: in any 24 hours, however placed, a customer of a merchant gets at
      most the merchant's limit of notifications, over runs that mix cases, replays and
      approvals in any way. */
  lemma {:induction false} CommunicationsStayWithinQuota(genesis: Db, steps: seq<Step>, m: MerchantId, c: CustomerId,
          from: int)
    requires genesis.tools == NO_TOOLS && m in genesis.merchants
    ensures NoticesInDay(Run(genesis, steps).tools.notices, m, c, from) <= Quota(genesis.merchants[m].maxCommunications)
  {
    QuotaInRuns(genesis, steps);
  }

  lemma {:induction false} QuotaInRuns(genesis: Db, steps: seq<Step>)
    requires genesis.tools == NO_TOOLS
    ensures Run(genesis, steps).merchants == genesis.merchants && WithinQuota(Run(genesis, steps))
  {
    if steps != [] {
      var front := steps[..|steps| - 1];
      QuotaInRuns(genesis, front);
      NextShape(Run(genesis, front), steps[|steps| - 1]);
      NextKeepsQuota(Run(genesis, front), steps[|steps| - 1]);
    }
  }
}
