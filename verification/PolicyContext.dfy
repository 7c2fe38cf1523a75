/** The counts and sums that the policy engine reads from the store. */
module PolicyContext {
  import opened Domain
  import opened Policy

  const COUNTED_RETRIES := {Pending, Planned, ApprovalRequired, Approved, Running, Succeeded, Completed}
  const COUNTED_DISCOUNTS := {Succeeded, Completed, Running, Pending, Approved, ApprovalRequired}
  const IDENTITY_MISMATCHES := {MerchantMismatch, CustomerMismatch, OrderMismatch, PaymentMismatch}

  function RetryCount(actions: seq<Action>, caseId: nat): nat {
    if actions == [] then 0
    else
      var a := actions[|actions| - 1];
      RetryCount(actions[..|actions| - 1], caseId)
      + if a.caseId == caseId && a.kind in RETRY_ACTIONS && a.status in COUNTED_RETRIES then 1 else 0
  }

  /** The notifications to a customer of a merchant from `since` on. */
  function NoticesSince(notices: seq<Notice>, m: MerchantId, c: CustomerId, since: int): nat {
    if notices == [] then 0
    else
      var n := notices[|notices| - 1];
      NoticesSince(notices[..|notices| - 1], m, c, since)
      + if n.merchant == m && n.customer == c && n.at >= since then 1 else 0
  }

  function StartOfDay(now: Micros): Micros {
    now - now % MICROS_PER_DAY
  }

  /** The money in discount rows of a merchant created from `since` on. */
  function DiscountSince(actions: seq<Action>, m: MerchantId, since: Micros): nat {
    if actions == [] then 0
    else
      var a := actions[|actions| - 1];
      DiscountSince(actions[..|actions| - 1], m, since)
      + if a.keyId.merchant == m && a.kind == OfferDiscount && a.status in COUNTED_DISCOUNTS && a.createdAt >= since
        then a.amount else 0
  }

  function BuildContext(c: Case, caseId: nat, tools: Tools, settings: PolicySettings, env: Env, now: Micros): Context {
    var mistaken := c.mismatch.Some? && c.mismatch.value in IDENTITY_MISMATCHES;
    Context(
      c.amountAtRisk,
      settings,
      now,
      RetryCount(tools.actions, caseId),
      NoticesSince(tools.notices, c.merchant, c.customer, now - MICROS_PER_DAY),
      DiscountSince(tools.actions, c.merchant, StartOfDay(now)),
      env.blocked,
      env.optedOut,
      env.suspicious || mistaken,
      env.sourceMismatch || mistaken,
      env.discountEligible)
  }
}
