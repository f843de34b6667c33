/**
 The two clocks that must agree: when a sale may be paid out to the provider (`isRevenueReleasedForPayout`) and
 when cancelling still earns the buyer a refund (`getRefundPolicyForProvider`). Instants are milliseconds.
 */
module RefundWindow {
  import opened Wrappers

  const HOUR_MS := 60 * 60 * 1000
  const DEFAULT_DEADLINE_HOURS := 24

  /** A row of `provider_refund_policies`; a provider without one has refunds off. */
  datatype Policy = Policy(enabled: bool, deadlineHours: int)
  datatype Event = Event(provider: Option<nat>, startsAt: Option<int>, revenue: int)
  datatype RefundStatus = Requested | SkippedPolicy

  function PolicyRow(policies: map<nat, Policy>, provider: nat): Policy {
    if provider in policies then policies[provider] else Policy(false, DEFAULT_DEADLINE_HOURS)
  }

  /** The dashboard's own query for the row; `None` when it throws. */
  function ReadPolicy(policies: map<nat, Policy>, provider: nat, throws: bool): Option<Policy> {
    if throws then None else Some(PolicyRow(policies, provider))
  }

  /** A query that throws counts as refunds off. */
  function DashboardPolicy(read: Option<Policy>): Policy {
    if read.Some? then read.value else Policy(false, DEFAULT_DEADLINE_HOURS)
  }

  /** The payout side. */
  function RevenueReleased(e: Event, p: Policy, now: int): bool {
    if !p.enabled then true
    else if e.startsAt.None? then false
    else now > e.startsAt.value - p.deadlineHours * HOUR_MS
  }

  /** The refund side, as `cancelTicket` asks it. */
  function RefundEligible(policies: map<nat, Policy>, e: Event, now: int): bool {
    if e.provider.None? then false
    else
      var row := PolicyRow(policies, e.provider.value);
      if !row.enabled then false
      else if e.startsAt.None? then true
      else
        var cutoff := e.startsAt.value - row.deadlineHours * HOUR_MS;
        now <= cutoff
  }

  function RefundWritten(policies: map<nat, Policy>, e: Event, now: int): RefundStatus {
    if RefundEligible(policies, e, now) then Requested else SkippedPolicy
  }

  function ReleasedGross(events: seq<Event>, p: Policy, now: int): int {
    if events == [] then 0
    else ReleasedGross(events[..|events| - 1], p, now)
         + if RevenueReleased(events[|events| - 1], p, now) then events[|events| - 1].revenue else 0
  }

  /** Revenue whose buyers could still be refunded by a cancellation at `now`. */
  function RefundableGross(policies: map<nat, Policy>, events: seq<Event>, now: int): int {
    if events == [] then 0
    else RefundableGross(policies, events[..|events| - 1], now)
         + if RefundWritten(policies, events[|events| - 1], now) == Requested then events[|events| - 1].revenue else 0
  }

  function Gross(events: seq<Event>): int {
    if events == [] then 0 else Gross(events[..|events| - 1]) + events[|events| - 1].revenue
  }

  /** The dashboard releases a provider's event exactly if cancelling earns no refund, or if its policy query threw. */
  lemma ReleasedIffNotRefundable(policies: map<nat, Policy>, e: Event, throws: bool, now: int)
    requires e.provider.Some?
    ensures RevenueReleased(e, DashboardPolicy(ReadPolicy(policies, e.provider.value, throws)), now)
            <==> throws || !RefundEligible(policies, e, now)
  {
  }

  /** One failed read: an event two days ahead is released, and a cancellation at that instant asks for its money back. */
  lemma ReleasedWhileRefundable()
    ensures var policies, e := map[0 := Policy(true, DEFAULT_DEADLINE_HOURS)], Event(Some(0), Some(48 * HOUR_MS), 100);
            && RevenueReleased(e, DashboardPolicy(ReadPolicy(policies, 0, true)), 0)
            && !RevenueReleased(e, DashboardPolicy(ReadPolicy(policies, 0, false)), 0)
            && RefundWritten(policies, e, 0) == Requested
  {
  }

  /** Money released by a policy that was read stays released, so no later cancellation of that event asks for it back. */
  lemma ReleaseIsPermanent(policies: map<nat, Policy>, e: Event, now: int, later: int, throwsLater: bool)
    requires e.provider.Some? && now <= later
    requires RevenueReleased(e, DashboardPolicy(ReadPolicy(policies, e.provider.value, false)), now)
    ensures RevenueReleased(e, DashboardPolicy(ReadPolicy(policies, e.provider.value, throwsLater)), later)
    ensures RefundWritten(policies, e, later) == SkippedPolicy
  {
  }

  /**
   The dashboard's released revenue and what a cancellation could still claim add up to the gross exactly; if its policy
   query threw, all of the gross is released, and what could still be claimed counts twice.
   */
  lemma {:induction false} ReleasedPlusRefundableIsGross(policies: map<nat, Policy>, events: seq<Event>, provider: nat,
                                                         throws: bool, now: int)
    requires forall k :: 0 <= k < |events| ==> events[k].provider == Some(provider)
    ensures var released := ReleasedGross(events, DashboardPolicy(ReadPolicy(policies, provider, throws)), now);
            released == if throws then Gross(events) else Gross(events) - RefundableGross(policies, events, now)
  {
    if events != [] {
      ReleasedPlusRefundableIsGross(policies, events[..|events| - 1], provider, throws, now);
    }
  }
}
