/** The sweep night after night, and three runs in which it does not do what one might expect. */
module PaymentNights {
  import opened Wrappers
  import opened PaymentOrders
  import opened PaymentQueries
  import opened PaymentsBacklog
  import opened SweepTrace
  import opened SweepBooks
  import opened PaymentsReconciliation

  // ---------- The backlog over many nights ----------

  /** One night: where the sweep began, where it listed the missing passes, and where it ended. */
  datatype Night = Night(start: Played, seen: Played, end: Played)

  function Listed(env: Env, n: Night): seq<nat> {
    Backlog(n.seen.s, env.clock(n.seen.tick))
  }

  /** A sweep in which nothing threw: whatever it listed and could deliver, it delivered. */
  ghost predicate OneNight(env: Env, n: Night) {
    && n.start == Opening(n.start.s, n.start.tick) && n.start.tick < n.seen.tick
    && Onward(env, n.start, n.seen) && Onward(env, n.seen, n.end)
    && OldestDelivered(n.seen.s, env.clock(n.seen.tick), n.end.s)
  }

  /** Sweeps in which nothing threw, one after the other, with anything else in between. */
  ghost predicate Nights(env: Env, nights: seq<Night>) {
    && (forall k :: 0 <= k < |nights| ==> OneNight(env, nights[k]))
    && (forall k :: 0 < k < |nights| ==> Later(nights[k - 1].end.s, nights[k].start.s))
  }

  /** The first night begins at `s` in call `tick`, each next one where the one before ended, and the last ends at `now`. */
  ghost predicate BackToBack(nights: seq<Night>, s: State, tick: nat, now: Played) {
    && (if nights == [] then now.s == s && now.tick == tick
        else nights[0].start == Opening(s, tick) && nights[|nights| - 1].end == now)
    && (forall k :: 0 < k < |nights| ==> nights[k].start == Opening(nights[k - 1].end.s, nights[k - 1].end.tick))
  }

  /** Every order listed one night was already listed the night before. */
  ghost predicate NoArrivals(env: Env, nights: seq<Night>) {
    forall k :: 0 < k < |nights| ==> forall i :: i in Listed(env, nights[k]) ==> i in Listed(env, nights[k - 1])
  }

  /** At time `at` the backlog of `s` has only orders that the last night listed. */
  ghost predicate NoneSince(env: Env, nights: seq<Night>, s: State, at: int)
    requires nights != []
  {
    forall i :: i in Backlog(s, at) ==> i in Listed(env, nights[|nights| - 1])
  }

  /** What k nights leave of n orders of which u cannot be delivered. */
  function Left(n: nat, u: nat, k: nat): int {
    if n - (BACKLOG_LIMIT - u) * k > u then n - (BACKLOG_LIMIT - u) * k else u
  }

  /** However the last listing time is chosen, no more than `Left` of the first night's list is still waiting. */
  ghost predicate Drained(env: Env, nights: seq<Night>, s: State)
    requires nights != []
  {
    var ids := Listed(env, nights[0]);
    var stuck := Undeliverable(nights[0].seen.s, ids);
    forall at :: NoneSince(env, nights, s, at) ==> |Backlog(s, at)| <= Left(|ids|, |stuck|, |nights|)
  }

  /** The nightly sweep, once at each of the given times. */
  method RunNights(sweep: Sweep, nows: seq<int>) returns (ghost nights: seq<Night>)
    requires Reachable(sweep.s) && NoFailure(sweep.env)
    modifies sweep
    ensures |nights| == |nows| && Nights(sweep.env, nights) && BackToBack(nights, old(sweep.s), old(sweep.tick), sweep.Now())
    ensures nows != [] && NoArrivals(sweep.env, nights) ==> Drained(sweep.env, nights, sweep.s)
  {
    nights := [];
    for k := 0 to |nows|
      invariant Reachable(sweep.s) && |nights| == k && Nights(sweep.env, nights)
      invariant BackToBack(nights, old(sweep.s), old(sweep.tick), sweep.Now())
    {
      ghost var night := OneMore(sweep, nows[k], nights, old(sweep.s), old(sweep.tick));
      nights := nights + [night];
    }
    if nows != [] && NoArrivals(sweep.env, nights) {
      AllDrained(sweep.env, nights, sweep.s);
    }
  }

  /** One more night after the given ones. */
  method OneMore(sweep: Sweep, now: int, ghost nights: seq<Night>, ghost s: State, ghost tick: nat) returns (ghost night: Night)
    requires Reachable(sweep.s) && NoFailure(sweep.env)
    requires Nights(sweep.env, nights) && BackToBack(nights, s, tick, sweep.Now())
    modifies sweep
    ensures Reachable(sweep.s)
    ensures Nights(sweep.env, nights + [night]) && BackToBack(nights + [night], s, tick, sweep.Now())
  {
    ghost var start, before := Opening(sweep.s, sweep.tick), sweep.Now();
    var result;
    ghost var seen;
    result, seen := sweep.RunNightlySweep(now);
    LaterReachable(seen.s, sweep.s);
    night := Night(start, seen, sweep.Now());
    StaysLater(before.s);
    NightAdded(sweep.env, nights, night);
    NightFollows(nights, s, tick, before, night);
  }

  lemma NightAdded(env: Env, nights: seq<Night>, night: Night)
    requires Nights(env, nights) && OneNight(env, night)
    requires nights != [] ==> Later(nights[|nights| - 1].end.s, night.start.s)
    ensures Nights(env, nights + [night])
  {
    var all := nights + [night];
    forall k | 0 <= k < |all| ensures OneNight(env, all[k]) && (k > 0 ==> Later(all[k - 1].end.s, all[k].start.s)) {
      assert k < |nights| ==> all[k] == nights[k];
    }
  }

  lemma NightFollows(nights: seq<Night>, s: State, tick: nat, now: Played, night: Night)
    requires BackToBack(nights, s, tick, now) && night.start == Opening(now.s, now.tick)
    ensures BackToBack(nights + [night], s, tick, night.end)
  {
  }

  predicate NoRepeats(ids: seq<nat>) {
    forall j, k :: 0 <= j < k < |ids| ==> ids[j] != ids[k]
  }

  /** A list without repeats is no longer than one that holds all its members. */
  lemma {:induction false} Shorter(a: seq<nat>, b: seq<nat>)
    requires NoRepeats(a) && forall i :: i in a ==> i in b
    ensures |a| <= |b|
    decreases |a|
  {
    if a != [] {
      var n := |a| - 1;
      assert a[n] in b;
      var k :| 0 <= k < |b| && b[k] == a[n];
      var rest := b[..k] + b[k + 1..];
      forall i | i in a[..n] ensures i in rest {
        var j :| 0 <= j < n && a[j] == i;
        assert i in a && i != b[k];
        var m :| 0 <= m < |b| && b[m] == i;
        assert m < k ==> rest[m] == i;
        assert m > k ==> rest[m - 1] == i;
      }
      Shorter(a[..n], rest);
    }
  }

  lemma SortedHasNoRepeats(orders: seq<Order>, ids: seq<nat>)
    requires Sorted(PaidPackages, orders, ids)
    ensures NoRepeats(ids)
  {
    assert forall j, k :: 0 <= j < k < |ids| ==> Older(PaidPackages, orders, ids[j], ids[k]);
  }

  /** A sorted sublist has no more orders, and no more of them stuck, seen at a later time. */
  lemma SublistShorter(s: State, s': State, left: seq<nat>, ids: seq<nat>)
    requires Later(s, s') && Sorted(PaidPackages, s'.orders, left) && Sorted(PaidPackages, s.orders, ids)
    requires forall i :: i in left ==> i in ids
    ensures |left| <= |ids| && |Undeliverable(s', left)| <= |Undeliverable(s, ids)|
  {
    SortedHasNoRepeats(s'.orders, left);
    Shorter(left, ids);
    StuckMembers(s', left);
    StuckMembers(s, ids);
    SortedHasNoRepeats(s'.orders, Undeliverable(s', left));
    forall i | i in Undeliverable(s', left) ensures i in Undeliverable(s, ids) {
      assert i in left && i in ids;
      var k :| 0 <= k < |ids| && ids[k] == i;
      FixedFields(s, s', i);
    }
    Shorter(Undeliverable(s', left), Undeliverable(s, ids));
  }

  /** What one night leaves of its list: the undeliverable among the oldest fifty, and what comes after them. */
  lemma OneNightLeaves(env: Env, n: Night, s: State, at: int)
    requires OneNight(env, n) && Later(n.end.s, s) && forall i :: i in Backlog(s, at) ==> i in Listed(env, n)
    ensures |Backlog(s, at)| <= |Next(n.seen.s, Listed(env, n))|
    ensures |Undeliverable(s, Backlog(s, at))| <= |Undeliverable(n.seen.s, Listed(env, n))|
  {
    var ids, left := Listed(env, n), Backlog(s, at);
    LaterTrans(n.seen.s, n.end.s, s);
    LaterGrows(n.end.s, s);
    SublistShorter(n.seen.s, s, left, ids);
    StuckMembers(n.seen.s, Take(ids, BACKLOG_LIMIT));
    forall i | i in left ensures i in Next(n.seen.s, ids) {
      assert i !in s.passes && i !in n.end.s.passes;
      assert |ids| > BACKLOG_LIMIT ==> ids == ids[..BACKLOG_LIMIT] + ids[BACKLOG_LIMIT..];
    }
    SortedHasNoRepeats(s.orders, left);
    Shorter(left, Next(n.seen.s, ids));
  }

  lemma NextIsShorter(s: State, ids: seq<nat>)
    ensures |Next(s, ids)| <= |ids|
    ensures |Next(s, ids)| <= |Undeliverable(s, ids)| + if |ids| <= BACKLOG_LIMIT then 0 else |ids| - BACKLOG_LIMIT
  {
    StuckShort(s, Take(ids, BACKLOG_LIMIT));
    if |ids| > BACKLOG_LIMIT {
      assert ids == ids[..BACKLOG_LIMIT] + ids[BACKLOG_LIMIT..];
      StuckSplit(s, ids[..BACKLOG_LIMIT], ids[BACKLOG_LIMIT..]);
    }
  }

  lemma LeftAfterOne(n: nat, u: nat, k: nat, before: nat, after: nat)
    requires u <= n && before <= Left(n, u, k) && after <= before
    requires after <= if before <= BACKLOG_LIMIT then u else u + before - BACKLOG_LIMIT
    ensures after <= Left(n, u, k + 1)
  {
    assert (BACKLOG_LIMIT - u) * (k + 1) == (BACKLOG_LIMIT - u) * k + (BACKLOG_LIMIT - u);
    if u > BACKLOG_LIMIT {
      assert (BACKLOG_LIMIT - u) * k <= 0;
    }
  }

  /** The list of the last of the nights, and what is stuck in it. */
  lemma {:induction false} ListDrains(env: Env, nights: seq<Night>, k: nat)
    requires Nights(env, nights) && NoArrivals(env, nights) && k < |nights|
    ensures var ids, listed := Listed(env, nights[0]), Listed(env, nights[k]);
            var u := |Undeliverable(nights[0].seen.s, ids)|;
            |Undeliverable(nights[k].seen.s, listed)| <= u <= |ids| && |listed| <= Left(|ids|, u, k)
  {
    var first, n := nights[0], nights[k];
    StuckShort(first.seen.s, Listed(env, first));
    if k > 0 {
      ListDrains(env, nights, k - 1);
      LaterTrans(nights[k - 1].end.s, n.start.s, n.seen.s);
      NightLeaves(env, first, nights[k - 1], k - 1, n.seen.s, env.clock(n.seen.tick));
    }
  }

  lemma NightLeaves(env: Env, first: Night, n: Night, k: nat, s: State, at: int)
    requires OneNight(env, n) && Later(n.end.s, s) && forall i :: i in Backlog(s, at) ==> i in Listed(env, n)
    requires |Undeliverable(n.seen.s, Listed(env, n))| <= |Undeliverable(first.seen.s, Listed(env, first))|
    requires |Undeliverable(first.seen.s, Listed(env, first))| <= |Listed(env, first)|
    requires |Listed(env, n)| <= Left(|Listed(env, first)|, |Undeliverable(first.seen.s, Listed(env, first))|, k)
    ensures |Backlog(s, at)| <= Left(|Listed(env, first)|, |Undeliverable(first.seen.s, Listed(env, first))|, k + 1)
    ensures |Undeliverable(s, Backlog(s, at))| <= |Undeliverable(first.seen.s, Listed(env, first))|
  {
    OneNightLeaves(env, n, s, at);
    NextIsShorter(n.seen.s, Listed(env, n));
    var u := |Undeliverable(first.seen.s, Listed(env, first))|;
    LeftAfterOne(|Listed(env, first)|, u, k, |Listed(env, n)|, |Backlog(s, at)|);
  }

  /**
   Whatever happens between and during the sweeps: if nothing throws, no order joins the backlog, and u of the n orders
   listed the first night cannot be delivered, then k nights leave at most n - (50 - u)k of them, or u. With u = 0 the
   backlog is empty after n/50 nights, rounded up.
   */
  lemma NightsDrain(env: Env, nights: seq<Night>, s: State, at: int)
    requires Nights(env, nights) && NoArrivals(env, nights) && nights != []
    requires Later(nights[|nights| - 1].end.s, s) && NoneSince(env, nights, s, at)
    ensures var ids, k := Listed(env, nights[0]), |nights|;
            var u := |Undeliverable(nights[0].seen.s, ids)|;
            && |Backlog(s, at)| <= Left(|ids|, u, k)
            && (u == 0 && k >= (|ids| + BACKLOG_LIMIT - 1) / BACKLOG_LIMIT ==> Backlog(s, at) == [])
  {
    var k := |nights| - 1;
    ListDrains(env, nights, k);
    NightLeaves(env, nights[0], nights[k], k, s, at);
  }

  lemma AllDrained(env: Env, nights: seq<Night>, s: State)
    requires Nights(env, nights) && NoArrivals(env, nights) && nights != [] && nights[|nights| - 1].end.s == s
    ensures Drained(env, nights, s)
  {
    LaterReachable(nights[|nights| - 1].seen.s, s);
    StaysLater(s);
    forall at | NoneSince(env, nights, s, at)
      ensures var ids := Listed(env, nights[0]);
              |Backlog(s, at)| <= Left(|ids|, |Undeliverable(nights[0].seen.s, ids)|, |nights|)
    {
      NightsDrain(env, nights, s, at);
    }
  }

  // ---------- Fifty orders that cannot be delivered ----------

  /** An order of a class package; the first fifty name a package whose pass cannot be minted. */
  function Waiting(k: nat): Order {
    Order(ClassPackage, PendingPayment, None, None, None, 0, None, 0, k >= BACKLOG_LIMIT)
  }

  /** `n` such orders, each paid by a webhook whose process ended before the pass was minted. */
  function Crowd(n: nat): State {
    if n == 0 then State([], [], map[], [], [], [])
    else Do(Do(Do(Crowd(n - 1), Place(Waiting(n - 1))), Resolve(n - 1, Paid, None, Webhook, n - 1, 0)), Drop(0))
  }

  /** `n` paid orders without a pass, updated one after the other. */
  predicate AllWait(s: State, n: nat) {
    && s.passes == [] && |s.orders| == n
    && forall k: nat :: k < n ==> s.orders[k] == Waiting(k).(status := Paid, source := Some(Webhook), updatedAt := k)
  }

  lemma {:induction false} CrowdIsPaid(n: nat)
    ensures Reachable(Crowd(n)) && AllWait(Crowd(n), n) && Crowd(n).jobs == map[]
  {
    if n == 0 {
      RunsReach([]);
    } else {
      CrowdIsPaid(n - 1);
      OneJoins(Crowd(n - 1), n - 1);
    }
  }

  lemma OneJoins(s: State, k: nat)
    requires Reachable(s) && s.jobs == map[] && |s.orders| == k
    ensures var s' := Do(Do(Do(s, Place(Waiting(k))), Resolve(k, Paid, None, Webhook, k, 0)), Drop(0));
            && Reachable(s') && s'.passes == s.passes && s'.jobs == map[]
            && s'.orders == s.orders + [Waiting(k).(status := Paid, source := Some(Webhook), updatedAt := k)]
  {
    var s1 := Do(s, Place(Waiting(k)));
    StepIsLater(s, Place(Waiting(k)));
    StepIsLater(s1, Resolve(k, Paid, None, Webhook, k, 0));
    var s2 := Do(s1, Resolve(k, Paid, None, Webhook, k, 0));
    StepIsLater(s2, Drop(0));
    assert s2.jobs - {0} == map[];
  }

  lemma AllListed(s: State, n: nat, at: int)
    requires AllWait(s, n) && at > n + STUCK_MIN_AGE_MS
    ensures Backlog(s, at) == Positions(0, n)
  {
    forall i: nat ensures i in Backlog(s, at) <==> i in Positions(0, n) {
      assert i < n ==> Positions(0, n)[i] == i;
    }
    SortedUnique(s.orders, Backlog(s, at), Positions(0, n));
  }

  lemma FirstFiftyStarve(s: State, nows: seq<int>)
    requires AllWait(s, BACKLOG_LIMIT + 1)
    requires forall k :: 0 <= k < |nows| ==> nows[k] > BACKLOG_LIMIT + 1 + STUCK_MIN_AGE_MS
    ensures BACKLOG_LIMIT !in Sweeps(s, nows).passes
  {
    var at, ids := BACKLOG_LIMIT + 2 + STUCK_MIN_AGE_MS, Positions(0, BACKLOG_LIMIT + 1);
    AllListed(s, BACKLOG_LIMIT + 1, at);
    forall k | 0 <= k < |nows| ensures Backlog(s, nows[k]) == ids {
      AllListed(s, BACKLOG_LIMIT + 1, nows[k]);
    }
    StuckIdempotent(s, ids[..BACKLOG_LIMIT]);
    BacklogStarvation(s, at, BACKLOG_LIMIT);
  }

  /** Behind fifty stuck orders a deliverable one is never delivered, however many sweeps there are and whenever they run. */
  lemma FiftyStarve(nows: seq<int>)
    requires forall k :: 0 <= k < |nows| ==> nows[k] > BACKLOG_LIMIT + 1 + STUCK_MIN_AGE_MS
    ensures Reachable(Crowd(BACKLOG_LIMIT + 1)) && Deliverable(Crowd(BACKLOG_LIMIT + 1), BACKLOG_LIMIT)
    ensures BACKLOG_LIMIT !in Sweeps(Crowd(BACKLOG_LIMIT + 1), nows).passes
  {
    CrowdIsPaid(BACKLOG_LIMIT + 1);
    FirstFiftyStarve(Crowd(BACKLOG_LIMIT + 1), nows);
  }

  // ---------- Three runs ----------

  function Overdue1(link: Option<string>): Order {
    Order(EventTicket, PendingPayment, None, None, link, 0, Some(0), 0, true)
  }

  lemma RunsReach(steps: seq<Step>)
    ensures Reachable(Run(State([], [], map[], [], [], []), steps))
  {
  }

  function OneOverdue(link: Option<string>): State {
    Do(State([], [], map[], [], [], []), Place(Overdue1(link)))
  }

  lemma OneOverdueReachable(link: Option<string>)
    ensures Reachable(OneOverdue(link)) && OneOverdue(link).orders == [Overdue1(link)]
  {
    var s := State([], [], map[], [], [], []);
    var steps := [Place(Overdue1(link))];
    assert steps[1..] == [] && Run(Do(s, steps[0]), []) == Do(s, steps[0]);
    RunsReach(steps);
  }

  /** Order 1 is overdue; the payment the gateway reports for it already settled order 0. */
  function TwoOrders(): State {
    Do(Do(OneOverdue(Some("link0")), Place(Overdue1(Some("link1")))), Resolve(0, Paid, Some("payment"), Webhook, 0, 0))
  }

  lemma TwoOrdersReachable()
    ensures var s := TwoOrders();
            && Reachable(s) && |s.orders| == 2 && s.orders[1] == Overdue1(Some("link1"))
            && PaymentClaimed(s.orders, 1, Some("payment"))
  {
    var s1 := OneOverdue(Some("link0"));
    OneOverdueReachable(Some("link0"));
    StepIsLater(s1, Place(Overdue1(Some("link1"))));
    var s2 := Do(s1, Place(Overdue1(Some("link1"))));
    StepIsLater(s2, Resolve(0, Paid, Some("payment"), Webhook, 0, 0));
    assert Enabled(s2, Resolve(0, Paid, Some("payment"), Webhook, 0, 0));
    assert TwoOrders().orders[0].paymentId == Some("payment");
  }

  function Alone(failing: int, reply: GatewayReply): Env {
    Env((_) => [], (_, _) => reply, t => t == failing, (_) => 0, (_) => false)
  }

  /** One overdue order is cancelled, the read-back throws: one move made, none counted. */
  method MoveNotCounted(sweep: Sweep) returns (result: SweepResult)
    requires sweep.s == OneOverdue(None) && sweep.env == Alone(4, FetchFailed) && sweep.tick == 0
    modifies sweep
    ensures OneOverdue(None).orders == [Overdue1(None)] && Onward(sweep.env, Opening(OneOverdue(None), 0), sweep.Now())
    ensures sweep.moved == [Move(0, PendingPayment, Cancelled, Cron)] && sweep.s.log == OneOverdue(None).log + sweep.moved
    ensures result.errored && sweep.counted == 0 && result.stats.expiredCancelled == 0
  {
    ghost var s, env := sweep.s, sweep.env;
    OneOverdueReachable(None);
    OnlyOverdue(1);
    ghost var seen;
    result, seen := sweep.RunNightlySweep(1);
    OnwardTrans(env, Opening(s, 0), seen, sweep.Now());
  }

  lemma OnlyOverdue(now: int)
    requires now > 0
    ensures var s := OneOverdue(None);
            All(Expired, s, now) == [0] && All(Stuck, s, now) == [] && All(ExpiredWithLink, s, now) == []
  {
    var s := OneOverdue(None);
    OneOverdueReachable(None);
    NoneListed(Stuck, s, now);
    NoneListed(ExpiredWithLink, s, now);
    assert 0 in All(Expired, s, now);
    FirstIsMember(All(Expired, s, now));
  }

  lemma NoneListed(f: Filter, s: State, now: int)
    requires forall i: nat :: i < |s.orders| ==> !Lists(f, s, i, now)
    ensures All(f, s, now) == []
  {
    FirstIsMember(All(f, s, now));
  }

  lemma FirstIsMember(ids: seq<nat>)
    ensures ids == [] || ids[0] in ids
  {
  }

  /** The gateway says that the order is paid, another order claims the payment: the order is cancelled. */
  method CancelledThoughPaid(sweep: Sweep)
    requires sweep.s == TwoOrders() && sweep.env == Alone(-1, Detail("payment", true)) && sweep.tick == 0
    modifies sweep
    ensures |TwoOrders().orders| == 2 && TwoOrders().orders[1] == Overdue1(Some("link1"))
    ensures Onward(sweep.env, Opening(TwoOrders(), 0), sweep.Now()) && SaysPaid(sweep.env, 0, 1)
    ensures |sweep.s.orders| >= 2 && sweep.s.orders[1].status == Cancelled
    ensures sweep.moved == [Move(1, PendingPayment, Cancelled, Cron)]
  {
    TwoOrdersReachable();
    sweep.Prepare(1);
    var ok := sweep.ExpireOne(1);
  }

  /** The question to the gateway fails: the order is cancelled, although the gateway would have said that it is paid. */
  method CancelledUnasked(sweep: Sweep)
    requires sweep.s == OneOverdue(Some("link")) && sweep.env == Alone(0, Detail("payment", true)) && sweep.tick == 0
    modifies sweep
    ensures OneOverdue(Some("link")).orders == [Overdue1(Some("link"))]
    ensures Onward(sweep.env, Opening(OneOverdue(Some("link")), 0), sweep.Now()) && SaysPaid(sweep.env, 1, 0)
    ensures |sweep.s.orders| >= 1 && sweep.s.orders[0].status == Cancelled
    ensures sweep.moved == [Move(0, PendingPayment, Cancelled, Cron)]
  {
    OneOverdueReachable(Some("link"));
    sweep.Prepare(1);
    var ok := sweep.ExpireOne(0);
  }
}
