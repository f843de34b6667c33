/**
 Draining the backlog of paid class packages that never got their pass: 50 per sweep, oldest update first.

 An order whose pass cannot be minted is never delivered and keeps its place in the list.
 */
module PaymentsBacklog {
  import opened PaymentOrders
  import opened PaymentQueries

  /** The paid class packages without a pass, oldest update first. */
  function Backlog(s: State, now: int): seq<nat> {
    All(PaidPackages, s, now)
  }

  predicate Deliverable(s: State, i: nat) {
    i < |s.orders| && s.orders[i].deliverable
  }

  /** `fulfillPaidOrder` for each listed order in turn. */
  function DeliverEach(s: State, ids: seq<nat>): State
    decreases |ids|
  {
    if ids == [] then s
    else
      var i := ids[0];
      DeliverEach(if Deliverable(s, i) && i !in s.passes then s.(passes := s.passes + [i]) else s, ids[1..])
  }

  /** The last phase of one sweep without errors or interference. */
  function BackfillOnce(s: State, now: int): State {
    DeliverEach(s, Take(Backlog(s, now), BACKLOG_LIMIT))
  }

  /** One sweep at each of the given times. */
  function Sweeps(s: State, nows: seq<int>): State
    decreases |nows|
  {
    if nows == [] then s else Sweeps(BackfillOnce(s, nows[0]), nows[1..])
  }

  // ---------- One sweep, on the list ----------

  /** The orders of a list that cannot be delivered. */
  function Undeliverable(s: State, ids: seq<nat>): seq<nat> {
    if ids == [] then [] else (if Deliverable(s, ids[0]) then [] else [ids[0]]) + Undeliverable(s, ids[1..])
  }

  /** What the list becomes: the undeliverable of the first 50, then everything past them. */
  function Next(s: State, ids: seq<nat>): seq<nat> {
    if |ids| <= BACKLOG_LIMIT then Undeliverable(s, ids) else Undeliverable(s, ids[..BACKLOG_LIMIT]) + ids[BACKLOG_LIMIT..]
  }

  lemma {:induction false} DeliverEachAdds(s: State, ids: seq<nat>)
    ensures var s' := DeliverEach(s, ids);
            && s'.orders == s.orders
            && forall i: nat :: i in s'.passes <==> i in s.passes || (i in ids && Deliverable(s, i))
    decreases |ids|
  {
    if ids != [] {
      var i := ids[0];
      var s1 := if Deliverable(s, i) && i !in s.passes then s.(passes := s.passes + [i]) else s;
      DeliverEachAdds(s1, ids[1..]);
      assert forall j: nat :: Deliverable(s1, j) <==> Deliverable(s, j);
      assert ids == [i] + ids[1..];
    }
  }

  lemma {:induction false} StuckMembers(s: State, ids: seq<nat>)
    ensures forall i: nat :: i in Undeliverable(s, ids) <==> i in ids && !Deliverable(s, i)
    ensures Sorted(PaidPackages, s.orders, ids) ==> Sorted(PaidPackages, s.orders, Undeliverable(s, ids))
    decreases |ids|
  {
    if ids != [] {
      StuckMembers(s, ids[1..]);
      assert ids == [ids[0]] + ids[1..];
      if Sorted(PaidPackages, s.orders, ids) {
        assert forall k :: 0 <= k < |ids[1..]| ==> ids[1..][k] == ids[k + 1];
        var rest := Undeliverable(s, ids[1..]);
        assert forall k :: 0 <= k < |rest| ==> rest[k] in rest;
        assert forall k :: k in ids[1..] ==> Older(PaidPackages, s.orders, ids[0], k);
      }
    }
  }

  /** A strictly sorted list is determined by its members. */
  lemma {:induction false} SortedUnique(orders: seq<Order>, a: seq<nat>, b: seq<nat>)
    requires Sorted(PaidPackages, orders, a) && Sorted(PaidPackages, orders, b) && forall i: nat :: i in a <==> i in b
    ensures a == b
    decreases |a|
  {
    if a == [] {
      assert forall k :: 0 <= k < |b| ==> b[k] in b;
    } else {
      assert a[0] in b;
      assert b != [] && b[0] in a;
      SortedHead(orders, a, b[0]);
      SortedHead(orders, b, a[0]);
      assert a == [a[0]] + a[1..] && b == [b[0]] + b[1..];
      forall i: nat ensures i in a[1..] <==> i in b[1..] {
        SortedTail(orders, a);
        SortedTail(orders, b);
        assert (i in a <==> i == a[0] || i in a[1..]) && (i in b <==> i == b[0] || i in b[1..]);
      }
      assert forall k :: 0 <= k < |a[1..]| ==> a[1..][k] == a[k + 1];
      assert forall k :: 0 <= k < |b[1..]| ==> b[1..][k] == b[k + 1];
      SortedUnique(orders, a[1..], b[1..]);
    }
  }

  lemma SortedHead(orders: seq<Order>, ids: seq<nat>, x: nat)
    requires Sorted(PaidPackages, orders, ids) && x in ids
    ensures ids[0] < |orders| && x < |orders| && (x == ids[0] || Older(PaidPackages, orders, ids[0], x))
  {
  }

  lemma SortedTail(orders: seq<Order>, ids: seq<nat>)
    requires Sorted(PaidPackages, orders, ids) && ids != []
    ensures ids[0] !in ids[1..]
  {
  }

  lemma SortedSplit(orders: seq<Order>, ids: seq<nat>, n: nat, x: nat)
    requires Sorted(PaidPackages, orders, ids) && n <= |ids|
    ensures x in ids <==> x in ids[..n] || x in ids[n..]
    ensures x in ids[..n] ==> x !in ids[n..]
  {
    assert ids == ids[..n] + ids[n..];
    forall k, l | 0 <= k < n && 0 <= l < |ids| - n ensures ids[..n][k] != ids[n..][l] {
      assert Older(PaidPackages, orders, ids[k], ids[n + l]);
    }
  }

  lemma NextIsSorted(s: State, ids: seq<nat>)
    requires Sorted(PaidPackages, s.orders, ids)
    ensures Sorted(PaidPackages, s.orders, Next(s, ids))
  {
    var head := Take(ids, BACKLOG_LIMIT);
    var tail, stuck := ids[|head|..], Undeliverable(s, head);
    assert Sorted(PaidPackages, s.orders, head);
    StuckMembers(s, head);
    assert forall k :: 0 <= k < |stuck| ==> stuck[k] in stuck;
    forall k, l | 0 <= k < |stuck| && 0 <= l < |tail| ensures Older(PaidPackages, s.orders, stuck[k], tail[l]) {
      var m :| 0 <= m < |head| && head[m] == stuck[k];
      assert ids[m] == stuck[k] && ids[|head| + l] == tail[l];
    }
    assert forall k :: 0 <= k < |tail| ==> tail[k] == ids[|head| + k];
    assert Next(s, ids) == stuck + tail;
  }

  /** One undisturbed sweep turns the backlog into `Next`, seen from any time that lists the same orders. */
  lemma NextIsBacklog(s: State, now: int, at: int)
    requires Backlog(s, at) == Backlog(s, now)
    ensures BackfillOnce(s, now).orders == s.orders
    ensures Backlog(BackfillOnce(s, now), at) == Next(s, Backlog(s, at))
  {
    var ids := Backlog(s, now);
    var s' := BackfillOnce(s, now);
    var head := Take(ids, BACKLOG_LIMIT);
    var tail := ids[|head|..];
    DeliverEachAdds(s, head);
    assert ids == head + tail;
    assert Sorted(PaidPackages, s.orders, head);
    StuckMembers(s, head);
    assert Next(s, ids) == Undeliverable(s, head) + tail;
    NextIsSorted(s, ids);
    forall i: nat ensures i in Backlog(s', at) <==> i in Next(s, ids) {
      SortedSplit(s.orders, ids, |head|, i);
      assert i in Backlog(s', at) <==> i in ids && !(i in head && Deliverable(s, i));
      assert i in Next(s, ids) <==> (i in head && !Deliverable(s, i)) || i in tail;
    }
    SortedUnique(s.orders, Backlog(s', at), Next(s, ids));
  }

  // ---------- Sweep after sweep ----------

  /** No order becomes due between the given times: each lists what the first one does. */
  ghost predicate NothingArrives(s: State, nows: seq<int>, ids: seq<nat>) {
    forall k :: 0 <= k < |nows| ==> Backlog(s, nows[k]) == ids
  }

  lemma NothingArrivesLater(s: State, nows: seq<int>, ids: seq<nat>)
    requires nows != [] && NothingArrives(s, nows, ids)
    ensures BackfillOnce(s, nows[0]).orders == s.orders
    ensures NothingArrives(BackfillOnce(s, nows[0]), nows[1..], Next(s, ids))
    ensures Backlog(BackfillOnce(s, nows[0]), nows[0]) == Next(s, ids)
  {
    NextIsBacklog(s, nows[0], nows[0]);
    forall k | 0 <= k < |nows[1..]| ensures Backlog(BackfillOnce(s, nows[0]), nows[1..][k]) == Next(s, ids) {
      assert nows[1..][k] == nows[k + 1];
      NextIsBacklog(s, nows[0], nows[k + 1]);
    }
  }

  lemma {:induction false} NothingStuck(s: State, ids: seq<nat>)
    requires forall i :: i in ids ==> Deliverable(s, i)
    ensures Undeliverable(s, ids) == []
    decreases |ids|
  {
    if ids != [] {
      NothingStuck(s, ids[1..]);
    }
  }

  lemma {:induction false} DrainsFrom(s: State, nows: seq<int>, ids: seq<nat>, at: int)
    requires NothingArrives(s, nows, ids) && Backlog(s, at) == ids && forall i :: i in ids ==> Deliverable(s, i)
    ensures |Backlog(Sweeps(s, nows), at)| == if |ids| <= BACKLOG_LIMIT * |nows| then 0 else |ids| - BACKLOG_LIMIT * |nows|
    decreases |nows|
  {
    if nows != [] {
      var s' := BackfillOnce(s, nows[0]);
      NextIsBacklog(s, nows[0], at);
      NothingArrivesLater(s, nows, ids);
      NothingStuck(s, Take(ids, BACKLOG_LIMIT));
      assert forall i :: i in Next(s, ids) ==> i in ids;
      DrainsFrom(s', nows[1..], Next(s, ids), at);
    }
  }

  /**
   With every waiting order deliverable and nothing arriving, k sweeps clear 50k orders: n waiting orders need exactly n/50
   sweeps, rounded up.
   */
  lemma DrainsFiftyPerSweep(s: State, nows: seq<int>, at: int)
    requires NothingArrives(s, nows, Backlog(s, at)) && forall i :: i in Backlog(s, at) ==> Deliverable(s, i)
    ensures var n, k, left := |Backlog(s, at)|, |nows|, |Backlog(Sweeps(s, nows), at)|;
            && left == (if n <= BACKLOG_LIMIT * k then 0 else n - BACKLOG_LIMIT * k)
            && (left == 0 <==> k >= (n + BACKLOG_LIMIT - 1) / BACKLOG_LIMIT)
  {
    DrainsFrom(s, nows, Backlog(s, at), at);
  }

  // ---------- Who is ever delivered when some orders cannot be ----------

  lemma {:induction false} StuckSplit(s: State, a: seq<nat>, b: seq<nat>)
    ensures Undeliverable(s, a + b) == Undeliverable(s, a) + Undeliverable(s, b)
    decreases |a|
  {
    if a == [] {
      assert a + b == b;
    } else {
      assert (a + b)[1..] == a[1..] + b;
      StuckSplit(s, a[1..], b);
    }
  }

  lemma {:induction false} StuckShort(s: State, ids: seq<nat>)
    ensures |Undeliverable(s, ids)| <= |ids|
    decreases |ids|
  {
    if ids != [] {
      StuckShort(s, ids[1..]);
    }
  }

  lemma {:induction false} StuckIdempotent(s: State, ids: seq<nat>)
    requires forall i :: i in ids ==> !Deliverable(s, i)
    ensures Undeliverable(s, ids) == ids
    decreases |ids|
  {
    if ids != [] {
      StuckIdempotent(s, ids[1..]);
    }
  }

  lemma SurvivesBehind(s: State, ids: seq<nat>, i: nat)
    requires BACKLOG_LIMIT <= i < |ids|
    ensures var j := i - BACKLOG_LIMIT + |Undeliverable(s, ids[..BACKLOG_LIMIT])|;
            j <= i && j < |Next(s, ids)| && Next(s, ids)[j] == ids[i]
            && Undeliverable(s, Next(s, ids)[..j]) == Undeliverable(s, ids[..i])
  {
    var head, mid := ids[..BACKLOG_LIMIT], ids[BACKLOG_LIMIT..i];
    var stuck := Undeliverable(s, head);
    StuckShort(s, head);
    assert Next(s, ids)[..|stuck| + |mid|] == stuck + mid;
    assert ids[..i] == head + mid;
    StuckTwice(s, head, mid);
  }

  lemma StuckTwice(s: State, a: seq<nat>, b: seq<nat>)
    ensures Undeliverable(s, Undeliverable(s, a) + b) == Undeliverable(s, a + b)
  {
    StuckMembers(s, a);
    StuckSplit(s, Undeliverable(s, a), b);
    StuckSplit(s, a, b);
    StuckIdempotent(s, Undeliverable(s, a));
  }

  lemma SurvivesAhead(s: State, ids: seq<nat>, i: nat)
    requires i < |ids| && i < BACKLOG_LIMIT && !Deliverable(s, ids[i])
    ensures var j := |Undeliverable(s, ids[..i])|;
            j <= i && j < |Next(s, ids)| && Next(s, ids)[j] == ids[i]
            && Undeliverable(s, Next(s, ids)[..j]) == Undeliverable(s, ids[..i])
  {
    var head, before := Take(ids, BACKLOG_LIMIT), ids[..i];
    var after := head[i + 1..];
    StuckShort(s, before);
    assert head == before + ([ids[i]] + after);
    StuckSplit(s, before, [ids[i]] + after);
    StuckSplit(s, [ids[i]], after);
    assert Undeliverable(s, [ids[i]]) == [ids[i]];
    assert Undeliverable(s, head) == Undeliverable(s, before) + ([ids[i]] + Undeliverable(s, after));
    StuckMembers(s, before);
    StuckIdempotent(s, Undeliverable(s, before));
    assert Next(s, ids)[..|Undeliverable(s, before)|] == Undeliverable(s, before);
  }

  /** Where the order at position `i` goes when it survives a sweep: the stuck orders ahead of it stay ahead. */
  lemma Survives(s: State, ids: seq<nat>, i: nat) returns (j: nat)
    requires i < |ids| && (i >= BACKLOG_LIMIT || !Deliverable(s, ids[i]))
    ensures j <= i && j < |Next(s, ids)| && Next(s, ids)[j] == ids[i]
    ensures Undeliverable(s, Next(s, ids)[..j]) == Undeliverable(s, ids[..i])
    ensures i >= BACKLOG_LIMIT ==> j == i - BACKLOG_LIMIT + |Undeliverable(s, ids[..BACKLOG_LIMIT])|
  {
    if i >= BACKLOG_LIMIT {
      SurvivesBehind(s, ids, i);
      j := i - BACKLOG_LIMIT + |Undeliverable(s, ids[..BACKLOG_LIMIT])|;
    } else {
      SurvivesAhead(s, ids, i);
      j := |Undeliverable(s, ids[..i])|;
    }
  }

  lemma {:induction false} PassesGrow(s: State, nows: seq<int>, i: nat)
    requires i in s.passes
    ensures i in Sweeps(s, nows).passes
    decreases |nows|
  {
    if nows != [] {
      DeliverEachAdds(s, Take(Backlog(s, nows[0]), BACKLOG_LIMIT));
      PassesGrow(BackfillOnce(s, nows[0]), nows[1..], i);
    }
  }

  lemma {:induction false} SameStuck(s: State, s': State, ids: seq<nat>)
    requires s'.orders == s.orders
    ensures Undeliverable(s', ids) == Undeliverable(s, ids)
    decreases |ids|
  {
    if ids != [] {
      SameStuck(s, s', ids[1..]);
    }
  }

  /** Behind fewer than 50 stuck orders, a deliverable order moves up every sweep until it is delivered. */
  lemma {:induction false} DeliveredWithin(s: State, nows: seq<int>, ids: seq<nat>, i: nat)
    requires NothingArrives(s, nows, ids) && i < |ids| && Deliverable(s, ids[i])
    requires |Undeliverable(s, ids[..i])| < BACKLOG_LIMIT && |nows| > i
    ensures ids[i] in Sweeps(s, nows).passes
    decreases i
  {
    var s' := BackfillOnce(s, nows[0]);
    NothingArrivesLater(s, nows, ids);
    if i < BACKLOG_LIMIT {
      var head := Take(ids, BACKLOG_LIMIT);
      DeliverEachAdds(s, head);
      assert head[i] == ids[i];
      PassesGrow(s', nows[1..], ids[i]);
    } else {
      var j := Survives(s, ids, i);
      assert ids[..i] == ids[..BACKLOG_LIMIT] + ids[BACKLOG_LIMIT..i];
      StuckSplit(s, ids[..BACKLOG_LIMIT], ids[BACKLOG_LIMIT..i]);
      SameStuck(s, s', Next(s, ids)[..j]);
      DeliveredWithin(s', nows[1..], Next(s, ids), j);
    }
  }

  lemma {:induction false} NeverDelivered(s: State, nows: seq<int>, ids: seq<nat>, i: nat)
    requires NothingArrives(s, nows, ids) && i < |ids| && ids[i] !in s.passes
    requires !Deliverable(s, ids[i]) || |Undeliverable(s, ids[..i])| >= BACKLOG_LIMIT
    ensures ids[i] !in Sweeps(s, nows).passes
    decreases |nows|
  {
    if nows != [] {
      StuckShort(s, ids[..i]);
      var s' := BackfillOnce(s, nows[0]);
      NothingArrivesLater(s, nows, ids);
      var j := Survives(s, ids, i);
      SameStuck(s, s', Next(s, ids)[..j]);
      assert ids[i] in Backlog(s', nows[0]);
      NeverDelivered(s', nows[1..], Next(s, ids), j);
    }
  }

  /**
   With nothing arriving, a waiting order is delivered by some number of sweeps iff its own pass can be minted and fewer
   than 50 orders that cannot be delivered are ahead of it; 50 of them starve everything behind.
   */
  lemma BacklogStarvation(s: State, at: int, i: nat)
    requires i < |Backlog(s, at)|
    ensures var ids := Backlog(s, at);
            (exists nows :: NothingArrives(s, nows, ids) && ids[i] in Sweeps(s, nows).passes)
            <==> Deliverable(s, ids[i]) && |Undeliverable(s, ids[..i])| < BACKLOG_LIMIT
  {
    var ids := Backlog(s, at);
    assert ids[i] in ids;
    if Deliverable(s, ids[i]) && |Undeliverable(s, ids[..i])| < BACKLOG_LIMIT {
      var nows := seq(i + 1, _ => at);
      DeliveredWithin(s, nows, ids, i);
    } else {
      forall nows | NothingArrives(s, nows, ids) ensures ids[i] !in Sweeps(s, nows).passes {
        NeverDelivered(s, nows, ids, i);
      }
    }
  }
}
