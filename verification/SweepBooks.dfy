/** The books of a nightly sweep: which moves it may make, and how its counters relate to what it did. */
module SweepBooks {
  import opened Wrappers
  import opened PaymentOrders
  import opened PaymentQueries
  import opened PaymentsBacklog
  import opened SweepTrace

  datatype Stats = Stats(scanned: nat, reconciledPaid: nat, expiredCancelled: nat, ticketsBackfilled: nat,
                         classPassesBackfilled: nat, paygateErrors: nat)

  datatype SweepResult = SweepResult(stats: Stats, errored: bool)

  // ---------- The sweep's own books ----------

  /** How many of the first `n` moves are to `to`. */
  function Tallied(moves: seq<Move>, n: nat, to: OrderStatus): nat
    requires n <= |moves|
  {
    if n == 0 then 0 else Tallied(moves, n - 1, to) + if moves[n - 1].to == to then 1 else 0
  }

  lemma {:induction false} TallyIgnoresTail(moves: seq<Move>, m: Move, n: nat, to: OrderStatus)
    requires n <= |moves|
    ensures Tallied(moves + [m], n, to) == Tallied(moves, n, to)
  {
    if n > 0 {
      TallyIgnoresTail(moves, m, n - 1, to);
    }
  }

  /** The gateway is reached at call `t` and says that order `i` is paid. */
  predicate SaysPaid(env: Env, t: nat, i: nat) {
    !env.fails(t) && env.gateway(t, i).Detail? && env.gateway(t, i).looksPaid
  }

  /** A move this sweep may make: overdue orders are cancelled, orders the gateway says are paid are marked paid. */
  ghost predicate Justified(m: Move, o: Order, startedAt: int, env: Env, asked: seq<Ask>) {
    && m.from == PendingPayment && m.source == Cron
    && (m.to == Cancelled || m.to == Paid)
    && (m.to == Cancelled ==> Overdue(o, startedAt))
    && (m.to == Paid ==> o.linkId.Some? && ToldPaid(env, asked, m.order))
  }

  /** The sweep asked about order `i`, and the gateway answered that it is paid. */
  ghost predicate ToldPaid(env: Env, asked: seq<Ask>, i: nat) {
    exists k :: 0 <= k < |asked| && asked[k].order == i && SaysPaid(env, asked[k].at, i)
  }

  lemma ToldStays(env: Env, asked: seq<Ask>, more: seq<Ask>, i: nat)
    requires ToldPaid(env, asked, i)
    ensures ToldPaid(env, asked + more, i)
  {
    var k :| 0 <= k < |asked| && asked[k].order == i && SaysPaid(env, asked[k].at, i);
    assert (asked + more)[k] == asked[k];
  }

  predicate FailedAsk(env: Env, a: Ask) {
    env.fails(a.at) || env.gateway(a.at, a.order).FetchFailed?
  }

  /** How many of the first `n` questions failed. */
  function Failures(env: Env, asked: seq<Ask>, n: nat): nat
    requires n <= |asked|
  {
    if n == 0 then 0 else Failures(env, asked, n - 1) + if FailedAsk(env, asked[n - 1]) then 1 else 0
  }

  lemma {:induction false} FailuresIgnoreTail(env: Env, asked: seq<Ask>, a: Ask, n: nat)
    requires n <= |asked|
    ensures Failures(env, asked + [a], n) == Failures(env, asked, n)
  {
    if n > 0 {
      FailuresIgnoreTail(env, asked, a, n - 1);
    }
  }

  ghost predicate MovesOk(s: State, moved: seq<Move>, startedAt: int, env: Env, asked: seq<Ask>) {
    && (forall k :: 0 <= k < |moved| ==>
          && moved[k] in s.log && moved[k].order < |s.orders| && s.orders[moved[k].order].status != PendingPayment
          && Justified(moved[k], s.orders[moved[k].order], startedAt, env, asked))
    && (forall j, k :: 0 <= j < k < |moved| ==> moved[j].order != moved[k].order)
  }

  lemma MovesStayOk(s: State, s': State, moved: seq<Move>, startedAt: int, env: Env, asked: seq<Ask>)
    requires MovesOk(s, moved, startedAt, env, asked) && Later(s, s')
    ensures MovesOk(s', moved, startedAt, env, asked)
  {
    LaterGrows(s, s');
    forall k | 0 <= k < |moved| ensures moved[k] in s'.log {
      var n :| 0 <= n < |s.log| && s.log[n] == moved[k];
      assert s'.log[n] == moved[k];
    }
    forall k | 0 <= k < |moved| ensures Justified(moved[k], s'.orders[moved[k].order], startedAt, env, asked) {
      FixedFields(s, s', moved[k].order);
    }
  }

  /** The counters are exactly the first `counted` of the sweep's own moves. */
  ghost predicate CountsOk(stats: Stats, moved: seq<Move>, counted: nat) {
    && counted <= |moved| <= counted + 1
    && stats.reconciledPaid == Tallied(moved, counted, Paid)
    && stats.expiredCancelled == Tallied(moved, counted, Cancelled)
    && stats.reconciledPaid + stats.expiredCancelled == counted
  }

  /** The read-back of each move is past, and a move is counted exactly if its read-back did not throw. */
  ghost predicate ConfirmedOk(moves: nat, counted: nat, confirmAt: seq<nat>, env: Env, tick: nat) {
    && |confirmAt| == moves
    && forall k :: 0 <= k < moves ==> confirmAt[k] < tick && (k < counted <==> !env.fails(confirmAt[k]))
  }

  /** As long as the last move waits for its read-back, which is the next call. */
  ghost predicate AwaitsReadBack(moves: nat, counted: nat, confirmAt: seq<nat>, env: Env, tick: nat) {
    && |confirmAt| == moves == counted + 1 && confirmAt[counted] == tick
    && forall k :: 0 <= k < counted ==> confirmAt[k] < tick && !env.fails(confirmAt[k])
  }

  lemma AwaitedIsConfirmed(moves: nat, counted: nat, confirmAt: seq<nat>, env: Env, tick: nat)
    requires AwaitsReadBack(moves, counted, confirmAt, env, tick)
    ensures ConfirmedOk(moves, if env.fails(tick) then counted else moves, confirmAt, env, tick + 1)
  {
  }

  lemma ConfirmedLater(moves: nat, counted: nat, confirmAt: seq<nat>, env: Env, tick: nat)
    requires ConfirmedOk(moves, counted, confirmAt, env, tick)
    ensures ConfirmedOk(moves, counted, confirmAt, env, tick + 1)
    ensures counted == moves ==> AwaitsReadBack(moves + 1, counted, confirmAt + [tick], env, tick)
  {
  }

  lemma AllCountedIff(moves: nat, counted: nat, confirmAt: seq<nat>, env: Env, tick: nat)
    requires ConfirmedOk(moves, counted, confirmAt, env, tick) && counted <= moves
    ensures counted == moves <==> forall k :: 0 <= k < moves ==> !env.fails(confirmAt[k])
  {
    if counted < moves {
      assert env.fails(confirmAt[counted]);
    }
  }

  /** Every pass counted was minted by this sweep, each for a different order. */
  ghost predicate MintedOk(s: State, stats: Stats, minted: seq<nat>) {
    stats.classPassesBackfilled == |minted| && Distinct(minted) && forall i :: i in minted ==> i in s.passes
  }

  ghost predicate LedgerOk(s: State, stats: Stats, moved: seq<Move>, counted: nat, minted: seq<nat>, startedAt: int,
                           env: Env, asked: seq<Ask>) {
    && Reachable(s) && MovesOk(s, moved, startedAt, env, asked) && CountsOk(stats, moved, counted)
    && MintedOk(s, stats, minted) && stats.paygateErrors == Failures(env, asked, |asked|)
  }

  lemma LedgerStays(s: State, s': State, stats: Stats, moved: seq<Move>, counted: nat, minted: seq<nat>, startedAt: int,
                    env: Env, asked: seq<Ask>)
    requires LedgerOk(s, stats, moved, counted, minted, startedAt, env, asked) && Later(s, s')
    ensures LedgerOk(s', stats, moved, counted, minted, startedAt, env, asked)
  {
    MovesStayOk(s, s', moved, startedAt, env, asked);
    LaterReachable(s, s');
    LaterGrows(s, s');
  }

  lemma LedgerOpens(s: State, stats: Stats, moved: seq<Move>, minted: seq<nat>, startedAt: int, env: Env, asked: seq<Ask>)
    requires Reachable(s) && |moved| == |minted| == |asked| == 0
    requires stats.reconciledPaid == stats.expiredCancelled == stats.classPassesBackfilled == stats.paygateErrors == 0
    ensures LedgerOk(s, stats, moved, 0, minted, startedAt, env, asked)
  {
  }

  /** The sweep delivers orders it marked paid itself, and orders on its list of missing passes. */
  ghost predicate MayMint(i: nat, moved: seq<Move>, listed: seq<nat>) {
    i in listed || exists k :: 0 <= k < |moved| && moved[k].order == i && moved[k].to == Paid
  }

  ghost predicate MintsOk(minted: seq<nat>, moved: seq<Move>, listed: seq<nat>) {
    forall i :: i in minted ==> MayMint(i, moved, listed)
  }

  lemma MintsStay(minted: seq<nat>, moved: seq<Move>, moved': seq<Move>, listed: seq<nat>, listed': seq<nat>)
    requires MintsOk(minted, moved, listed) && moved <= moved' && (listed == [] || listed == listed')
    ensures MintsOk(minted, moved', listed')
  {
    forall i | i in minted ensures MayMint(i, moved', listed') {
      if i !in listed {
        var k :| 0 <= k < |moved| && moved[k].order == i && moved[k].to == Paid;
        assert moved'[k] == moved[k];
      }
    }
  }

  function CountAsk(stats: Stats, env: Env, a: Ask): Stats {
    stats.(paygateErrors := stats.paygateErrors + if FailedAsk(env, a) then 1 else 0)
  }

  /** A question enters the ledger, counted if it failed. */
  lemma LedgerAsks(s: State, stats: Stats, moved: seq<Move>, counted: nat, minted: seq<nat>, startedAt: int, env: Env,
                   asked: seq<Ask>, a: Ask)
    requires LedgerOk(s, stats, moved, counted, minted, startedAt, env, asked)
    ensures LedgerOk(s, CountAsk(stats, env, a), moved, counted, minted, startedAt, env, asked + [a])
  {
    FailuresIgnoreTail(env, asked, a, |asked|);
    forall k | 0 <= k < |moved| && moved[k].to == Paid ensures ToldPaid(env, asked + [a], moved[k].order) {
      ToldStays(env, asked, [a], moved[k].order);
    }
  }

  /** A pass minted by the sweep enters the ledger, counted. */
  lemma LedgerMints(s: State, stats: Stats, moved: seq<Move>, counted: nat, minted: seq<nat>, startedAt: int, env: Env,
                    asked: seq<Ask>, i: nat)
    requires LedgerOk(s, stats, moved, counted, minted, startedAt, env, asked) && i !in s.passes
    requires i < |s.orders| && s.orders[i].kind == ClassPackage && s.orders[i].deliverable && WasPaid(s, i)
    ensures var s', stats' := s.(passes := s.passes + [i]), stats.(classPassesBackfilled := stats.classPassesBackfilled + 1);
            Later(s, s') && LedgerOk(s', stats', moved, counted, minted + [i], startedAt, env, asked)
  {
    MintIsLater(s, i);
    LedgerStays(s, s.(passes := s.passes + [i]), stats, moved, counted, minted, startedAt, env, asked);
    assert i !in minted;
  }

  /** A move enters the ledger uncounted. */
  lemma LedgerMoves(s: State, stats: Stats, moved: seq<Move>, counted: nat, minted: seq<nat>, startedAt: int, env: Env,
                    asked: seq<Ask>, step: Step)
    requires LedgerOk(s, stats, moved, counted, minted, startedAt, env, asked) && counted == |moved|
    requires step.Resolve? && Enabled(s, step) && step.source == Cron
    requires Justified(Move(step.i, PendingPayment, step.to, Cron), s.orders[step.i], startedAt, env, asked)
    ensures var s', moved' := Do(s, step), moved + [Move(step.i, PendingPayment, step.to, Cron)];
            && Later(s, s') && LedgerOk(s', stats, moved', counted, minted, startedAt, env, asked)
            && s'.orders[step.i].status == step.to
            && (step.to == Paid ==> step.job in s'.jobs && s'.jobs[step.job] == Job(step.i, Unread))
  {
    MoveIsNew(s, moved, step, startedAt, env, asked);
    LaterReachable(s, Do(s, step));
    LaterGrows(s, Do(s, step));
    MoveLogged(s, step);
    TallyIgnoresTail(moved, Move(step.i, PendingPayment, step.to, Cron), counted, Paid);
    TallyIgnoresTail(moved, Move(step.i, PendingPayment, step.to, Cron), counted, Cancelled);
  }

  /** The last move becomes counted. */
  lemma LedgerCounts(s: State, stats: Stats, moved: seq<Move>, minted: seq<nat>, startedAt: int, env: Env, asked: seq<Ask>,
                     to: OrderStatus)
    requires |moved| > 0 && LedgerOk(s, stats, moved, |moved| - 1, minted, startedAt, env, asked) && moved[|moved| - 1].to == to
    requires to == Paid || to == Cancelled
    ensures LedgerOk(s, Counted(stats, to), moved, |moved|, minted, startedAt, env, asked)
  {
    CountMove(stats, moved, to);
  }

  /** The order is out of pending, or its payment belongs to another order. */
  ghost predicate Resolved(s: State, i: nat, paymentId: Option<string>)
    requires i < |s.orders|
  {
    s.orders[i].status != PendingPayment || PaymentClaimed(s.orders, i, paymentId)
  }

  lemma ResolvedStays(s: State, s': State, i: nat, paymentId: Option<string>)
    requires Later(s, s') && i < |s.orders| && Resolved(s, i, paymentId)
    ensures Resolved(s', i, paymentId)
  {
    LaterGrows(s, s');
    if PaymentClaimed(s.orders, i, paymentId) {
      ClaimStays(s, s', i, paymentId);
    }
  }

  function Counted(stats: Stats, to: OrderStatus): Stats {
    if to == Paid then stats.(reconciledPaid := stats.reconciledPaid + 1)
    else stats.(expiredCancelled := stats.expiredCancelled + 1)
  }

  lemma CountMove(stats: Stats, moved: seq<Move>, to: OrderStatus)
    requires |moved| > 0 && moved[|moved| - 1].to == to && CountsOk(stats, moved, |moved| - 1)
    requires to == Paid || to == Cancelled
    ensures CountsOk(Counted(stats, to), moved, |moved|)
  {
  }

  /** One move of the sweep: it is new, and its order is settled. */
  lemma MoveIsNew(s: State, moved: seq<Move>, step: Step, startedAt: int, env: Env, asked: seq<Ask>)
    requires Reachable(s) && MovesOk(s, moved, startedAt, env, asked) && step.Resolve? && Enabled(s, step) && step.source == Cron
    requires Justified(Move(step.i, PendingPayment, step.to, Cron), s.orders[step.i], startedAt, env, asked)
    ensures var s', m := Do(s, step), Move(step.i, PendingPayment, step.to, Cron);
            && Later(s, s') && MovesOk(s', moved + [m], startedAt, env, asked) && s'.orders[step.i].status != PendingPayment
  {
    StepIsLater(s, step);
    MovesStayOk(s, Do(s, step), moved, startedAt, env, asked);
    MoveLogged(s, step);
    FixedFields(s, Do(s, step), step.i);
    MoveAppends(Do(s, step), moved, Move(step.i, PendingPayment, step.to, Cron), startedAt, env, asked);
  }

  lemma MoveAppends(s: State, moved: seq<Move>, m: Move, startedAt: int, env: Env, asked: seq<Ask>)
    requires MovesOk(s, moved, startedAt, env, asked) && m in s.log && m.order < |s.orders|
    requires s.orders[m.order].status != PendingPayment && Justified(m, s.orders[m.order], startedAt, env, asked)
    requires forall k :: 0 <= k < |moved| ==> moved[k].order != m.order
    ensures MovesOk(s, moved + [m], startedAt, env, asked)
  {
  }

  /** The guarded update finds the order pending and the payment unclaimed, once the call returns. */
  predicate WillMove(s: State, env: Env, tick: nat, i: nat, paymentId: Option<string>) {
    !env.fails(tick) && TransitionResult(Run(s, env.others(tick)).orders, i, paymentId) == PaymentOrders.Applied
  }

  /** The guarded update trips the unique index: the order is pending, and another order claims the payment. */
  predicate WillBeRefused(s: State, env: Env, tick: nat, i: nat, paymentId: Option<string>) {
    var orders := Run(s, env.others(tick)).orders;
    !env.fails(tick) && i < |orders| && orders[i].status == PendingPayment && PaymentClaimed(orders, i, paymentId)
  }

  /** After the read-back the sweep holds the fulfilment in its own hands; it is on record if the order was still paid. */
  lemma ReadBackRecords(s: State, job: nat, i: nat, throws: bool)
    requires Reachable(s) && job in s.jobs && s.jobs[job] == Job(i, Unread) && i < |s.orders|
    ensures var s' := Do(Do(s, ReadBack(job, throws)), Drop(job));
            && Later(s, s') && s'.orders == s.orders && s'.passes == s.passes
            && (i in s'.immediate <==> !throws && s.orders[i].status == Paid)
  {
    ReachableInv(s);
    ReadBackStarts(s, job, i, throws);
    TwoSteps(s, ReadBack(job, throws), Drop(job));
  }

  lemma ReadBackStarts(s: State, job: nat, i: nat, throws: bool)
    requires ReadsOk(s) && UnreadOk(s) && job in s.jobs && s.jobs[job] == Job(i, Unread) && i < |s.orders|
    ensures var s' := Do(Do(s, ReadBack(job, throws)), Drop(job));
            && s'.orders == s.orders && s'.passes == s.passes
            && (i in s'.immediate <==> !throws && s.orders[i].status == Paid)
  {
    assert i !in s.immediate by {
      assert !WasRead(s, i);
    }
  }

  /** Some job id is unused. */
  lemma {:induction false} UnusedId(ids: set<nat>) returns (j: nat)
    ensures j !in ids && forall i :: i in ids ==> i < j
    decreases ids
  {
    j := 0;
    if ids != {} {
      var x :| x in ids;
      var k := UnusedId(ids - {x});
      j := if x < k then k else x + 1;
      forall i | i in ids ensures i < j {
        assert i != x ==> i in ids - {x};
      }
    }
  }

  lemma MoveLogged(s: State, step: Step)
    requires step.Resolve? && Enabled(s, step)
    ensures var s', m := Do(s, step), Move(step.i, PendingPayment, step.to, step.source);
            && s'.log == s.log + [m] && m in s'.log
            && step.i < |s'.orders| && s'.orders[step.i].status == step.to && step.to != PendingPayment
  {
    assert Do(s, step).log[|s.log|] == Move(step.i, PendingPayment, step.to, step.source);
  }

  /** A claimed payment stays claimed. */
  lemma ClaimStays(s: State, s': State, i: nat, paymentId: Option<string>)
    requires Later(s, s') && PaymentClaimed(s.orders, i, paymentId)
    ensures PaymentClaimed(s'.orders, i, paymentId)
  {
    LaterGrows(s, s');
    var j :| 0 <= j < |s.orders| && j != i && s.orders[j].paymentId == paymentId;
    assert s'.orders[j].paymentId == paymentId;
  }

  /** The payment the gateway reported for order `i` at call `t` belongs to another order. */
  ghost predicate PaidElsewhere(s: State, env: Env, t: nat, i: nat) {
    SaysPaid(env, t, i) && PaymentClaimed(s.orders, i, Some(env.gateway(t, i).id))
  }

  /** Undisturbed, asking at call `tick` marks the order paid: it has a link, is reported paid, and nothing is against it. */
  ghost predicate MarksPaid(s: State, env: Env, tick: nat, i: nat)
    requires i < |s.orders|
  {
    && s.orders[i].linkId.Some? && SaysPaid(env, tick, i) && s.orders[i].status == PendingPayment
    && !PaidElsewhere(s, env, tick, i)
  }

  lemma ElsewhereStays(s: State, s': State, env: Env, t: nat, i: nat)
    requires Later(s, s')
    ensures PaidElsewhere(s, env, t, i) ==> PaidElsewhere(s', env, t, i)
  {
    if PaidElsewhere(s, env, t, i) {
      ClaimStays(s, s', i, Some(env.gateway(t, i).id));
    }
  }

  // ---------- Minting ----------

  lemma MintIsLater(s: State, i: nat)
    requires Reachable(s) && i < |s.orders| && s.orders[i].kind == ClassPackage && WasPaid(s, i)
    requires i !in s.passes && s.orders[i].deliverable
    ensures Later(s, s.(passes := s.passes + [i]))
  {
    var job := UnusedId(s.jobs.Keys);
    MintIsFulfilment(s, i, job);
    ActIsLater(s, 0, Env(_ => [], (_, _) => FetchFailed, _ => false, _ => 0, _ => false), Minted(i, job));
  }

  // ---------- What the sweep is for ----------

  /** Nothing that was pending and expired in `s` is still pending in `s'`. */
  ghost predicate Settled(s: State, s': State, now: int)
    requires |s.orders| <= |s'.orders|
  {
    forall i :: 0 <= i < |s.orders| && ExpiredPending(s.orders[i], now) ==> s'.orders[i].status != PendingPayment
  }

  /** What one pass over a list settles; the plain list skips orders that have a link. */
  ghost predicate ListedSettled(f: Filter, s: State, s': State, now: int)
    requires |s.orders| <= |s'.orders|
  {
    forall i: nat :: i < |s.orders| && Lists(f, s, i, now) && (f == ExpiredWithLink || s.orders[i].linkId.None?)
                     ==> s'.orders[i].status != PendingPayment
  }

  /** An order expired at the start was settled before one of the two lists was read, or is on it. */
  lemma SweptIsSettled(s0: State, s3: State, s4: State, s5: State, s6: State, startedAt: int)
    requires Later(s0, s3) && Later(s3, s4) && Later(s4, s5) && Later(s5, s6)
    requires ListedSettled(ExpiredWithLink, s3, s4, startedAt) && ListedSettled(Expired, s5, s6, startedAt)
    ensures |s0.orders| <= |s6.orders| && Settled(s0, s6, startedAt)
  {
    LaterTrans(s0, s3, s4);
    LaterTrans(s0, s4, s5);
    LaterTrans(s0, s5, s6);
    LaterGrows(s3, s4);
    LaterGrows(s4, s5);
    LaterGrows(s5, s6);
    forall i | 0 <= i < |s0.orders| && ExpiredPending(s0.orders[i], startedAt) ensures s6.orders[i].status != PendingPayment {
      FixedFields(s0, s3, i);
      FixedFields(s0, s5, i);
      if s0.orders[i].linkId.Some? {
        assert s4.orders[i].status != PendingPayment;
      } else {
        assert s5.orders[i].linkId.None?;
      }
    }
  }

  lemma BothListsSettled(env: Env, p0: Played, p3: Played, p4: Played, p5: Played, p6: Played, done: bool, now: int)
    requires Onward(env, p0, p3) && Onward(env, p3, p4) && Onward(env, p4, p5) && Onward(env, p5, p6)
    requires ListedSettled(ExpiredWithLink, p3.s, p4.s, now) && (done ==> ListedSettled(Expired, p5.s, p6.s, now))
    ensures Onward(env, p0, p6) && (done ==> Settled(p0.s, p6.s, now))
  {
    OnwardTrans(env, p0, p3, p4);
    OnwardTrans(env, p0, p4, p5);
    OnwardTrans(env, p0, p5, p6);
    if done {
      SweptIsSettled(p0.s, p3.s, p4.s, p5.s, p6.s, now);
    }
  }

  /**
   The first order the sweep will cancel has no link, nothing comes before it, every call up to the cancellation works,
   and the read-back after it throws.
   */
  ghost predicate LosesItsMove(s: State, env: Env, tick: int, now: int) {
    && Undisturbed(env) && All(Stuck, s, now) == [] && All(ExpiredWithLink, s, now) == [] && All(Expired, s, now) != []
    && tick + 4 >= 0 && (forall t: nat :: tick <= t < tick + 4 ==> !env.fails(t)) && env.fails(tick + 4)
  }

  /** Of the 50 oldest paid packages without a pass in `seen`, all that can be delivered have their passes in `s`. */
  ghost predicate OldestDelivered(seen: State, now: int, s: State) {
    forall i :: i in Take(Backlog(seen, now), BACKLOG_LIMIT) && Deliverable(seen, i) ==> i in s.passes
  }

  /** Orders of one kind that were paid at some time. */
  ghost predicate Payable(s: State, ids: seq<nat>, kind: Kind) {
    forall k :: 0 <= k < |ids| ==> ids[k] < |s.orders| && s.orders[ids[k]].kind == kind && WasPaid(s, ids[k])
  }

  ghost predicate Delivered(s: State, ids: seq<nat>) {
    forall k :: 0 <= k < |ids| ==> ids[k] < |s.orders| && (Deliverable(s, ids[k]) ==> ids[k] in s.passes)
  }

  lemma DeliverNext(s: State, ids: seq<nat>, k: nat)
    requires k < |ids|
    ensures DeliverEach(s, ids[k..]) == DeliverEach(DeliverEach(s, [ids[k]]), ids[k + 1..])
  {
    var i := ids[k];
    assert ids[k..][1..] == ids[k + 1..];
    var s1 := if Deliverable(s, i) && i !in s.passes then s.(passes := s.passes + [i]) else s;
    assert [i][1..] == [];
    assert DeliverEach(s, [i]) == DeliverEach(s1, []) == s1;
  }

  lemma ListedArePayable(s: State, f: Filter, now: int, ids: seq<nat>)
    requires Reachable(s) && (f == PaidTickets || f == PaidPackages) && forall i :: i in ids ==> i in All(f, s, now)
    ensures Payable(s, ids, if f == PaidTickets then EventTicket else ClassPackage)
  {
    ReachableInv(s);
    forall k | 0 <= k < |ids| ensures ids[k] < |s.orders| && Lists(f, s, ids[k], now) {
      assert ids[k] in ids;
    }
  }

  lemma PayableStays(s: State, s': State, ids: seq<nat>, kind: Kind)
    requires Payable(s, ids, kind) && Later(s, s')
    ensures Payable(s', ids, kind)
  {
    forall k | 0 <= k < |ids| ensures WasPaid(s', ids[k]) && s'.orders[ids[k]].kind == kind {
      PaidStays(s, s', ids[k]);
      FixedFields(s, s', ids[k]);
    }
  }

  lemma FixedFields(s: State, s': State, i: nat)
    requires Later(s, s') && i < |s.orders|
    ensures s'.orders[i].kind == s.orders[i].kind && s'.orders[i].deliverable == s.orders[i].deliverable
    ensures s'.orders[i].linkId == s.orders[i].linkId && s'.orders[i].expiresAt == s.orders[i].expiresAt
  {
    LaterGrows(s, s');
    assert s'.orders[i].(status := s.orders[i].status, source := None, paymentId := None, updatedAt := 0)
           == s.orders[i].(source := None, paymentId := None, updatedAt := 0);
  }

  lemma DeliveredNext(s: State, s': State, ids: seq<nat>, k: nat)
    requires k < |ids| && Delivered(s, ids[..k]) && Later(s, s') && ids[k] < |s.orders|
    requires Deliverable(s', ids[k]) ==> ids[k] in s'.passes
    ensures Delivered(s', ids[..k + 1])
  {
    LaterGrows(s, s');
    forall j | 0 <= j < k + 1 && Deliverable(s', ids[j]) ensures ids[j] in s'.passes {
      if j < k {
        assert ids[..k][j] == ids[j] && ids[j] < |s.orders|;
        FixedFields(s, s', ids[j]);
      }
    }
  }

  lemma AllDelivered(seen: State, s: State, ids: seq<nat>)
    requires Later(seen, s) && Delivered(s, ids)
    ensures forall i :: i in ids && Deliverable(seen, i) ==> i in s.passes
  {
    forall i | i in ids && Deliverable(seen, i) ensures i in s.passes {
      var k :| 0 <= k < |ids| && ids[k] == i;
      FixedFields(seen, s, i);
    }
  }

  lemma ResolvedStaysPut(s: State, env: Env, tick: nat, i: nat, paymentId: Option<string>)
    requires i < |s.orders| && s.orders[i].status != PendingPayment
    ensures !WillMove(s, env, tick, i, paymentId)
  {
    PendingNeverReturns(s, env.others(tick));
  }

  /** A pending order with nothing against it is moved. */
  lemma UndisturbedMoves(s: State, env: Env, tick: nat, i: nat)
    requires Undisturbed(env) && i < |s.orders| && s.orders[i].status == PendingPayment && !env.fails(tick)
    ensures WillMove(s, env, tick, i, None)
  {
    assert Run(s, []) == s;
  }

  // ---------- The lists of expired orders ----------

  /** Every listed order is resolved, but for those the plain list skips. */
  ghost predicate AllSettled(s: State, s': State, list: seq<nat>, ask: bool) {
    forall k :: 0 <= k < |list| ==> list[k] < |s.orders| && list[k] < |s'.orders|
                                    && (ask || s.orders[list[k]].linkId.None? ==> s'.orders[list[k]].status != PendingPayment)
  }

  /** The first order of the list is cancelled, and the read-back of that move throws. */
  ghost predicate LosesFirst(s: State, env: Env, tick: nat, list: seq<nat>, ask: bool) {
    && list != [] && !ask && list[0] < |s.orders| && s.orders[list[0]].linkId.None?
    && WillMove(s, env, tick, list[0], None) && env.fails(tick + 1)
  }

  /** Order `i` was cancelled, to be read back in call `t`. */
  ghost predicate LostMove(i: nat, moved: seq<Move>, moved': seq<Move>, confirmAt: seq<nat>, confirmAt': seq<nat>, t: int) {
    && moved' == moved + [Move(i, PendingPayment, Cancelled, Cron)]
    && |confirmAt'| == |confirmAt| + 1 && confirmAt'[|confirmAt|] == t
  }

  /** Nothing was done. */
  ghost predicate Idle(s: State, s': State, moved: seq<Move>, moved': seq<Move>, confirmAt: seq<nat>, confirmAt': seq<nat>) {
    s' == s && moved' == moved && confirmAt' == confirmAt
  }

  lemma SettledNext(s0: State, s: State, s': State, list: seq<nat>, k: nat, ask: bool)
    requires k < |list| && AllSettled(s0, s, list[..k], ask) && Later(s0, s) && Later(s, s') && list[k] < |s0.orders|
    requires ask || s.orders[list[k]].linkId.None? ==> s'.orders[list[k]].status != PendingPayment
    ensures AllSettled(s0, s', list[..k + 1], ask)
  {
    LaterGrows(s, s');
    FixedFields(s0, s, list[k]);
    forall j | 0 <= j < k ensures list[..k + 1][j] == list[..k][j] {
    }
  }

  lemma ListIsSettled(f: Filter, s: State, s': State, now: int)
    requires (f == ExpiredWithLink || f == Expired) && |s.orders| <= |s'.orders|
    requires AllSettled(s, s', All(f, s, now), f == ExpiredWithLink)
    ensures ListedSettled(f, s, s', now)
  {
    var list := All(f, s, now);
    forall i: nat | i < |s.orders| && Lists(f, s, i, now) && (f == ExpiredWithLink || s.orders[i].linkId.None?)
      ensures s'.orders[i].status != PendingPayment
    {
      assert i in list;
      var k :| 0 <= k < |list| && list[k] == i;
    }
  }

  lemma FirstHasNoLink(s: State, now: int)
    requires All(Expired, s, now) != [] && All(ExpiredWithLink, s, now) == []
    ensures var i := All(Expired, s, now)[0];
            i < |s.orders| && s.orders[i].status == PendingPayment && s.orders[i].linkId.None?
  {
    var i := All(Expired, s, now)[0];
    assert i in All(Expired, s, now);
    assert i !in All(ExpiredWithLink, s, now);
  }

  lemma SettledBefore(s: State, s': State, s'': State, now: int)
    requires Later(s, s') && Later(s', s'') && Settled(s', s'', now)
    ensures Later(s, s'') && Settled(s, s'', now)
  {
    LaterTrans(s, s', s'');
    LaterGrows(s, s');
    LaterGrows(s', s'');
    forall i | 0 <= i < |s.orders| && ExpiredPending(s.orders[i], now) ensures s''.orders[i].status != PendingPayment {
      FixedFields(s, s', i);
    }
  }

  lemma SettledLasts(s: State, s': State, s'': State, now: int)
    requires Later(s, s') && Later(s', s'') && Settled(s, s', now)
    ensures Later(s, s'') && Settled(s, s'', now)
  {
    LaterTrans(s, s', s'');
    LaterGrows(s', s'');
  }
}
