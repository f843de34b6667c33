/** The nightly sweep, with webhooks, polls, overrides and other sweeps running at every one of its awaits. */
module PaymentsReconciliation {
  import opened Wrappers
  import opened PaymentOrders
  import opened PaymentQueries
  import opened PaymentsBacklog
  import opened SweepTrace
  import opened SweepBooks

  class Sweep {
    var s: State
    var stats: Stats
    var tick: nat
    var lastSweep: Option<SweepResult>
    const env: Env

    ghost var startedAt: int
    ghost var moved: seq<Move>
    /** How many of the moves are in the counters. */
    ghost var counted: nat
    /** The call that reads back each move. */
    ghost var confirmAt: seq<nat>
    ghost var minted: seq<nat>
    ghost var asked: seq<Ask>
    /** The orders listed as paid and without a pass. */
    ghost var listed: seq<nat>

    constructor (s: State, env: Env)
      ensures this.s == s && this.env == env && tick == 0
    {
      this.s, this.env, tick, lastSweep := s, env, 0, None;
      stats := Stats(0, 0, 0, 0, 0, 0);
      startedAt, moved, counted, confirmAt, minted, asked, listed := 0, [], 0, [], [], [], [];
    }

    /** Where the sweep has got to. */
    ghost function Now(): Played
      reads this
    {
      Played(s, tick, moved, confirmAt, minted, asked)
    }

    ghost predicate Books()
      reads this
    {
      LedgerOk(s, stats, moved, counted, minted, startedAt, env, asked) && MintsOk(minted, moved, listed)
    }

    ghost predicate Confirmed()
      reads this
    {
      ConfirmedOk(|moved|, counted, confirmAt, env, tick)
    }

    /** The books are in order, and a move is counted exactly if its read-back did not throw. */
    ghost predicate Balanced()
      reads this
    {
      Books() && Confirmed()
    }

    /** Balanced, and every move is counted. */
    ghost predicate Exact()
      reads this
    {
      Balanced() && counted == |moved|
    }

    /** Everybody else runs, leaving the sweep's own job alone; then the awaited call returns or throws. */
    method Await(mine: Option<nat>) returns (ok: bool)
      requires Books()
      modifies this`s, this`tick
      ensures Books() && Onward(env, old(Now()), Now()) && tick == old(tick) + 1 && (ok <==> !env.fails(old(tick)))
      ensures s == Run(old(s), Foreign(env.others(old(tick)), mine))
      ensures Undisturbed(env) ==> s == old(s)
      ensures old(Confirmed()) ==> Confirmed()
    {
      var others := Foreign(env.others(tick), mine);
      RunIsLater(s, others);
      LedgerStays(s, Run(s, others), stats, moved, counted, minted, startedAt, env, asked);
      AwaitIsAct(env, Now(), mine, None);
      s := Run(s, others);
      ok := !env.fails(tick);
      tick := tick + 1;
    }

    /** Asks the gateway about order `i`. A failed fetch is counted and swallowed. */
    method AskGateway(i: nat) returns (reply: GatewayReply)
      requires Books()
      modifies this`s, this`tick, this`asked, this`stats
      ensures Books() && Onward(env, old(Now()), Now()) && tick == old(tick) + 1
      ensures reply == if env.fails(old(tick)) then FetchFailed else env.gateway(old(tick), i)
      ensures s == Run(old(s), env.others(old(tick)))
      ensures asked == old(asked) + [Ask(old(tick), i)] && stats == CountAsk(old(stats), env, Ask(old(tick), i))
      ensures Undisturbed(env) ==> s == old(s)
      ensures old(Confirmed()) ==> Confirmed()
    {
      ghost var call := Ask(tick, i);
      AwaitIsAct(env, Now(), None, Some(i));
      LedgerAsks(s, stats, moved, counted, minted, startedAt, env, asked, call);
      RunIsLater(s, env.others(tick));
      LedgerStays(s, Run(s, env.others(tick)), CountAsk(stats, env, call), moved, counted, minted, startedAt, env, asked + [call]);
      asked := asked + [call];
      s := Run(s, env.others(tick));
      reply := if env.fails(tick) then FetchFailed else env.gateway(tick, i);
      stats := stats.(paygateErrors := stats.paygateErrors + if reply.FetchFailed? then 1 else 0);
      tick := tick + 1;
    }

    /**
     `transitionStatus` as cron: the guarded update, then the order is read back, unless the unique index on the payment
     refused the update. A move whose read-back throws was made but is not counted, and aborts the sweep.
     */
    method Transition(i: nat, to: OrderStatus, paymentId: Option<string>) returns (ok: bool, applied: bool)
      requires Exact() && i < |s.orders| && Justified(Move(i, PendingPayment, to, Cron), s.orders[i], startedAt, env, asked)
      modifies this`s, this`tick, this`moved, this`stats, this`counted, this`confirmAt
      ensures Balanced() && Onward(env, old(Now()), Now()) && (ok ==> Exact())
      ensures ok <==> !env.fails(old(tick)) && (WillBeRefused(old(s), env, old(tick), i, paymentId) || !env.fails(old(tick) + 1))
      ensures old(tick) < tick
      ensures applied <==> ok && WillMove(old(s), env, old(tick), i, paymentId)
      ensures stats == if applied then Counted(old(stats), to) else old(stats)
      ensures if WillMove(old(s), env, old(tick), i, paymentId)
              then moved == old(moved) + [Move(i, PendingPayment, to, Cron)] && confirmAt == old(confirmAt) + [old(tick) + 1]
              else moved == old(moved) && confirmAt == old(confirmAt)
      ensures ok ==> Resolved(s, i, paymentId)
      ensures applied && to == Paid ==> (i in s.immediate <==> s.orders[i].status == Paid)
      ensures Undisturbed(env) ==>
                if WillMove(old(s), env, old(tick), i, paymentId) then s.orders[i].status == to else s.orders == old(s).orders
    {
      var moves, refused, job;
      ok, moves, refused, job := UpdatePending(i, to, paymentId);
      applied := false;
      if !ok || refused { return; }
      ghost var updated := Now();
      ok := Confirm(i, to, moves, job);
      applied := moves && ok;
      OnwardTrans(env, old(Now()), updated, Now());
      ResolvedStays(updated.s, s, i, paymentId);
    }

    /** Reads the order back and counts the move. */
    method Confirm(i: nat, to: OrderStatus, moves: bool, job: nat) returns (ok: bool)
      requires Books() && i < |s.orders|
      requires if moves then AwaitsReadBack(|moved|, counted, confirmAt, env, tick) else Exact()
      requires moves ==> moved[|moved| - 1].to == to && (to == Paid || to == Cancelled)
      requires moves && to == Paid ==> job in s.jobs && s.jobs[job] == Job(i, Unread)
      modifies this`s, this`tick, this`stats, this`counted
      ensures Balanced() && Onward(env, old(Now()), Now()) && tick == old(tick) + 1
      ensures (ok <==> !env.fails(old(tick))) && (ok ==> Exact())
      ensures stats == if moves && ok then Counted(old(stats), to) else old(stats)
      ensures moves && ok && to == Paid ==> (i in s.immediate <==> s.orders[i].status == Paid)
      ensures Undisturbed(env) ==> s.orders == old(s).orders
    {
      if moves {
        AwaitedIsConfirmed(|moved|, counted, confirmAt, env, tick);
      } else {
        ConfirmedLater(|moved|, counted, confirmAt, env, tick);
      }
      ok := ReadBackOrder(i, to, moves, job);
      if moves && ok {
        CountLast(to);
      }
    }

    /** The awaited `updateMany`; a payment leaves its winner with a job. */
    method UpdatePending(i: nat, to: OrderStatus, paymentId: Option<string>)
      returns (ok: bool, moves: bool, refused: bool, job: nat)
      requires Exact() && i < |s.orders| && Justified(Move(i, PendingPayment, to, Cron), s.orders[i], startedAt, env, asked)
      modifies this`s, this`tick, this`moved, this`confirmAt
      ensures Books() && Onward(env, old(Now()), Now()) && tick == old(tick) + 1 && (ok <==> !env.fails(old(tick)))
      ensures moves <==> WillMove(old(s), env, old(tick), i, paymentId)
      ensures refused <==> WillBeRefused(old(s), env, old(tick), i, paymentId)
      ensures moves ==> moved == old(moved) + [Move(i, PendingPayment, to, Cron)] && confirmAt == old(confirmAt) + [tick]
      ensures moves ==> AwaitsReadBack(|moved|, counted, confirmAt, env, tick) && s.orders[i].status == to
      ensures !moves ==> Exact() && moved == old(moved) && confirmAt == old(confirmAt)
      ensures moves && to == Paid ==> job in s.jobs && s.jobs[job] == Job(i, Unread)
      ensures ok ==> Resolved(s, i, paymentId)
      ensures Undisturbed(env) && !moves ==> s == old(s)
    {
      moves, refused, job := false, false, 0;
      ok := Await(None);
      if ok {
        refused := s.orders[i].status == PendingPayment && PaymentClaimed(s.orders, i, paymentId);
        FixedFields(old(s), s, i);
        moves, job := SetAndNote(i, to, paymentId, old(Now()));
      }
    }

    method SetAndNote(i: nat, to: OrderStatus, paymentId: Option<string>, ghost first: Played) returns (moves: bool, job: nat)
      requires Exact() && Onward(env, first, Now()) && i < |s.orders|
      requires Justified(Move(i, PendingPayment, to, Cron), s.orders[i], startedAt, env, asked)
      modifies this`s, this`moved, this`confirmAt
      ensures Books() && Onward(env, first, Now()) && i < |s.orders|
      ensures if moves then s.orders[i].status == to else s == old(s)
      ensures moves <==> TransitionResult(old(s).orders, i, paymentId) == PaymentOrders.Applied
      ensures moves ==> moved == old(moved) + [Move(i, PendingPayment, to, Cron)] && confirmAt == old(confirmAt) + [tick]
      ensures moves ==> AwaitsReadBack(|moved|, counted, confirmAt, env, tick)
      ensures !moves ==> moved == old(moved) && confirmAt == old(confirmAt)
      ensures moves && to == Paid ==> job in s.jobs && s.jobs[job] == Job(i, Unread)
    {
      ConfirmedLater(|moved|, counted, confirmAt, env, tick);
      moves, job := TransitionResult(s.orders, i, paymentId) == PaymentOrders.Applied, 0;
      if moves {
        job := FreshJob();
        MakeMove(i, to, paymentId, job);
        OnwardTrans(env, first, old(Now()), Now());
      }
    }

    method FreshJob() returns (job: nat)
      ensures job !in s.jobs
    {
      ghost var unused := UnusedId(s.jobs.Keys);
      assert unused !in s.jobs;
      job :| job !in s.jobs;
    }

    /** The update itself, noting which call will read it back. */
    method MakeMove(i: nat, to: OrderStatus, paymentId: Option<string>, job: nat)
      requires Books() && counted == |moved| && i < |s.orders| && job !in s.jobs
      requires Justified(Move(i, PendingPayment, to, Cron), s.orders[i], startedAt, env, asked)
      requires TransitionResult(s.orders, i, paymentId) == PaymentOrders.Applied
      modifies this`s, this`moved, this`confirmAt
      ensures Books() && Onward(env, old(Now()), Now()) && s.orders[i].status == to
      ensures moved == old(moved) + [Move(i, PendingPayment, to, Cron)] && confirmAt == old(confirmAt) + [tick]
      ensures to == Paid ==> job in s.jobs && s.jobs[job] == Job(i, Unread)
    {
      var step := Resolve(i, to, paymentId, Cron, env.clock(tick), job);
      ghost var act := Updated(i, to, paymentId, env.clock(tick), job);
      LedgerMoves(s, stats, moved, counted, minted, startedAt, env, asked, step);
      UpdateIsAct(env, Now(), act);
      MintsStay(minted, moved, moved + [Move(i, PendingPayment, to, Cron)], listed, listed);
      moved, confirmAt := moved + [Move(i, PendingPayment, to, Cron)], confirmAt + [tick];
      s := Do(s, step);
    }

    /** The awaited read after the update. A payment still paid by then counts as a fulfilment started. */
    method ReadBackOrder(i: nat, to: OrderStatus, moves: bool, job: nat) returns (ok: bool)
      requires Books() && i < |s.orders|
      requires moves && to == Paid ==> job in s.jobs && s.jobs[job] == Job(i, Unread)
      modifies this`s, this`tick
      ensures Books() && Onward(env, old(Now()), Now()) && tick == old(tick) + 1 && (ok <==> !env.fails(old(tick)))
      ensures moves && to == Paid && ok ==> (i in s.immediate <==> s.orders[i].status == Paid)
      ensures Undisturbed(env) ==> s.orders == old(s).orders
      ensures old(Confirmed()) ==> Confirmed()
    {
      if moves && to == Paid {
        ok := Await(Some(job));
        ghost var before := Now();
        ForeignLeavesJob(old(s), env.others(old(tick)), job);
        RecordReadBack(i, job, !ok);
        OnwardTrans(env, old(Now()), before, Now());
      } else {
        ok := Await(None);
      }
    }

    method RecordReadBack(i: nat, job: nat, throws: bool)
      requires Books() && i < |s.orders| && job in s.jobs && s.jobs[job] == Job(i, Unread)
      modifies this`s
      ensures Books() && Onward(env, old(Now()), Now()) && s.orders == old(s).orders && s.passes == old(s).passes
      ensures i in s.immediate <==> !throws && s.orders[i].status == Paid
    {
      ghost var next := AfterReadBack(s, job, throws);
      ReadBackRecords(s, job, i, throws);
      ReadIsAct(env, Now(), job, throws);
      LedgerStays(s, next, stats, moved, counted, minted, startedAt, env, asked);
      s := AfterReadBack(s, job, throws);
    }

    method CountLast(to: OrderStatus)
      requires Books() && counted == |moved| - 1 && moved[counted].to == to && (to == Paid || to == Cancelled)
      requires ConfirmedOk(|moved|, |moved|, confirmAt, env, tick)
      modifies this`stats, this`counted
      ensures Exact() && stats == Counted(old(stats), to)
    {
      LedgerCounts(s, stats, moved, minted, startedAt, env, asked, to);
      stats, counted := Counted(stats, to), |moved|;
    }

    // ---------- Fulfilment ----------

    /**
     `createClassPass`: look for a pass, look up the package, insert. A failed insert is swallowed; the unique index on
     the order turns a concurrent mint into one. A pass minted is counted.
     */
    method CreateClassPass(i: nat) returns (ok: bool)
      requires Balanced() && i < |s.orders| && s.orders[i].kind == ClassPackage && WasPaid(s, i) && MayMint(i, moved, listed)
      modifies this`s, this`tick, this`stats, this`minted
      ensures Balanced() && Onward(env, old(Now()), Now()) && old(tick) <= tick
      ensures stats == old(stats).(classPassesBackfilled := |minted|)
      ensures minted == old(minted) || (minted == old(minted) + [i] && i !in old(s).passes)
      ensures CallsWork(env, old(tick)) ==> ok && (Deliverable(s, i) ==> i in s.passes)
      ensures Quiet(env) ==> s == DeliverEach(old(s), [i])
      ensures Undisturbed(env) ==> s.orders == old(s).orders
    {
      ok := Await(None);
      if !ok { return; }
      LaterGrows(old(s), s);
      if i in s.passes { return; }
      ghost var looked := Now();
      PaidStays(old(s), s, i);
      FixedFields(old(s), s, i);
      ok := LookUpPackage(i);
      OnwardTrans(env, old(Now()), looked, Now());
    }

    /** The awaited lookup of the package, and the insert if it is there. */
    method LookUpPackage(i: nat) returns (ok: bool)
      requires Balanced() && i < |s.orders| && s.orders[i].kind == ClassPackage && WasPaid(s, i) && MayMint(i, moved, listed)
      modifies this`s, this`tick, this`stats, this`minted
      ensures Balanced() && Onward(env, old(Now()), Now()) && old(tick) <= tick
      ensures stats == old(stats).(classPassesBackfilled := |minted|)
      ensures minted == old(minted) || (minted == old(minted) + [i] && i !in old(s).passes)
      ensures CallsWork(env, old(tick)) ==> ok && (Deliverable(s, i) ==> i in s.passes)
      ensures Quiet(env) && i !in old(s).passes ==> s == DeliverEach(old(s), [i])
      ensures Undisturbed(env) ==> s.orders == old(s).orders
    {
      ok := Await(None);
      LaterGrows(old(s), s);
      if !ok || !s.orders[i].deliverable { return; }
      ghost var found := Now();
      PaidStays(old(s), s, i);
      FixedFields(old(s), s, i);
      InsertPass(i);
      OnwardTrans(env, old(Now()), found, Now());
    }

    /** The awaited insert. */
    method InsertPass(i: nat)
      requires Balanced() && i < |s.orders| && s.orders[i].kind == ClassPackage && s.orders[i].deliverable && WasPaid(s, i)
      requires MayMint(i, moved, listed)
      modifies this`s, this`tick, this`stats, this`minted
      ensures Balanced() && Onward(env, old(Now()), Now()) && tick == old(tick) + 1
      ensures stats == old(stats).(classPassesBackfilled := |minted|)
      ensures minted == old(minted) || (minted == old(minted) + [i] && i !in old(s).passes)
      ensures !env.fails(old(tick)) ==> i in s.passes
      ensures Undisturbed(env) ==>
                s == if i in old(s).passes || env.fails(old(tick)) then old(s) else old(s).(passes := old(s).passes + [i])
    {
      var inserted := Await(None);
      LaterGrows(old(s), s);
      if inserted && i !in s.passes {
        ghost var before := Now();
        PaidStays(old(s), s, i);
        FixedFields(old(s), s, i);
        AddPass(i);
        OnwardTrans(env, old(Now()), before, Now());
      }
    }

    method AddPass(i: nat)
      requires Balanced() && i < |s.orders| && s.orders[i].kind == ClassPackage && s.orders[i].deliverable && WasPaid(s, i)
      requires i !in s.passes && MayMint(i, moved, listed)
      modifies this`s, this`stats, this`minted
      ensures Balanced() && Onward(env, old(Now()), Now()) && s == old(s).(passes := old(s).passes + [i])
      ensures minted == old(minted) + [i] && stats == old(stats).(classPassesBackfilled := |minted|)
    {
      ghost var job := UnusedId(s.jobs.Keys);
      MintIsFulfilment(s, i, job);
      MintIsAct(env, Now(), i, job);
      LedgerMints(s, stats, moved, counted, minted, startedAt, env, asked, i);
      minted := minted + [i];
      s := s.(passes := s.passes + [i]);
      stats := stats.(classPassesBackfilled := stats.classPassesBackfilled + 1);
    }

    /** Minting tickets never throws and is not modelled further; only its success is counted. */
    method CreateTickets()
      requires Balanced()
      modifies this`s, this`tick, this`stats
      ensures Balanced() && Onward(env, old(Now()), Now())
      ensures stats == old(stats).(ticketsBackfilled := stats.ticketsBackfilled) && old(tick) <= tick
      ensures Undisturbed(env) ==> s == old(s)
    {
      var _ := Await(None);
      if env.ticketsMinted(tick) {
        stats := stats.(ticketsBackfilled := stats.ticketsBackfilled + 1);
      }
    }

    /** `fulfillPaidOrder` of a paid order, counted if it delivered. */
    method Fulfil(i: nat) returns (ok: bool)
      requires Balanced() && i < |s.orders| && WasPaid(s, i) && (s.orders[i].kind == ClassPackage ==> MayMint(i, moved, listed))
      modifies this`s, this`tick, this`stats, this`minted
      ensures Balanced() && Onward(env, old(Now()), Now()) && stats.paygateErrors == old(stats).paygateErrors && old(tick) <= tick
      ensures CallsWork(env, old(tick)) ==> ok && (s.orders[i].kind == ClassPackage && Deliverable(s, i) ==> i in s.passes)
      ensures Quiet(env) ==> s == if old(s).orders[i].kind == ClassPackage then DeliverEach(old(s), [i]) else old(s)
      ensures Undisturbed(env) ==> s.orders == old(s).orders
    {
      ok := true;
      if s.orders[i].kind == ClassPackage {
        ok := CreateClassPass(i);
      } else {
        CreateTickets();
        FixedFields(old(s), s, i);
      }
    }

    // ---------- One order against the gateway ----------

    /**
     Asks the gateway about an order with a link: it is marked paid only if the gateway says so, and then it ends up
     resolved unless another order claims the payment. A failed fetch is counted and swallowed.
     */
    method ReconcileOne(i: nat) returns (ok: bool)
      requires Exact() && i < |s.orders|
      modifies this`s, this`tick, this`asked, this`moved, this`stats, this`counted, this`confirmAt, this`minted
      ensures Balanced() && Onward(env, old(Now()), Now()) && (ok ==> Exact()) && (CallsWork(env, old(tick) + 1) ==> ok)
      ensures moved == old(moved) || moved == old(moved) + [Move(i, PendingPayment, Paid, Cron)]
      ensures old(tick) + (if old(s).orders[i].linkId.Some? then 1 else 0) <= tick
      ensures asked == if old(s).orders[i].linkId.Some? then old(asked) + [Ask(old(tick), i)] else old(asked)
      ensures moved != old(moved) ==> old(s).orders[i].linkId.Some? && SaysPaid(env, old(tick), i)
      ensures ok && old(s).orders[i].linkId.Some? && SaysPaid(env, old(tick), i)
              ==> s.orders[i].status != PendingPayment || PaidElsewhere(s, env, old(tick), i)
      ensures stats.paygateErrors == old(stats).paygateErrors
              + if old(s).orders[i].linkId.Some? && (env.fails(old(tick)) || env.gateway(old(tick), i).FetchFailed?) then 1 else 0
      ensures Undisturbed(env) && CallsWork(env, old(tick) + 1) ==>
                if MarksPaid(old(s), env, old(tick), i)
                then s.orders[i].status == Paid && moved == old(moved) + [Move(i, PendingPayment, Paid, Cron)]
                else s.orders == old(s).orders && moved == old(moved)
    {
      ok := true;
      OnwardStays(env, Now());
      if s.orders[i].linkId.None? { return; }
      var reply := AskGateway(i);
      if reply.FetchFailed? || !reply.looksPaid { return; }
      ghost var told := Now();
      FixedFields(old(s), s, i);
      assert asked[|old(asked)|] == Ask(old(tick), i);
      ok := MarkPaid(i, reply.id, old(tick));
      OnwardTrans(env, old(Now()), told, Now());
    }

    method MarkPaid(i: nat, id: string, ghost t: nat) returns (ok: bool)
      requires Exact() && i < |s.orders| && s.orders[i].linkId.Some? && SaysPaid(env, t, i) && id == env.gateway(t, i).id
      requires ToldPaid(env, asked, i)
      modifies this`s, this`tick, this`moved, this`stats, this`counted, this`confirmAt, this`minted
      ensures Balanced() && Onward(env, old(Now()), Now()) && (ok ==> Exact()) && (CallsWork(env, old(tick)) ==> ok)
      ensures moved == old(moved) || moved == old(moved) + [Move(i, PendingPayment, Paid, Cron)]
      ensures ok ==> s.orders[i].status != PendingPayment || PaidElsewhere(s, env, t, i)
      ensures stats.paygateErrors == old(stats).paygateErrors && old(tick) <= tick
      ensures Undisturbed(env) && CallsWork(env, old(tick)) ==>
                if TransitionResult(old(s).orders, i, Some(id)) == PaymentOrders.Applied
                then s.orders[i].status == Paid && moved == old(moved) + [Move(i, PendingPayment, Paid, Cron)]
                else s.orders == old(s).orders && moved == old(moved)
    {
      var applied;
      assert Run(old(s), []) == old(s);
      ok, applied := Transition(i, Paid, Some(id));
      // The order read back may already have been changed by an override: only a paid one is fulfilled.
      if applied && s.orders[i].status == Paid {
        assert moved[|moved| - 1].order == i;
        ok := FulfilMarked(i, old(Now()));
      }
    }

    method FulfilMarked(i: nat, ghost first: Played) returns (ok: bool)
      requires Exact() && Onward(env, first, Now()) && i < |first.s.orders| && s.orders[i].status == Paid
      requires MayMint(i, moved, listed)
      modifies this`s, this`tick, this`stats, this`minted
      ensures Exact() && Onward(env, first, Now()) && s.orders[i].status != PendingPayment && (CallsWork(env, old(tick)) ==> ok)
      ensures stats.paygateErrors == old(stats).paygateErrors && old(tick) <= tick
      ensures Undisturbed(env) ==> s.orders == old(s).orders
    {
      ReachableInv(s);
      ok := Fulfil(i);
      LaterGrows(old(s), s);
      OnwardTrans(env, first, old(Now()), Now());
    }

    method ReconcileAll(list: seq<nat>) returns (ok: bool)
      requires Exact() && forall k :: 0 <= k < |list| ==> list[k] < |s.orders|
      modifies this`s, this`tick, this`asked, this`moved, this`stats, this`counted, this`confirmAt, this`minted
      ensures Balanced() && Onward(env, old(Now()), Now()) && (ok ==> Exact()) && (NoFailure(env) ==> ok)
      ensures |old(moved)| <= |moved| && forall k :: |old(moved)| <= k < |moved| ==> moved[k].to == Paid
      ensures list == [] ==> ok && Idle(old(s), s, old(moved), moved, old(confirmAt), confirmAt) && tick == old(tick)
    {
      ok := true;
      var k := 0;
      OnwardStays(env, Now());
      while k < |list| && ok
        invariant 0 <= k <= |list| && Balanced() && Onward(env, old(Now()), Now()) && (ok ==> Exact()) && (NoFailure(env) ==> ok)
        invariant |old(moved)| <= |moved| && forall m :: |old(moved)| <= m < |moved| ==> moved[m].to == Paid
        invariant k == 0 ==> ok && Idle(old(s), s, old(moved), moved, old(confirmAt), confirmAt) && tick == old(tick)
      {
        ghost var before := Now();
        ok := ReconcileOne(list[k]);
        OnwardTrans(env, old(Now()), before, Now());
        k := k + 1;
      }
    }

    // ---------- Expired orders ----------

    /**
     Asks the gateway, then cancels what is still pending. Left alone, with working database calls, a pending order ends up
     cancelled unless it has a link, the gateway answers that it is paid, and no other order claims that payment; a failed
     fetch is one way to be cancelled. Under interference it is never cancelled when the gateway says it is paid, unless
     another order claims the payment.
     */
    method ExpireOne(i: nat) returns (ok: bool)
      requires Exact() && i < |s.orders| && Overdue(s.orders[i], startedAt)
      modifies this`s, this`tick, this`asked, this`moved, this`stats, this`counted, this`confirmAt, this`minted
      ensures Balanced() && Onward(env, old(Now()), Now()) && (ok ==> Exact()) && (NoFailure(env) ==> ok)
      ensures ok ==> s.orders[i].status != PendingPayment
      ensures ok && old(s).orders[i].linkId.Some? && SaysPaid(env, old(tick), i) && !PaidElsewhere(s, env, old(tick), i)
              ==> moved == old(moved) || moved == old(moved) + [Move(i, PendingPayment, Paid, Cron)]
      ensures Undisturbed(env) && CallsWork(env, old(tick) + 1) && old(s).orders[i].status == PendingPayment
              && (env.fails(old(tick)) ==> old(s).orders[i].linkId.Some?)
              ==> var to := if MarksPaid(old(s), env, old(tick), i) then Paid else Cancelled;
                  s.orders[i].status == to && moved == old(moved) + [Move(i, PendingPayment, to, Cron)]
    {
      ghost var to := if MarksPaid(s, env, tick, i) then Paid else Cancelled;
      ghost var alone := Undisturbed(env) && CallsWork(env, tick + 1) && s.orders[i].status == PendingPayment
                         && (env.fails(tick) ==> s.orders[i].linkId.Some?);
      ok := ReconcileOne(i);
      if !ok { return; }
      assert alone ==> !env.fails(tick) && !env.fails(tick + 1);
      assert alone ==> if to == Paid then s.orders[i].status == Paid && moved == old(moved) + [Move(i, PendingPayment, Paid, Cron)]
                       else s.orders[i].status == PendingPayment && moved == old(moved);
      FixedFields(old(s), s, i);
      ok := CancelRest(i, old(Now()), old(s).orders[i].linkId.Some? && SaysPaid(env, old(tick), i));
    }

    /** The second half: the gateway has been asked, in a call made at the point `first`. */
    method CancelRest(i: nat, ghost first: Played, ghost told: bool) returns (ok: bool)
      requires Exact() && i < |first.s.orders| && Onward(env, first, Now()) && Overdue(s.orders[i], startedAt)
      requires told ==> s.orders[i].status != PendingPayment || PaidElsewhere(s, env, first.tick, i)
      modifies this`s, this`tick, this`moved, this`stats, this`counted, this`confirmAt
      ensures Balanced() && Onward(env, first, Now()) && (ok ==> Exact() && s.orders[i].status != PendingPayment)
      ensures ok <==> !env.fails(old(tick)) && !env.fails(old(tick) + 1)
      ensures told && !PaidElsewhere(s, env, first.tick, i) ==> moved == old(moved)
      ensures ok && Undisturbed(env) ==>
                if old(s).orders[i].status == PendingPayment
                then s.orders[i].status == Cancelled && moved == old(moved) + [Move(i, PendingPayment, Cancelled, Cron)]
                else s.orders[i].status == old(s).orders[i].status && moved == old(moved)
    {
      ok := CancelPending(i);
      ElsewhereStays(old(s), s, env, first.tick, i);
      OnwardTrans(env, first, old(Now()), Now());
    }

    /** Cancels the order if it is still pending. */
    method CancelPending(i: nat) returns (ok: bool)
      requires Exact() && i < |s.orders| && Overdue(s.orders[i], startedAt)
      modifies this`s, this`tick, this`moved, this`stats, this`counted, this`confirmAt
      ensures Balanced() && Onward(env, old(Now()), Now()) && (ok ==> Exact() && s.orders[i].status != PendingPayment)
      ensures ok <==> !env.fails(old(tick)) && !env.fails(old(tick) + 1)
      ensures old(s).orders[i].status != PendingPayment ==> moved == old(moved)
      ensures ok && Undisturbed(env) ==>
                if old(s).orders[i].status == PendingPayment
                then s.orders[i].status == Cancelled && moved == old(moved) + [Move(i, PendingPayment, Cancelled, Cron)]
                else s.orders[i].status == old(s).orders[i].status && moved == old(moved)
      ensures WillMove(old(s), env, old(tick), i, None) ==>
                LostMove(i, old(moved), moved, old(confirmAt), confirmAt, old(tick) + 1)
    {
      if s.orders[i].status != PendingPayment {
        ResolvedStaysPut(s, env, tick, i, None);
      } else if Undisturbed(env) && !env.fails(tick) {
        UndisturbedMoves(s, env, tick, i);
      }
      var applied;
      ok, applied := Transition(i, Cancelled, None);
    }

    /** Ask the gateway first where there is a link to ask about, then cancel whatever is still pending. */
    method ExpireAll(list: seq<nat>, ask: bool) returns (ok: bool)
      requires Exact() && forall k :: 0 <= k < |list| ==> list[k] < |s.orders| && Overdue(s.orders[list[k]], startedAt)
      modifies this`s, this`tick, this`asked, this`moved, this`stats, this`counted, this`confirmAt, this`minted
      ensures Balanced() && Onward(env, old(Now()), Now()) && (ok ==> Exact()) && (NoFailure(env) ==> ok)
      ensures ok ==> AllSettled(old(s), s, list, ask)
      ensures list == [] ==> ok && Now() == old(Now())
      ensures LosesFirst(old(s), env, old(tick), list, ask) ==>
                !ok && LostMove(list[0], old(moved), moved, old(confirmAt), confirmAt, old(tick) + 1)
    {
      ok := true;
      ghost var first, loses := Now(), LosesFirst(s, env, tick, list, ask);
      OnwardStays(env, first);
      for k := 0 to |list|
        invariant ok && Exact() && Onward(env, first, Now()) && AllSettled(first.s, s, list[..k], ask)
        invariant if k == 0 then Now() == first else !loses
      {
        ok := ExpireAt(list, k, ask, first);
        if !ok { return; }
      }
      assert list[..|list|] == list;
    }

    method ExpireAt(list: seq<nat>, k: nat, ask: bool, ghost first: Played) returns (ok: bool)
      requires Exact() && k < |list| && Onward(env, first, Now()) && AllSettled(first.s, s, list[..k], ask)
      requires list[k] < |first.s.orders| && Overdue(first.s.orders[list[k]], startedAt)
      modifies this`s, this`tick, this`asked, this`moved, this`stats, this`counted, this`confirmAt, this`minted
      ensures Balanced() && Onward(env, first, Now()) && (ok ==> Exact()) && (NoFailure(env) ==> ok)
      ensures ok ==> AllSettled(first.s, s, list[..k + 1], ask)
      ensures k == 0 && LosesFirst(old(s), env, old(tick), list, ask) ==>
                !ok && LostMove(list[0], old(moved), moved, old(confirmAt), confirmAt, old(tick) + 1)
    {
      FixedFields(first.s, s, list[k]);
      ok := ExpireNext(list[k], ask);
      OnwardTrans(env, first, old(Now()), Now());
      if ok {
        SettledNext(first.s, old(s), s, list, k, ask);
      }
    }

    /** The loop body: the plain list skips orders that have a link. */
    method ExpireNext(i: nat, ask: bool) returns (ok: bool)
      requires Exact() && i < |s.orders| && Overdue(s.orders[i], startedAt)
      modifies this`s, this`tick, this`asked, this`moved, this`stats, this`counted, this`confirmAt, this`minted
      ensures Balanced() && Onward(env, old(Now()), Now()) && (ok ==> Exact()) && (NoFailure(env) ==> ok)
      ensures ok && (ask || old(s).orders[i].linkId.None?) ==> s.orders[i].status != PendingPayment
      ensures !ask && old(s).orders[i].linkId.None? && WillMove(old(s), env, old(tick), i, None) ==>
                LostMove(i, old(moved), moved, old(confirmAt), confirmAt, old(tick) + 1) && (ok <==> !env.fails(old(tick) + 1))
    {
      ok := true;
      OnwardStays(env, Now());
      if ask {
        ok := ExpireOne(i);
      } else if s.orders[i].linkId.None? {
        ok := CancelPending(i);
      }
    }

    // ---------- Orders that were paid but not fulfilled ----------

    method BackfillTickets(list: seq<nat>)
      requires Exact() && Payable(s, list, EventTicket)
      modifies this`s, this`tick, this`stats, this`minted
      ensures Exact() && Onward(env, old(Now()), Now())
      ensures Quiet(env) ==> s == old(s)
    {
      OnwardStays(env, Now());
      for k := 0 to |list|
        invariant Exact() && Onward(env, old(Now()), Now())
        invariant Payable(s, list, EventTicket) && (Quiet(env) ==> s == old(s))
      {
        ghost var before := Now();
        var _ := Fulfil(list[k]);
        PayableStays(before.s, s, list, EventTicket);
        OnwardTrans(env, old(Now()), before, Now());
      }
    }

    method BackfillPasses(list: seq<nat>) returns (ok: bool)
      requires Exact() && Payable(s, list, ClassPackage) && list == listed
      modifies this`s, this`tick, this`stats, this`minted
      ensures Exact() && Onward(env, old(Now()), Now())
      ensures NoFailure(env) ==> ok && Delivered(s, list)
      ensures Quiet(env) ==> s == DeliverEach(old(s), list)
    {
      ok := true;
      var k := 0;
      OnwardStays(env, Now());
      while k < |list| && ok
        invariant 0 <= k <= |list| && Exact() && Onward(env, old(Now()), Now()) && Payable(s, list, ClassPackage)
        invariant NoFailure(env) ==> ok && Delivered(s, list[..k])
        invariant Quiet(env) ==> DeliverEach(s, list[k..]) == DeliverEach(old(s), list)
      {
        ghost var before := Now();
        ok := BackfillPass(list, k);
        OnwardTrans(env, old(Now()), before, Now());
        k := k + 1;
      }
      assert list[..|list|] == list;
    }

    method BackfillPass(list: seq<nat>, k: nat) returns (ok: bool)
      requires Exact() && Payable(s, list, ClassPackage) && list == listed && k < |list|
      requires NoFailure(env) ==> Delivered(s, list[..k])
      modifies this`s, this`tick, this`stats, this`minted
      ensures Exact() && Onward(env, old(Now()), Now()) && Payable(s, list, ClassPackage)
      ensures NoFailure(env) ==> ok && Delivered(s, list[..k + 1])
      ensures Quiet(env) ==> DeliverEach(s, list[k + 1..]) == DeliverEach(old(s), list[k..])
    {
      ok := Fulfil(list[k]);
      PayableStays(old(s), s, list, ClassPackage);
      if NoFailure(env) {
        DeliverNext(old(s), list, k);
        DeliveredNext(old(s), s, list, k);
      }
    }

    /** Paid orders whose tickets or pass were never delivered; the package list is read at the point `seen`. */
    method BackfillMissed() returns (ok: bool, ghost seen: Played)
      requires Exact() && listed == []
      modifies this`s, this`tick, this`stats, this`minted, this`listed
      ensures listed == [] || listed == Take(Backlog(seen.s, env.clock(seen.tick)), BACKLOG_LIMIT)
      ensures Exact() && Onward(env, old(Now()), seen) && Onward(env, seen, Now()) && old(tick) < seen.tick
      ensures NoFailure(env) ==> ok && OldestDelivered(seen.s, env.clock(seen.tick), s)
      ensures Quiet(env) ==> s == BackfillOnce(old(s), env.clock(seen.tick))
    {
      ok := Await(None);
      seen := Now();
      OnwardStays(env, seen);
      if !ok { return; }
      var tickets := Take(All(PaidTickets, s, env.clock(tick)), BACKLOG_LIMIT);
      ListedArePayable(s, PaidTickets, env.clock(tick), tickets);
      BackfillTickets(tickets);
      OnwardTrans(env, old(Now()), seen, Now());
      ghost var done := Now();
      ok := Await(None);
      OnwardTrans(env, old(Now()), done, Now());
      seen := Now();
      OnwardStays(env, seen);
      if !ok { return; }
      ok := BackfillListed();
    }

    /** The package list, read here and now. */
    method BackfillListed() returns (ok: bool)
      requires Exact() && listed == []
      modifies this`s, this`tick, this`stats, this`minted, this`listed
      ensures Exact() && Onward(env, old(Now()), Now()) && listed == Take(Backlog(old(s), env.clock(old(tick))), BACKLOG_LIMIT)
      ensures NoFailure(env) ==> ok && OldestDelivered(old(s), env.clock(old(tick)), s)
      ensures Quiet(env) ==> s == BackfillOnce(old(s), env.clock(old(tick)))
    {
      var packages := Take(Backlog(s, env.clock(tick)), BACKLOG_LIMIT);
      ListedArePayable(s, PaidPackages, env.clock(tick), packages);
      MintsStay(minted, moved, moved, listed, packages);
      listed := packages;
      ok := BackfillPasses(packages);
      if NoFailure(env) {
        AllDelivered(old(s), s, packages);
      }
    }

    // ---------- The phases ----------

    /** The three passes over pending orders. */
    method SettlePending(now: int) returns (ok: bool)
      requires Exact() && startedAt == now
      modifies this`s, this`tick, this`asked, this`moved, this`stats, this`counted, this`confirmAt, this`minted
      ensures Balanced() && Onward(env, old(Now()), Now()) && (ok ==> Exact()) && (NoFailure(env) ==> ok)
      ensures ok ==> Settled(old(s), s, now)
      ensures LosesItsMove(old(s), env, old(tick), now) ==>
                !ok && LostMove(All(Expired, old(s), now)[0], old(moved), moved, old(confirmAt), confirmAt, old(tick) + 4)
    {
      ok := ReconcileStuck(now);
      if !ok { return; }
      ghost var reconciled := Now();
      ok := SettleExpired(now, old(tick));
      OnwardTrans(env, old(Now()), reconciled, Now());
      if ok {
        SettledBefore(old(s), reconciled.s, s, now);
      }
    }

    /** The two lists of expired orders, in a sweep that began with call `from`. */
    method SettleExpired(now: int, ghost from: int) returns (ok: bool)
      requires Exact() && startedAt == now
      modifies this`s, this`tick, this`asked, this`moved, this`stats, this`counted, this`confirmAt, this`minted
      ensures Balanced() && Onward(env, old(Now()), Now()) && (ok ==> Exact()) && (NoFailure(env) ==> ok)
      ensures ok ==> Settled(old(s), s, now)
      ensures old(tick) == from + 1 && LosesItsMove(old(s), env, from, now) ==>
                !ok && LostMove(All(Expired, old(s), now)[0], old(moved), moved, old(confirmAt), confirmAt, from + 4)
    {
      ghost var loses, withLink := tick == from + 1 && LosesItsMove(s, env, from, now), Now();
      ok, withLink := ExpireListed(ExpiredWithLink, now);
      assert loses ==> ok && Idle(old(s), s, old(moved), moved, old(confirmAt), confirmAt) && tick == old(tick) + 1;
      if ok {
        ok := SettlePlain(now, from, old(Now()), withLink);
      } else {
        OnwardTrans(env, old(Now()), withLink, Now());
      }
    }

    /** The second list, which has the orders without a link. */
    method SettlePlain(now: int, ghost from: int, ghost first: Played, ghost withLink: Played) returns (ok: bool)
      requires Exact() && startedAt == now && Onward(env, first, withLink) && Onward(env, withLink, Now())
      requires ListedSettled(ExpiredWithLink, withLink.s, s, now)
      modifies this`s, this`tick, this`asked, this`moved, this`stats, this`counted, this`confirmAt, this`minted
      ensures Balanced() && Onward(env, first, Now()) && (ok ==> Exact()) && (NoFailure(env) ==> ok)
      ensures ok ==> Settled(first.s, s, now)
      ensures old(tick) == from + 2 && LosesItsMove(old(s), env, from, now) ==>
                !ok && LostMove(All(Expired, old(s), now)[0], old(moved), moved, old(confirmAt), confirmAt, from + 4)
    {
      ghost var all;
      ok, all := ExpireListed(Expired, now);
      BothListsSettled(env, first, withLink, old(Now()), all, Now(), ok, now);
    }

    /** Orders that have waited a while and are not due yet. */
    method ReconcileStuck(now: int) returns (ok: bool)
      requires Exact()
      modifies this`s, this`tick, this`asked, this`moved, this`stats, this`counted, this`confirmAt, this`minted
      ensures Balanced() && Onward(env, old(Now()), Now()) && (ok ==> Exact()) && (NoFailure(env) ==> ok)
      ensures |old(moved)| <= |moved| && forall k :: |old(moved)| <= k < |moved| ==> moved[k].to == Paid
      ensures Undisturbed(env) && !env.fails(old(tick)) && All(Stuck, old(s), now) == []
              ==> ok && Idle(old(s), s, old(moved), moved, old(confirmAt), confirmAt) && tick == old(tick) + 1
    {
      ok := Await(None);
      if !ok { return; }
      ghost var listed := Now();
      var stuck := Take(All(Stuck, s, now), RECONCILE_LIMIT);
      assert forall k :: 0 <= k < |stuck| ==> stuck[k] in stuck;
      stats := stats.(scanned := |stuck|);
      ok := ReconcileAll(stuck);
      OnwardTrans(env, old(Now()), listed, Now());
    }

    /** Reads one list of expired orders, in state `seen`, and works it off. */
    method ExpireListed(f: Filter, now: int) returns (ok: bool, ghost seen: Played)
      requires Exact() && (f == ExpiredWithLink || f == Expired) && startedAt == now
      modifies this`s, this`tick, this`asked, this`moved, this`stats, this`counted, this`confirmAt, this`minted
      ensures Balanced() && Onward(env, old(Now()), seen) && Onward(env, seen, Now()) && (ok ==> Exact())
      ensures (NoFailure(env) ==> ok) && (ok ==> ListedSettled(f, seen.s, s, now))
      ensures Undisturbed(env) && !env.fails(old(tick)) && All(f, old(s), now) == []
              ==> ok && Idle(old(s), s, old(moved), moved, old(confirmAt), confirmAt) && tick == old(tick) + 1
      ensures Undisturbed(env) && !env.fails(old(tick)) && !env.fails(old(tick) + 1) && env.fails(old(tick) + 2)
              && f == Expired && All(Expired, old(s), now) != [] && All(ExpiredWithLink, old(s), now) == []
              ==> !ok && LostMove(All(Expired, old(s), now)[0], old(moved), moved, old(confirmAt), confirmAt, old(tick) + 2)
    {
      ok := Await(None);
      seen := Now();
      OnwardStays(env, seen);
      if !ok { return; }
      var list := All(f, s, now);
      assert forall k :: 0 <= k < |list| ==> list[k] in list;
      if list != [] && f == Expired && All(ExpiredWithLink, s, now) == [] {
        FirstHasNoLink(s, now);
        if Undisturbed(env) && !env.fails(tick) {
          UndisturbedMoves(s, env, tick, list[0]);
        }
      }
      ok := ExpireAll(list, f == ExpiredWithLink);
      if ok {
        ListIsSettled(f, seen.s, s, now);
      }
    }

    method RunPhases(now: int) returns (ok: bool, ghost seen: Played)
      requires Exact() && startedAt == now && moved == [] && confirmAt == [] && listed == []
      modifies this`s, this`tick, this`asked, this`moved, this`stats, this`counted, this`confirmAt, this`minted, this`listed
      ensures Balanced() && Onward(env, old(Now()), seen) && Onward(env, seen, Now())
      ensures MintsOk(minted, moved, Take(Backlog(seen.s, env.clock(seen.tick)), BACKLOG_LIMIT))
      ensures counted == |moved| <==> forall k :: 0 <= k < |moved| ==> !env.fails(confirmAt[k])
      ensures ok ==> counted == |moved| && Settled(old(s), s, now)
      ensures NoFailure(env) ==> ok && old(tick) < seen.tick && OldestDelivered(seen.s, env.clock(seen.tick), s)
      ensures LosesItsMove(old(s), env, old(tick), now) ==>
                !ok && counted == 0 && moved == [Move(All(Expired, old(s), now)[0], PendingPayment, Cancelled, Cron)]
    {
      ok, seen := RunBoth(now);
      AllCountedIff(|moved|, counted, confirmAt, env, tick);
      MintsStay(minted, moved, moved, listed, Take(Backlog(seen.s, env.clock(seen.tick)), BACKLOG_LIMIT));
      if LosesItsMove(old(s), env, old(tick), now) {
        assert confirmAt[0] == old(tick) + 4;
      }
    }

    method RunBoth(now: int) returns (ok: bool, ghost seen: Played)
      requires Exact() && startedAt == now && listed == []
      modifies this`s, this`tick, this`asked, this`moved, this`stats, this`counted, this`confirmAt, this`minted, this`listed
      ensures listed == [] || listed == Take(Backlog(seen.s, env.clock(seen.tick)), BACKLOG_LIMIT)
      ensures Balanced() && Onward(env, old(Now()), seen) && Onward(env, seen, Now())
      ensures ok ==> Exact() && Settled(old(s), s, now)
      ensures NoFailure(env) ==> ok && old(tick) < seen.tick && OldestDelivered(seen.s, env.clock(seen.tick), s)
      ensures LosesItsMove(old(s), env, old(tick), now) ==>
                !ok && LostMove(All(Expired, old(s), now)[0], old(moved), moved, old(confirmAt), confirmAt, old(tick) + 4)
    {
      ok := SettlePending(now);
      seen := Now();
      OnwardStays(env, seen);
      if ok {
        ghost var settled := Now();
        ok, seen := BackfillMissed();
        OnwardTrans(env, settled, seen, Now());
        OnwardTrans(env, old(Now()), settled, seen);
        SettledLasts(old(s), settled.s, s, now);
      }
    }

    /**
     However the others interleave, and whatever throws, the sweep's own acts lead from where it began to where it ends, and
     account for every entry the log has gained that nobody else made meanwhile. It marks paid only orders it was told are
     paid, cancels only orders overdue when it started, moves each order at most once and only out of pending, and mints
     passes only for orders it marked paid or listed as missing theirs. Its counters are those of its own moves, passes and
     failed questions, and a move is counted exactly if its read-back did not throw. A sweep without error leaves nothing
     pending that had expired when it started; and if no database call throws, though the gateway may be out of reach, there
     is no error and whatever can be delivered of the fifty oldest missing passes, listed at the point `seen`, is delivered.
     */
    method RunNightlySweep(now: int) returns (result: SweepResult, ghost seen: Played)
      requires Reachable(s)
      modifies this
      ensures Onward(env, Opening(old(s), old(tick)), seen) && Onward(env, seen, Now())
      ensures Accounted(env, Opening(old(s), old(tick)), Now()) && (Undisturbed(env) ==> s.log == old(s).log + moved)
      ensures lastSweep == Some(result) && LedgerOk(s, result.stats, moved, counted, minted, now, env, asked)
      ensures MintsOk(minted, moved, Take(Backlog(seen.s, env.clock(seen.tick)), BACKLOG_LIMIT))
      ensures ConfirmedOk(|moved|, counted, confirmAt, env, tick)
      ensures counted == |moved| <==> forall k :: 0 <= k < |moved| ==> !env.fails(confirmAt[k])
      ensures !result.errored ==> counted == |moved| && Settled(old(s), s, now)
      ensures NoFailure(env) ==>
                !result.errored && old(tick) < seen.tick && OldestDelivered(seen.s, env.clock(seen.tick), s)
      ensures LosesItsMove(old(s), env, old(tick), now) ==>
                && result.errored && counted == 0
                && moved == [Move(All(Expired, old(s), now)[0], PendingPayment, Cancelled, Cron)]
    {
      Prepare(now);
      var ok;
      ok, seen := RunPhases(now);
      result := SweepResult(stats, !ok);
      lastSweep := Some(result);
      OnwardTrans(env, Opening(old(s), old(tick)), seen, Now());
      AccountFor(env, Opening(old(s), old(tick)), Now());
    }

    method Prepare(now: int)
      requires Reachable(s)
      modifies this`stats, this`startedAt, this`moved, this`counted, this`confirmAt, this`minted, this`asked, this`listed
      ensures Exact() && startedAt == now && Now() == Opening(s, tick) && listed == []
    {
      ResetStats();
      Open(now);
    }

    method ResetStats()
      modifies this`stats
      ensures stats.reconciledPaid == stats.expiredCancelled == stats.classPassesBackfilled == stats.paygateErrors == 0
      ensures stats.scanned + stats.ticketsBackfilled == 0
    {
      stats := Stats(0, 0, 0, 0, 0, 0);
    }

    method Open(now: int)
      requires Reachable(s)
      requires stats.reconciledPaid == stats.expiredCancelled == stats.classPassesBackfilled == stats.paygateErrors == 0
      modifies this`startedAt, this`moved, this`counted, this`confirmAt, this`minted, this`asked, this`listed
      ensures Exact() && startedAt == now && Now() == Opening(s, tick) && listed == []
    {
      startedAt, moved, counted, confirmAt, minted, asked, listed := now, [], 0, [], [], [], [];
      LedgerOpens(s, stats, moved, minted, now, env, asked);
    }
  }
}
