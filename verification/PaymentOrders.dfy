/**
 Payment orders under concurrent webhooks, polls, sweeps, admin overrides and ticket cancellations.

 `orders` and `passes` are the tables (a pass is the index of the order it was minted for). `jobs` are the fulfilments in
 flight; the winner of a payment first reads the order back. `log`, `readBacks` and `immediate` are history: every status
 change, every read-back and what it saw, and every order whose winner started to fulfil it. A step that is not enabled
 does nothing; a process may die at any time (`Drop`).
 */
module PaymentOrders {
  import opened Wrappers

  datatype OrderStatus = PendingPayment | Paid | Failed | Cancelled | Refunded
  datatype Kind = EventTicket | ClassPackage
  datatype Source = Webhook | Polling | Cron | Manual

  /** `deliverable`: the package and program the order names exist and belong together, and its pass ends on a date. */
  datatype Order = Order(kind: Kind, status: OrderStatus, source: Option<Source>, paymentId: Option<string>,
                         linkId: Option<string>, createdAt: int, expiresAt: Option<int>, updatedAt: int,
                         deliverable: bool)

  datatype Move = Move(order: nat, from: OrderStatus, to: OrderStatus, source: Source)
  datatype Stage = Unread | Started | Checked
  datatype Job = Job(order: nat, stage: Stage)

  /** `seen` is `None` when the read threw. */
  datatype Read = Read(order: nat, seen: Option<OrderStatus>)

  datatype State = State(orders: seq<Order>, passes: seq<nat>, jobs: map<nat, Job>, log: seq<Move>, readBacks: seq<Read>,
                         immediate: seq<nat>)

  datatype Transition = Applied | NotPending | NotFound

  predicate PaymentClaimed(orders: seq<Order>, i: nat, paymentId: Option<string>) {
    paymentId.Some? && exists j :: 0 <= j < |orders| && j != i && orders[j].paymentId == paymentId
  }

  function TransitionResult(orders: seq<Order>, i: nat, paymentId: Option<string>): Transition {
    if i >= |orders| then NotFound
    else if orders[i].status != PendingPayment then NotPending
    else if PaymentClaimed(orders, i, paymentId) then NotPending
    else Applied
  }

  function SetStatus(s: State, i: nat, to: OrderStatus, paymentId: Option<string>, source: Source, now: int): State
    requires i < |s.orders|
  {
    var o := s.orders[i];
    s.(orders := s.orders[i := o.(status := to, source := Some(source), updatedAt := now,
                                   paymentId := if paymentId.Some? then paymentId else o.paymentId)],
       log := s.log + [Move(i, o.status, to, source)])
  }

  /** The compare-and-set every automatic actor goes through. */
  function TransitionStatus(s: State, i: nat, to: OrderStatus, paymentId: Option<string>, source: Source, now: int): State {
    if TransitionResult(s.orders, i, paymentId) == Applied then SetStatus(s, i, to, paymentId, source, now) else s
  }

  /** Which outcomes each automatic actor can ask for. */
  predicate MayResolve(source: Source, to: OrderStatus) {
    match source
    case Webhook => to == Paid || to == Failed || to == Cancelled
    case Polling => to == Paid
    case Cron => to == Paid || to == Cancelled
    case Manual => false
  }

  datatype Step =
    | Place(order: Order)
    | Resolve(i: nat, to: OrderStatus, paymentId: Option<string>, source: Source, now: int, job: nat)
    | Override(i: nat, to: OrderStatus, now: int)
    | CloseOnLastTicket(i: nat, refundEligible: bool, now: int)
    | ReadBack(job: nat, throws: bool)
    | Backfill(i: nat, job: nat)
    | LookForPass(job: nat)
    | MintPass(job: nat)
    | Drop(job: nat)

  predicate Enabled(s: State, step: Step) {
    match step
    case Place(o) => o.status == PendingPayment && o.source.None? && o.paymentId.None?
    case Resolve(i, to, paymentId, source, _, job) =>
      MayResolve(source, to) && job !in s.jobs && TransitionResult(s.orders, i, paymentId) == Applied
    case Override(i, to, _) => i < |s.orders| && (to == Paid || to == Cancelled || to == Failed)
    case CloseOnLastTicket(i, _, _) => i < |s.orders| && s.orders[i].kind == EventTicket && s.orders[i].status == Paid
    case Backfill(i, job) =>
      // Listed as paid and without a pass by an earlier read, which may be out of date by now.
      i < |s.orders| && s.orders[i].kind == ClassPackage && WasPaid(s, i) && job !in s.jobs
    case ReadBack(job, _) => job in s.jobs && s.jobs[job].stage == Unread && s.jobs[job].order < |s.orders|
    case LookForPass(job) => job in s.jobs && s.jobs[job].stage == Started
    case MintPass(job) => job in s.jobs && s.jobs[job].stage == Checked && s.jobs[job].order < |s.orders|
    case Drop(job) => job in s.jobs
  }

  function Ended(s: State, job: nat): State {
    s.(jobs := s.jobs - {job})
  }

  /** The winner reads the order back and fulfils it if it is still paid. */
  function DoReadBack(s: State, job: nat, throws: bool): State
    requires job in s.jobs && s.jobs[job].order < |s.orders|
  {
    var i := s.jobs[job].order;
    var seen := if throws then None else Some(s.orders[i].status);
    var s1 := s.(readBacks := s.readBacks + [Read(i, seen)]);
    if seen == Some(Paid) then s1.(jobs := s.jobs[job := Job(i, Started)], immediate := s.immediate + [i])
    else Ended(s1, job)
  }

  function Do(s: State, step: Step): State {
    if !Enabled(s, step) then s
    else match step
      case Place(o) => s.(orders := s.orders + [o])
      case Resolve(i, to, paymentId, source, now, job) =>
        var s1 := TransitionStatus(s, i, to, paymentId, source, now);
        if to == Paid then s1.(jobs := s1.jobs[job := Job(i, Unread)]) else s1
      case Override(i, to, now) => SetStatus(s, i, to, None, Manual, now)
      case CloseOnLastTicket(i, refundEligible, now) =>
        SetStatus(s, i, if refundEligible then Refunded else Cancelled, None, Manual, now)
      case ReadBack(job, throws) => DoReadBack(s, job, throws)
      case Backfill(i, job) => s.(jobs := s.jobs[job := Job(i, Started)])
      case LookForPass(job) =>
        if s.jobs[job].order in s.passes then Ended(s, job) else s.(jobs := s.jobs[job := s.jobs[job].(stage := Checked)])
      case MintPass(job) =>
        var i := s.jobs[job].order;
        // A concurrent mint trips the unique index on the order id; tickets are minted elsewhere.
        if i in s.passes || s.orders[i].kind != ClassPackage || !s.orders[i].deliverable then Ended(s, job)
        else Ended(s.(passes := s.passes + [i]), job)
      case Drop(job) => Ended(s, job)
  }

  function Run(s: State, steps: seq<Step>): State
    decreases |steps|
  {
    if steps == [] then s else Run(Do(s, steps[0]), steps[1..])
  }

  // ---------- Invariant ----------

  predicate WasPaid(s: State, i: nat) {
    exists k :: 0 <= k < |s.log| && s.log[k].order == i && s.log[k].to == Paid
  }

  predicate AutomaticWin(m: Move, i: nat) {
    m.order == i && m.source != Manual && m.from == PendingPayment && m.to == Paid
  }

  ghost predicate WonAutomatically(s: State, i: nat) {
    exists k :: 0 <= k < |s.log| && AutomaticWin(s.log[k], i)
  }

  ghost predicate LogOk(s: State) {
    && (forall k :: 0 <= k < |s.log| ==>
          && s.log[k].order < |s.orders| && s.orders[s.log[k].order].status != PendingPayment
          && s.log[k].to != PendingPayment
          && (s.log[k].source != Manual ==> s.log[k].from == PendingPayment && MayResolve(s.log[k].source, s.log[k].to)))
    && (forall j, k :: 0 <= j < k < |s.log| && s.log[j].order == s.log[k].order ==> s.log[k].from != PendingPayment)
  }

  predicate Distinct(xs: seq<nat>) {
    forall j, k :: 0 <= j < k < |xs| ==> xs[j] != xs[k]
  }

  ghost predicate PassesOk(s: State) {
    && Distinct(s.passes)
    && (forall i :: i in s.passes ==> i < |s.orders| && s.orders[i].kind == ClassPackage && WasPaid(s, i))
  }

  ghost predicate JobsOk(s: State) {
    forall j :: j in s.jobs ==> s.jobs[j].order < |s.orders| && WasPaid(s, s.jobs[j].order)
  }

  /** Read-backs are by winners, one each; the fulfilments started are those whose read-back saw the order paid. */
  ghost predicate ReadsOk(s: State) {
    && (forall k :: 0 <= k < |s.readBacks| ==> WonAutomatically(s, s.readBacks[k].order))
    && (forall j, k :: 0 <= j < k < |s.readBacks| ==> s.readBacks[j].order != s.readBacks[k].order)
    && Distinct(s.immediate) && (forall i: nat :: i in s.immediate <==> Read(i, Some(Paid)) in s.readBacks)
  }

  predicate WasRead(s: State, i: nat) {
    exists k :: 0 <= k < |s.readBacks| && s.readBacks[k].order == i
  }

  ghost predicate UnreadOk(s: State) {
    && (forall j :: j in s.jobs && s.jobs[j].stage == Unread ==>
          WonAutomatically(s, s.jobs[j].order) && !WasRead(s, s.jobs[j].order))
    && (forall j, k :: j in s.jobs && k in s.jobs && j != k && s.jobs[j].stage == Unread && s.jobs[k].stage == Unread ==>
          s.jobs[j].order != s.jobs[k].order)
  }

  ghost predicate OrdersOk(s: State) {
    && (forall i, j :: 0 <= i < j < |s.orders| && s.orders[i].paymentId.Some? ==> s.orders[i].paymentId != s.orders[j].paymentId)
    && (forall i :: 0 <= i < |s.orders| && s.orders[i].status == Paid ==> WasPaid(s, i))
    && (forall i :: 0 <= i < |s.orders| && s.orders[i].status == PendingPayment ==> s.orders[i].paymentId.None?)
  }

  /** The part of the invariant that does not concern read-backs. */
  ghost predicate BooksOk(s: State) {
    LogOk(s) && PassesOk(s) && JobsOk(s) && OrdersOk(s)
  }

  ghost predicate Inv(s: State) {
    BooksOk(s) && ReadsOk(s) && UnreadOk(s)
  }

  ghost predicate Init(s: State) {
    s == State([], [], map[], [], [], [])
  }

  lemma LogGrows(s: State, s': State, i: nat)
    requires s.log <= s'.log
    ensures WasPaid(s, i) ==> WasPaid(s', i)
    ensures WonAutomatically(s, i) ==> WonAutomatically(s', i)
  {
    if WasPaid(s, i) {
      var k :| 0 <= k < |s.log| && s.log[k].order == i && s.log[k].to == Paid;
      assert s'.log[k] == s.log[k];
    }
    if WonAutomatically(s, i) {
      var k :| 0 <= k < |s.log| && AutomaticWin(s.log[k], i);
      assert s'.log[k] == s.log[k];
    }
  }

  /** A status change that the guards allow. */
  ghost predicate GoodMove(s: State, i: nat, to: OrderStatus, paymentId: Option<string>, source: Source) {
    && i < |s.orders| && to != PendingPayment && !PaymentClaimed(s.orders, i, paymentId)
    && (source != Manual ==> s.orders[i].status == PendingPayment && MayResolve(source, to))
  }

  lemma MoveLog(s: State, i: nat, to: OrderStatus, paymentId: Option<string>, source: Source, now: int)
    requires LogOk(s) && GoodMove(s, i, to, paymentId, source)
    ensures LogOk(SetStatus(s, i, to, paymentId, source, now))
  {
    var s' := SetStatus(s, i, to, paymentId, source, now);
    assert forall k :: 0 <= k < |s.log| ==> s'.log[k] == s.log[k];
  }

  lemma MoveOrders(s: State, i: nat, to: OrderStatus, paymentId: Option<string>, source: Source, now: int)
    requires OrdersOk(s) && GoodMove(s, i, to, paymentId, source)
    ensures OrdersOk(SetStatus(s, i, to, paymentId, source, now))
    ensures to == Paid ==> WasPaid(SetStatus(s, i, to, paymentId, source, now), i)
  {
    var s' := SetStatus(s, i, to, paymentId, source, now);
    assert s'.log[|s.log|] == Move(i, s.orders[i].status, to, source);
    forall o | 0 <= o < |s'.orders| && s'.orders[o].status == Paid ensures WasPaid(s', o) {
      LogGrows(s, s', o);
    }
    assert forall j :: 0 <= j < |s.orders| && j != i ==> !(paymentId.Some? && s.orders[j].paymentId == paymentId);
  }

  lemma MoveWins(s: State, i: nat, to: OrderStatus, paymentId: Option<string>, source: Source, now: int, o: nat)
    requires LogOk(s) && GoodMove(s, i, to, paymentId, source)
    ensures WonAutomatically(SetStatus(s, i, to, paymentId, source, now), o)
            <==> WonAutomatically(s, o) || (o == i && source != Manual && to == Paid)
    ensures source != Manual ==> !WonAutomatically(s, i)
  {
    var s' := SetStatus(s, i, to, paymentId, source, now);
    var last := |s.log|;
    assert s'.log[last] == Move(i, s.orders[i].status, to, source);
    LogGrows(s, s', o);
    if o == i && source != Manual && to == Paid {
      assert AutomaticWin(s'.log[last], o);
    } else if WonAutomatically(s', o) {
      var k :| 0 <= k < |s'.log| && AutomaticWin(s'.log[k], o);
      assert k != last;
      assert AutomaticWin(s.log[k], o);
    }
    if source != Manual {
      assert forall k :: 0 <= k < |s.log| ==> s.log[k].order != i;
    }
  }

  ghost predicate OneJobMore(before: map<nat, Job>, after: map<nat, Job>, i: nat) {
    exists job: nat :: job !in before && after == before[job := Job(i, Unread)]
  }

  /** A good move, with the job of its winner if it is a payment. */
  lemma MoveKeeps(s: State, i: nat, to: OrderStatus, paymentId: Option<string>, source: Source, now: int,
                  jobs: map<nat, Job>)
    requires Inv(s) && GoodMove(s, i, to, paymentId, source)
    requires jobs == s.jobs || (source != Manual && to == Paid && OneJobMore(s.jobs, jobs, i))
    ensures Inv(SetStatus(s, i, to, paymentId, source, now).(jobs := jobs))
  {
    var moved := SetStatus(s, i, to, paymentId, source, now);
    var s' := moved.(jobs := jobs);
    MoveLog(s, i, to, paymentId, source, now);
    MoveOrders(s, i, to, paymentId, source, now);
    forall o: nat ensures WasPaid(s', o) <==> WasPaid(moved, o) {
      LogGrows(moved, s', o);
      LogGrows(s', moved, o);
    }
    forall o: nat ensures WasPaid(s, o) ==> WasPaid(s', o) {
      LogGrows(s, s', o);
    }
    MoveReads(s, i, to, paymentId, source, now, s');
  }

  lemma MoveReads(s: State, i: nat, to: OrderStatus, paymentId: Option<string>, source: Source, now: int, s': State)
    requires LogOk(s) && ReadsOk(s) && UnreadOk(s) && GoodMove(s, i, to, paymentId, source)
    requires s'.log == SetStatus(s, i, to, paymentId, source, now).log
    requires s'.readBacks == s.readBacks && s'.immediate == s.immediate
    requires s'.jobs == s.jobs || (source != Manual && to == Paid && OneJobMore(s.jobs, s'.jobs, i))
    ensures ReadsOk(s') && UnreadOk(s')
  {
    var moved := SetStatus(s, i, to, paymentId, source, now);
    MoveWins(s, i, to, paymentId, source, now, i);
    forall o: nat ensures WonAutomatically(s, o) ==> WonAutomatically(s', o) {
      LogGrows(s, s', o);
    }
    LogGrows(moved, s', i);
    assert source != Manual ==> !WasRead(s, i);
    assert forall o: nat :: WasRead(s', o) <==> WasRead(s, o);
  }

  /** A step that moves no order and reads none back. */
  lemma QuietKeeps(s: State, s': State)
    requires Inv(s) && s'.log == s.log && s'.readBacks == s.readBacks && s'.immediate == s.immediate
    requires s.orders <= s'.orders
    requires forall i :: |s.orders| <= i < |s'.orders| ==>
               s'.orders[i].status == PendingPayment && s'.orders[i].paymentId.None?
    requires |s'.orders| <= |s.orders| + 1
    requires forall j :: j in s'.jobs ==> s'.jobs[j].order < |s.orders| && WasPaid(s, s'.jobs[j].order)
    requires forall j :: j in s'.jobs && s'.jobs[j].stage == Unread ==> j in s.jobs && s.jobs[j] == s'.jobs[j]
    requires PassesOk(s.(passes := s'.passes))
    ensures Inv(s')
  {
    QuietBooks(s, s');
    SameHistory(s, s');
  }

  lemma QuietBooks(s: State, s': State)
    requires BooksOk(s) && s'.log == s.log && s.orders <= s'.orders && |s'.orders| <= |s.orders| + 1
    requires forall i :: |s.orders| <= i < |s'.orders| ==>
               s'.orders[i].status == PendingPayment && s'.orders[i].paymentId.None?
    requires forall j :: j in s'.jobs ==> s'.jobs[j].order < |s.orders| && WasPaid(s, s'.jobs[j].order)
    requires PassesOk(s.(passes := s'.passes))
    ensures BooksOk(s')
  {
    SameLog(s, s');
    SameLog(s, s.(passes := s'.passes));
  }

  lemma SameLog(s: State, s': State)
    requires s'.log == s.log
    ensures forall o: nat :: WasPaid(s', o) <==> WasPaid(s, o)
    ensures forall o: nat :: WonAutomatically(s', o) <==> WonAutomatically(s, o)
  {
    forall o: nat ensures (WasPaid(s', o) <==> WasPaid(s, o)) && (WonAutomatically(s', o) <==> WonAutomatically(s, o)) {
      LogGrows(s, s', o);
      LogGrows(s', s, o);
    }
  }

  lemma SameHistory(s: State, s': State)
    requires s'.log == s.log && s'.readBacks == s.readBacks && s'.immediate == s.immediate
    requires forall j :: j in s'.jobs && s'.jobs[j].stage == Unread ==> j in s.jobs && s.jobs[j] == s'.jobs[j]
    requires ReadsOk(s) && UnreadOk(s)
    ensures ReadsOk(s') && UnreadOk(s')
  {
    SameLog(s, s');
    assert forall o: nat :: WasRead(s', o) <==> WasRead(s, o);
  }

  lemma ReadBackKeeps(s: State, job: nat, throws: bool)
    requires Inv(s) && Enabled(s, ReadBack(job, throws))
    ensures Inv(Do(s, ReadBack(job, throws)))
  {
    var s' := DoReadBack(s, job, throws);
    QuietBooks(s, s');
    SameLog(s, s');
    ReadBackReads(s, s', job, throws);
    ReadBackUnread(s, s', job, throws);
  }

  lemma ReadBackUnread(s: State, s': State, job: nat, throws: bool)
    requires UnreadOk(s) && Enabled(s, ReadBack(job, throws)) && s' == DoReadBack(s, job, throws)
    requires forall o: nat :: WonAutomatically(s', o) <==> WonAutomatically(s, o)
    ensures UnreadOk(s')
  {
    var i := s.jobs[job].order;
    forall o: nat | WasRead(s', o) ensures o == i || WasRead(s, o) {
      var k :| 0 <= k < |s'.readBacks| && s'.readBacks[k].order == o;
      assert k < |s.readBacks| ==> s.readBacks[k].order == o;
    }
  }

  lemma ReadBackReads(s: State, s': State, job: nat, throws: bool)
    requires ReadsOk(s) && UnreadOk(s) && Enabled(s, ReadBack(job, throws)) && s' == DoReadBack(s, job, throws)
    requires forall o: nat :: WonAutomatically(s', o) <==> WonAutomatically(s, o)
    ensures ReadsOk(s')
  {
    var i := s.jobs[job].order;
    var last := s'.readBacks[|s.readBacks|];
    assert !WasRead(s, i);
    assert forall k :: 0 <= k < |s.readBacks| ==> s'.readBacks[k] == s.readBacks[k] && s.readBacks[k].order != i;
    assert s'.readBacks == s.readBacks + [last];
    assert i !in s.immediate;
  }

  lemma MintKeeps(s: State, job: nat)
    requires Inv(s) && Enabled(s, MintPass(job))
    ensures Inv(Do(s, MintPass(job)))
  {
    var s' := Do(s, MintPass(job));
    var t := s.(passes := s'.passes);
    forall o: nat ensures WasPaid(s, o) ==> WasPaid(t, o) {
      LogGrows(s, t, o);
    }
    QuietKeeps(s, s');
  }

  lemma ResolveKeeps(s: State, i: nat, to: OrderStatus, paymentId: Option<string>, source: Source, now: int, job: nat)
    requires Inv(s) && Enabled(s, Resolve(i, to, paymentId, source, now, job))
    ensures Inv(Do(s, Resolve(i, to, paymentId, source, now, job)))
  {
    MoveKeeps(s, i, to, paymentId, source, now, Do(s, Resolve(i, to, paymentId, source, now, job)).jobs);
  }

  lemma PlaceKeeps(s: State, o: Order)
    requires Inv(s) && Enabled(s, Place(o))
    ensures Inv(Do(s, Place(o)))
  {
    QuietKeeps(s, Do(s, Place(o)));
  }

  lemma BackfillKeeps(s: State, i: nat, job: nat)
    requires Inv(s) && Enabled(s, Backfill(i, job))
    ensures Inv(Do(s, Backfill(i, job)))
  {
    JobsMayChange(s, s.jobs[job := Job(i, Started)]);
  }

  lemma LookKeeps(s: State, job: nat)
    requires Inv(s) && Enabled(s, LookForPass(job))
    ensures Inv(Do(s, LookForPass(job)))
  {
    if s.jobs[job].order in s.passes {
      JobsMayChange(s, s.jobs - {job});
    } else {
      JobsMayChange(s, s.jobs[job := s.jobs[job].(stage := Checked)]);
    }
  }

  lemma DropKeeps(s: State, job: nat)
    requires Inv(s) && Enabled(s, Drop(job))
    ensures Inv(Do(s, Drop(job)))
  {
    JobsMayChange(s, s.jobs - {job});
  }

  lemma JobsMayChange(s: State, jobs: map<nat, Job>)
    requires Inv(s)
    requires forall j :: j in jobs ==> jobs[j].order < |s.orders| && WasPaid(s, jobs[j].order)
    requires forall j :: j in jobs && jobs[j].stage == Unread ==> j in s.jobs && s.jobs[j] == jobs[j]
    ensures Inv(s.(jobs := jobs))
  {
    QuietKeeps(s, s.(jobs := jobs));
  }

  lemma ManualKeeps(s: State, i: nat, to: OrderStatus, now: int)
    requires Inv(s) && i < |s.orders| && to != PendingPayment
    ensures Inv(SetStatus(s, i, to, None, Manual, now))
  {
    MoveKeeps(s, i, to, None, Manual, now, s.jobs);
  }

  lemma DoKeeps(s: State, step: Step)
    requires Inv(s)
    ensures Inv(Do(s, step))
  {
    if Enabled(s, step) {
      match step {
        case Resolve(i, to, paymentId, source, now, job) => ResolveKeeps(s, i, to, paymentId, source, now, job);
        case Override(i, to, now) => ManualKeeps(s, i, to, now);
        case CloseOnLastTicket(i, refundEligible, now) =>
          ManualKeeps(s, i, if refundEligible then Refunded else Cancelled, now);
        case ReadBack(job, throws) => ReadBackKeeps(s, job, throws);
        case MintPass(job) => MintKeeps(s, job);
        case Place(o) => PlaceKeeps(s, o);
        case Backfill(i, job) => BackfillKeeps(s, i, job);
        case LookForPass(job) => LookKeeps(s, job);
        case Drop(job) => DropKeeps(s, job);
      }
    }
  }

  lemma {:induction false} RunKeeps(s: State, steps: seq<Step>)
    requires Inv(s)
    ensures Inv(Run(s, steps))
    decreases |steps|
  {
    if steps != [] {
      DoKeeps(s, steps[0]);
      RunKeeps(Do(s, steps[0]), steps[1..]);
    }
  }

  // ---------- Main results ----------

  /** What everybody else can do to an order between two steps: never bring it back to pending. */
  ghost predicate NeverBack(s: State, s': State) {
    && |s.orders| <= |s'.orders|
    && forall i :: 0 <= i < |s.orders| ==>
         && s'.orders[i].(status := s.orders[i].status, source := None, paymentId := None, updatedAt := 0)
            == s.orders[i].(source := None, paymentId := None, updatedAt := 0)
         && (s.orders[i].status != PendingPayment ==> s'.orders[i].status != PendingPayment)
  }

  lemma StepNeverBack(s: State, step: Step)
    ensures NeverBack(s, Do(s, step))
  {
    assert step.Resolve? || step.Override? || step.CloseOnLastTicket? || s.orders <= Do(s, step).orders;
  }

  lemma NeverBackTrans(a: State, b: State, c: State)
    requires NeverBack(a, b) && NeverBack(b, c)
    ensures NeverBack(a, c)
  {
  }

  /** An order that left `pending_payment` never returns, and what it was placed with never changes. */
  lemma {:induction false} PendingNeverReturns(s: State, steps: seq<Step>)
    ensures NeverBack(s, Run(s, steps))
    decreases |steps|
  {
    if steps != [] {
      StepNeverBack(s, steps[0]);
      PendingNeverReturns(Do(s, steps[0]), steps[1..]);
      NeverBackTrans(s, Do(s, steps[0]), Run(s, steps));
    }
  }

  /** At most one of webhook, polling and cron resolves an order, and always out of `pending_payment`. */
  lemma OneAutomaticResolver(steps: seq<Step>, start: State, j: nat, k: nat)
    requires Init(start)
    requires var log := Run(start, steps).log;
             j < |log| && k < |log| && log[j].order == log[k].order && log[j].source != Manual && log[k].source != Manual
    ensures j == k && Run(start, steps).log[j].from == PendingPayment
  {
    RunKeeps(start, steps);
    var s := Run(start, steps);
    assert LogOk(s) && s.log[j].from == PendingPayment && s.log[k].from == PendingPayment;
  }

  /**
   Immediate fulfilment starts once per order at most, only by the automatic actor that moved it to paid, and exactly
   when that actor's read-back returned and saw the order still paid.
   */
  lemma OnlyTheWinnerFulfils(steps: seq<Step>, start: State, i: nat)
    requires Init(start)
    ensures var s := Run(start, steps);
            && multiset(s.immediate)[i] <= 1
            && (i in s.immediate <==> Read(i, Some(Paid)) in s.readBacks)
            && (i in s.immediate ==> WonAutomatically(s, i))
            && forall j, k :: 0 <= j < |s.readBacks| && 0 <= k < |s.readBacks| && s.readBacks[j].order == s.readBacks[k].order ==> j == k
  {
    RunKeeps(start, steps);
    var s := Run(start, steps);
    DistinctOnce(s.immediate, i);
    if i in s.immediate {
      var k :| 0 <= k < |s.readBacks| && s.readBacks[k] == Read(i, Some(Paid));
      assert WonAutomatically(s, s.readBacks[k].order);
    }
  }

  /** A payment won by the webhook whose read-back throws: nobody starts to fulfil it. */
  lemma WonButNotStarted()
    ensures var o := Order(ClassPackage, PendingPayment, None, None, Some("link"), 0, Some(9), 0, true);
            var s := Run(State([], [], map[], [], [], []),
                         [Place(o), Resolve(0, Paid, Some("payment"), Webhook, 1, 7), ReadBack(7, true)]);
            WonAutomatically(s, 0) && s.orders[0].status == Paid && s.immediate == [] && s.jobs == map[]
  {
    var o := Order(ClassPackage, PendingPayment, None, None, Some("link"), 0, Some(9), 0, true);
    var s0 := State([], [], map[], [], [], []);
    var s1 := Do(s0, Place(o));
    var s2 := Do(s1, Resolve(0, Paid, Some("payment"), Webhook, 1, 7));
    var s3 := Do(s2, ReadBack(7, true));
    assert Enabled(s1, Resolve(0, Paid, Some("payment"), Webhook, 1, 7));
    assert AutomaticWin(s3.log[0], 0);
    assert s3.jobs == map[];
    var steps := [Place(o), Resolve(0, Paid, Some("payment"), Webhook, 1, 7), ReadBack(7, true)];
    assert steps[1..][1..] == [ReadBack(7, true)] && steps[1..][1..][1..] == [];
    assert Run(s3, []) == s3 && Run(s2, steps[1..][1..]) == s3 && Run(s1, steps[1..]) == s3;
  }

  lemma {:induction false} DistinctOnce(xs: seq<nat>, x: nat)
    requires Distinct(xs)
    ensures multiset(xs)[x] <= 1
  {
    if xs != [] {
      var n := |xs| - 1;
      assert xs == xs[..n] + [xs[n]];
      DistinctOnce(xs[..n], x);
      if xs[n] == x {
        assert x !in xs[..n];
      }
    }
  }

  /** A class-package order gets at most one pass, only after it was paid; ticket orders get none. */
  lemma OnePassPerPaidOrder(steps: seq<Step>, start: State, i: nat)
    requires Init(start)
    ensures var s := Run(start, steps);
            && multiset(s.passes)[i] <= 1
            && (i in s.passes ==> i < |s.orders| && s.orders[i].kind == ClassPackage && WasPaid(s, i))
  {
    RunKeeps(start, steps);
    DistinctOnce(Run(start, steps).passes, i);
  }
}
