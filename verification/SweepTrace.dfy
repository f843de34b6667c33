/**
 Runs of the payment-order machine as one sweep sees them: what the others do at each awaited call, what the sweep does
 itself, and the record of both.

 `Env` is everything the sweep does not control: what the others do before an awaited call returns, whether the call
 throws, what the gateway answers about each order, and the wall clock, each by the number of calls awaited so far.
 */
module SweepTrace {
  import opened Wrappers
  import opened PaymentOrders

  datatype GatewayReply = FetchFailed | Detail(id: string, looksPaid: bool)

  datatype Env = Env(others: nat -> seq<Step>, gateway: (nat, nat) -> GatewayReply, fails: nat -> bool, clock: nat -> int,
                     ticketsMinted: nat -> bool)

  /** No awaited call throws. A gateway out of reach is not ruled out: it answers `FetchFailed`. */
  ghost predicate NoFailure(env: Env) {
    forall t :: !env.fails(t)
  }

  ghost predicate CallsWork(env: Env, from: nat) {
    forall t :: t >= from ==> !env.fails(t)
  }

  /** Nobody else does anything. */
  ghost predicate Undisturbed(env: Env) {
    forall t :: env.others(t) == []
  }

  ghost predicate Quiet(env: Env) {
    NoFailure(env) && Undisturbed(env)
  }

  /** The job a step works on. */
  function JobOf(step: Step): Option<nat> {
    match step
    case Resolve(_, _, _, _, _, job) => Some(job)
    case ReadBack(job, _) => Some(job)
    case Backfill(_, job) => Some(job)
    case LookForPass(job) => Some(job)
    case MintPass(job) => Some(job)
    case Drop(job) => Some(job)
    case _ => None
  }

  /** Another process never works on the sweep's own job. */
  function Foreign(steps: seq<Step>, mine: Option<nat>): seq<Step> {
    if steps == [] || mine.None? then steps
    else (if JobOf(steps[0]) == mine then [] else [steps[0]]) + Foreign(steps[1..], mine)
  }

  lemma StepLeavesJob(s: State, step: Step, job: nat)
    requires job in s.jobs && JobOf(step) != Some(job)
    ensures job in Do(s, step).jobs && Do(s, step).jobs[job] == s.jobs[job]
  {
  }

  lemma {:induction false} ForeignLeavesJob(s: State, steps: seq<Step>, job: nat)
    requires job in s.jobs
    ensures var s' := Run(s, Foreign(steps, Some(job))); job in s'.jobs && s'.jobs[job] == s.jobs[job]
    decreases |steps|
  {
    if steps != [] {
      var rest := Foreign(steps[1..], Some(job));
      if JobOf(steps[0]) == Some(job) {
        assert Foreign(steps, Some(job)) == rest;
        ForeignLeavesJob(s, steps[1..], job);
      } else {
        assert Foreign(steps, Some(job))[1..] == rest;
        StepLeavesJob(s, steps[0], job);
        ForeignLeavesJob(Do(s, steps[0]), steps[1..], job);
      }
    }
  }

  // ---------- Runs of the order state machine ----------

  /** Some run of webhooks, polls, sweeps, overrides and cancellations leads to `s`. */
  ghost predicate Reachable(s: State) {
    exists start, steps :: Init(start) && Run(start, steps) == s
  }

  /** `s` is reachable, and some run leads on to `s'`. */
  ghost predicate Later(s: State, s': State) {
    Reachable(s) && |s.orders| <= |s'.orders| && exists steps :: Run(s, steps) == s'
  }

  lemma {:induction false} RunConcat(s: State, a: seq<Step>, b: seq<Step>)
    ensures Run(s, a + b) == Run(Run(s, a), b)
    decreases |a|
  {
    if a == [] {
      assert a + b == b;
    } else {
      assert (a + b)[1..] == a[1..] + b;
      RunConcat(Do(s, a[0]), a[1..], b);
    }
  }

  lemma LaterTrans(a: State, b: State, c: State)
    requires Later(a, b) && Later(b, c)
    ensures Later(a, c)
  {
    var first :| Run(a, first) == b;
    var second :| Run(b, second) == c;
    RunConcat(a, first, second);
  }

  lemma LaterReachable(s: State, s': State)
    requires Later(s, s')
    ensures Reachable(s')
  {
    var start, first :| Init(start) && Run(start, first) == s;
    var second :| Run(s, second) == s';
    RunConcat(start, first, second);
  }

  lemma RunIsLater(s: State, steps: seq<Step>)
    requires Reachable(s)
    ensures Later(s, Run(s, steps)) && Reachable(Run(s, steps))
  {
    PendingNeverReturns(s, steps);
    LaterReachable(s, Run(s, steps));
  }

  lemma StaysLater(s: State)
    requires Reachable(s)
    ensures Later(s, s)
  {
    assert Run(s, []) == s;
  }

  lemma StepIsLater(s: State, step: Step)
    requires Reachable(s)
    ensures Later(s, Do(s, step)) && Reachable(Do(s, step))
  {
    assert [step][1..] == [] && Run(s, [step]) == Do(s, step);
    RunIsLater(s, [step]);
  }

  lemma ReachableInv(s: State)
    requires Reachable(s)
    ensures Inv(s)
  {
    var start, steps :| Init(start) && Run(start, steps) == s;
    RunKeeps(start, steps);
  }

  /** What every run leaves true. */
  ghost predicate Grown(s: State, s': State) {
    && NeverBack(s, s') && s.log <= s'.log
    && (forall i :: i in s.passes ==> i in s'.passes)
    && (forall i :: 0 <= i < |s.orders| && s.orders[i].paymentId.Some? ==> s'.orders[i].paymentId == s.orders[i].paymentId)
  }

  lemma GrownTrans(a: State, b: State, c: State)
    requires Grown(a, b) && Grown(b, c)
    ensures Grown(a, c)
  {
  }

  lemma StepGrows(s: State, step: Step)
    requires Inv(s)
    ensures Grown(s, Do(s, step))
  {
    StepNeverBack(s, step);
    PaymentIdsStay(s, step);
  }

  lemma PaymentIdsStay(s: State, step: Step)
    requires Inv(s)
    ensures |s.orders| <= |Do(s, step).orders|
    ensures forall i :: 0 <= i < |s.orders| && s.orders[i].paymentId.Some? ==>
              Do(s, step).orders[i].paymentId == s.orders[i].paymentId
  {
  }

  lemma {:induction false} RunGrows(s: State, steps: seq<Step>)
    requires Inv(s)
    ensures Grown(s, Run(s, steps))
    decreases |steps|
  {
    if steps != [] {
      StepGrows(s, steps[0]);
      DoKeeps(s, steps[0]);
      RunGrows(Do(s, steps[0]), steps[1..]);
      GrownTrans(s, Do(s, steps[0]), Run(s, steps));
    }
  }

  lemma LaterGrows(s: State, s': State)
    requires Later(s, s')
    ensures Grown(s, s')
  {
    var steps :| Run(s, steps) == s';
    ReachableInv(s);
    RunGrows(s, steps);
  }

  lemma PaidStays(s: State, s': State, i: nat)
    requires Later(s, s') && WasPaid(s, i)
    ensures WasPaid(s', i)
  {
    LaterGrows(s, s');
    LogGrows(s, s', i);
  }

  // ---------- The record of a sweep ----------

  /**
   What a sweep does: await a call (leaving its own job alone, and perhaps asking the gateway about an order), update an
   order as cron, read an order back and take its fulfilment in hand, or mint a pass.
   */
  datatype Act =
    | Awaited(mine: Option<nat>, asks: Option<nat>)
    | Updated(i: nat, to: OrderStatus, paymentId: Option<string>, now: int, job: nat)
    | ReadOrder(job: nat, throws: bool)
    | Minted(i: nat, job: nat)

  /** The gateway was asked about `order` in call `at`. */
  datatype Ask = Ask(at: nat, order: nat)

  /**
   Where a sweep has got to, as its acts determine it: the tables, the calls awaited, its own entries in the log and the
   call that reads each of them back, the passes it minted and the questions it asked.
   */
  datatype Played = Played(s: State, tick: nat, moved: seq<Move>, confirmAt: seq<nat>, minted: seq<nat>, asked: seq<Ask>)

  function NewMoves(s: State, s': State): seq<Move> {
    if |s.log| <= |s'.log| then s'.log[|s.log|..] else []
  }

  function NewPasses(s: State, s': State): seq<nat> {
    if |s.passes| <= |s'.passes| then s'.passes[|s.passes|..] else []
  }

  function Update(act: Act): Step
    requires act.Updated?
  {
    Resolve(act.i, act.to, act.paymentId, Cron, act.now, act.job)
  }

  function AfterReadBack(s: State, job: nat, throws: bool): State {
    Do(Do(s, ReadBack(job, throws)), Drop(job))
  }

  function AfterMint(s: State, i: nat, job: nat): State {
    Do(Do(Do(s, Backfill(i, job)), LookForPass(job)), MintPass(job))
  }

  /** The tables after an act. Only an awaited call lets the others run. */
  function ActOn(s: State, tick: nat, env: Env, act: Act): State {
    match act
    case Awaited(mine, _) => Run(s, Foreign(env.others(tick), mine))
    case Updated(_, _, _, _, _) => Do(s, Update(act))
    case ReadOrder(job, throws) => AfterReadBack(s, job, throws)
    case Minted(i, job) => AfterMint(s, i, job)
  }

  function Perform(p: Played, env: Env, act: Act): Played {
    var s' := ActOn(p.s, p.tick, env, act);
    if act.Awaited?
    then p.(s := s', tick := p.tick + 1, asked := if act.asks.Some? then p.asked + [Ask(p.tick, act.asks.value)] else p.asked)
    else
      var own := NewMoves(p.s, s');
      p.(s := s', moved := p.moved + own, confirmAt := p.confirmAt + seq(|own|, _ => p.tick),
         minted := p.minted + NewPasses(p.s, s'))
  }

  /** Where the given acts lead. */
  function Play(start: Played, env: Env, acts: seq<Act>): Played {
    if acts == [] then start else Perform(Play(start, env, acts[..|acts| - 1]), env, acts[|acts| - 1])
  }

  lemma PlayLast(start: Played, env: Env, acts: seq<Act>)
    requires acts != []
    ensures Play(start, env, acts) == Perform(Play(start, env, acts[..|acts| - 1]), env, acts[|acts| - 1])
  {
  }

  function Opening(s: State, tick: nat): Played {
    Played(s, tick, [], [], [], [])
  }

  lemma PerformAwaited(env: Env, p: Played, mine: Option<nat>, asks: Option<nat>)
    ensures Perform(p, env, Awaited(mine, asks))
            == p.(s := Run(p.s, Foreign(env.others(p.tick), mine)), tick := p.tick + 1,
                  asked := if asks.Some? then p.asked + [Ask(p.tick, asks.value)] else p.asked)
  {
  }

  lemma PerformUpdated(env: Env, p: Played, act: Act)
    requires act.Updated? && Enabled(p.s, Update(act))
    ensures Perform(p, env, act)
            == p.(s := Do(p.s, Update(act)), moved := p.moved + [Move(act.i, PendingPayment, act.to, Cron)],
                  confirmAt := p.confirmAt + [p.tick])
  {
    var s' := Do(p.s, Update(act));
    assert NewMoves(p.s, s') == [Move(act.i, PendingPayment, act.to, Cron)];
    assert NewPasses(p.s, s') == [];
    assert seq(1, (_) => p.tick) == [p.tick];
  }

  lemma PerformRead(env: Env, p: Played, job: nat, throws: bool)
    ensures Perform(p, env, ReadOrder(job, throws)) == p.(s := AfterReadBack(p.s, job, throws))
  {
    var s' := AfterReadBack(p.s, job, throws);
    assert NewMoves(p.s, s') == [] && NewPasses(p.s, s') == [];
  }

  /** The sweep's insert is an undisturbed fulfilment of the state machine. */
  lemma MintIsFulfilment(s: State, i: nat, job: nat)
    requires i < |s.orders| && s.orders[i].kind == ClassPackage && WasPaid(s, i) && job !in s.jobs
    requires i !in s.passes && s.orders[i].deliverable
    ensures AfterMint(s, i, job) == s.(passes := s.passes + [i])
  {
    assert AfterMint(s, i, job).jobs == s.jobs;
  }

  lemma PerformMinted(env: Env, p: Played, i: nat, job: nat)
    requires AfterMint(p.s, i, job) == p.s.(passes := p.s.passes + [i])
    ensures Perform(p, env, Minted(i, job)) == p.(s := p.s.(passes := p.s.passes + [i]), minted := p.minted + [i])
  {
    var s' := AfterMint(p.s, i, job);
    assert NewMoves(p.s, s') == [] && NewPasses(p.s, s') == [i];
  }

  lemma ActIsLater(s: State, tick: nat, env: Env, act: Act)
    requires Reachable(s)
    ensures Later(s, ActOn(s, tick, env, act)) && Reachable(ActOn(s, tick, env, act))
  {
    match act {
      case Awaited(mine, _) => RunIsLater(s, Foreign(env.others(tick), mine));
      case Updated(_, _, _, _, _) => StepIsLater(s, Update(act));
      case ReadOrder(job, throws) =>
        TwoSteps(s, ReadBack(job, throws), Drop(job));
        LaterReachable(s, AfterReadBack(s, job, throws));
      case Minted(i, job) =>
        var s2 := Do(Do(s, Backfill(i, job)), LookForPass(job));
        TwoSteps(s, Backfill(i, job), LookForPass(job));
        LaterReachable(s, s2);
        StepIsLater(s2, MintPass(job));
        LaterTrans(s, s2, Do(s2, MintPass(job)));
    }
  }

  lemma TwoSteps(s: State, first: Step, second: Step)
    requires Reachable(s)
    ensures Later(s, Do(Do(s, first), second))
  {
    StepIsLater(s, first);
    StepIsLater(Do(s, first), second);
    LaterTrans(s, Do(s, first), Do(Do(s, first), second));
  }

  lemma {:induction false} PlayIsLater(start: Played, env: Env, acts: seq<Act>)
    requires Reachable(start.s)
    ensures var p := Play(start, env, acts); Later(start.s, p.s) && Reachable(p.s) && start.tick <= p.tick
    decreases |acts|
  {
    if acts == [] {
      StaysLater(start.s);
    } else {
      var n := |acts| - 1;
      PlayIsLater(start, env, acts[..n]);
      PlayLast(start, env, acts);
      var p := Play(start, env, acts[..n]);
      ActIsLater(p.s, p.tick, env, acts[n]);
      LaterTrans(start.s, p.s, Play(start, env, acts).s);
    }
  }

  // ---------- Own entries in the log, and everybody else's ----------

  /** One act: only the log's new entries count, as moves if the act is the sweep's own. */
  ghost predicate LogStep(p: Played, p': Played, act: Act) {
    p.s.log <= p'.s.log && p'.moved == p.moved + if act.Awaited? then [] else p'.s.log[|p.s.log|..]
  }

  lemma ActExtendsLog(p: Played, env: Env, act: Act)
    requires Reachable(p.s)
    ensures LogStep(p, Perform(p, env, act), act)
  {
    ActIsLater(p.s, p.tick, env, act);
    LaterGrows(p.s, ActOn(p.s, p.tick, env, act));
  }

  lemma PlayExtendsLog(start: Played, env: Env, acts: seq<Act>)
    requires Reachable(start.s) && acts != []
    ensures LogStep(Play(start, env, acts[..|acts| - 1]), Play(start, env, acts), acts[|acts| - 1])
  {
    var n := |acts| - 1;
    PlayIsLater(start, env, acts[..n]);
    PlayLast(start, env, acts);
    ActExtendsLog(Play(start, env, acts[..n]), env, acts[n]);
  }

  function Positions(from: nat, n: nat): (r: seq<nat>)
    ensures |r| == n && forall k :: 0 <= k < n ==> r[k] == from + k
  {
    seq(n, k requires 0 <= k < n => from + k)
  }

  /** How long the log was before each act and at the end. */
  function Lengths(start: Played, env: Env, acts: seq<Act>): (r: seq<nat>)
    ensures |r| == |acts| + 1
  {
    seq(|acts| + 1, k requires 0 <= k <= |acts| => |Play(start, env, acts[..k]).s.log|)
  }

  lemma LengthsPrefix(start: Played, env: Env, acts: seq<Act>)
    requires acts != []
    ensures Lengths(start, env, acts[..|acts| - 1]) == Lengths(start, env, acts)[..|acts|]
  {
    forall k | 0 <= k < |acts| ensures acts[..|acts| - 1][..k] == acts[..k] {
    }
  }

  /** The positions of the sweep's own entries in the log. */
  function OwnIn(lengths: seq<nat>, acts: seq<Act>): seq<nat>
    requires |lengths| == |acts| + 1
    decreases |acts|
  {
    if acts == [] then []
    else
      var n := |acts| - 1;
      var from, to := lengths[n], lengths[n + 1];
      OwnIn(lengths[..n + 1], acts[..n]) + Positions(from, if acts[n].Awaited? || to < from then 0 else to - from)
  }

  /** The sweep's moves stand in the log in the order they were made. */
  ghost predicate OwnInLog(log0: seq<Move>, log: seq<Move>, moved: seq<Move>, own: seq<nat>) {
    && log0 <= log && |own| == |moved|
    && (forall j, k :: 0 <= j < k < |own| ==> own[j] < own[k])
    && (forall k :: 0 <= k < |own| ==> |log0| <= own[k] < |log| && log[own[k]] == moved[k])
  }

  lemma OwnExtends(log0: seq<Move>, log: seq<Move>, moved: seq<Move>, own: seq<nat>, log': seq<Move>, mine: bool)
    requires OwnInLog(log0, log, moved, own) && log <= log'
    ensures if mine then OwnInLog(log0, log', moved + log'[|log|..], own + Positions(|log|, |log'| - |log|))
            else OwnInLog(log0, log', moved, own)
  {
  }

  lemma {:induction false} OwnMovesInLog(start: Played, env: Env, acts: seq<Act>)
    requires Reachable(start.s) && start.moved == []
    ensures var p := Play(start, env, acts); OwnInLog(start.s.log, p.s.log, p.moved, OwnIn(Lengths(start, env, acts), acts))
    decreases |acts|
  {
    if acts != [] {
      var n := |acts| - 1;
      OwnMovesInLog(start, env, acts[..n]);
      PlayExtendsLog(start, env, acts);
      LengthsPrefix(start, env, acts);
      assert acts[..n + 1] == acts;
      var p, p' := Play(start, env, acts[..n]), Play(start, env, acts);
      OwnExtends(start.s.log, p.s.log, p.moved, OwnIn(Lengths(start, env, acts[..n]), acts[..n]), p'.s.log, !acts[n].Awaited?);
      assert p.moved + [] == p.moved;
    }
  }

  /** Entry `j` of the log was appended while the sweep awaited the call that is its act number `n`. */
  predicate AppendedByOthers(lengths: seq<nat>, acts: seq<Act>, j: nat, n: nat)
    requires |lengths| == |acts| + 1
  {
    n < |acts| && acts[n].Awaited? && lengths[n] <= j < lengths[n + 1]
  }

  /** An entry is older than the sweep, the sweep's own, or somebody else's from one of its awaited calls. */
  lemma {:induction false} RestIsOthers(lengths: seq<nat>, acts: seq<Act>, j: nat)
    requires |lengths| == |acts| + 1 && lengths[0] <= j < lengths[|acts|] && j !in OwnIn(lengths, acts)
    ensures exists n: nat :: AppendedByOthers(lengths, acts, j, n)
    decreases |acts|
  {
    if acts != [] {
      var n := |acts| - 1;
      if j < lengths[n] {
        RestIsOthers(lengths[..n + 1], acts[..n], j);
        var k: nat :| AppendedByOthers(lengths[..n + 1], acts[..n], j, k);
        assert AppendedByOthers(lengths, acts, j, k);
      } else {
        var here := Positions(lengths[n], lengths[n + 1] - lengths[n]);
        assert here[j - lengths[n]] == j;
        assert AppendedByOthers(lengths, acts, j, n);
      }
    }
  }

  /**
   What the log has gained: the sweep's own moves, in order, and what the others appended while it awaited a call.
   Nothing the sweep does to an order stays out of its record.
   */
  ghost predicate LogAccounted(start: Played, env: Env, acts: seq<Act>) {
    var p, lengths := Play(start, env, acts), Lengths(start, env, acts);
    && OwnInLog(start.s.log, p.s.log, p.moved, OwnIn(lengths, acts))
    && forall j: nat :: |start.s.log| <= j < |p.s.log| && j !in OwnIn(lengths, acts) ==>
         exists n: nat :: AppendedByOthers(lengths, acts, j, n)
  }

  lemma EveryEntryAccountedFor(start: Played, env: Env, acts: seq<Act>)
    requires Reachable(start.s) && start.moved == []
    ensures LogAccounted(start, env, acts)
  {
    var lengths := Lengths(start, env, acts);
    OwnMovesInLog(start, env, acts);
    assert acts[..|acts|] == acts && acts[..0] == [];
    forall j: nat | |start.s.log| <= j < |Play(start, env, acts).s.log| && j !in OwnIn(lengths, acts)
      ensures exists n: nat :: AppendedByOthers(lengths, acts, j, n)
    {
      RestIsOthers(lengths, acts, j);
    }
  }

  lemma AwaitingAloneLogsNothing(start: Played, env: Env, acts: seq<Act>)
    requires Undisturbed(env) && acts != [] && acts[|acts| - 1].Awaited?
    ensures Play(start, env, acts).s == Play(start, env, acts[..|acts| - 1]).s
  {
    var p := Play(start, env, acts[..|acts| - 1]);
    PlayLast(start, env, acts);
    assert Run(p.s, []) == p.s;
  }

  /** Left alone, the log gains exactly the sweep's own moves. */
  lemma {:induction false} AloneLogIsMoves(start: Played, env: Env, acts: seq<Act>)
    requires Reachable(start.s) && start.moved == [] && Undisturbed(env)
    ensures Play(start, env, acts).s.log == start.s.log + Play(start, env, acts).moved
    decreases |acts|
  {
    if acts != [] {
      var n := |acts| - 1;
      AloneLogIsMoves(start, env, acts[..n]);
      PlayExtendsLog(start, env, acts);
      var p, p' := Play(start, env, acts[..n]), Play(start, env, acts);
      if acts[n].Awaited? {
        AwaitingAloneLogsNothing(start, env, acts);
      }
      LogGains(start.s.log, p.s.log, p.moved, p'.s.log, p'.moved);
    }
  }

  lemma LogGains(log0: seq<Move>, log: seq<Move>, moved: seq<Move>, log': seq<Move>, moved': seq<Move>)
    requires log == log0 + moved && log <= log' && moved' == moved + log'[|log|..]
    ensures log' == log0 + moved'
  {
  }

  // ---------- From one point of a sweep to a later one ----------

  /** `trail` holds where the sweep was before each act and at the end. */
  ghost predicate Follows(env: Env, acts: seq<Act>, trail: seq<Played>) {
    && |trail| == |acts| + 1
    && forall k {:trigger acts[k]} :: 0 <= k < |acts| ==> trail[k + 1] == Perform(trail[k], env, acts[k])
  }

  /** Some acts lead from `p` to `q`. */
  ghost predicate Onward(env: Env, p: Played, q: Played) {
    && Later(p.s, q.s) && p.tick <= q.tick
    && exists acts, trail {:trigger Follows(env, acts, trail)} :: Follows(env, acts, trail) && trail[0] == p && trail[|acts|] == q
  }

  lemma FollowsConcat(env: Env, a: seq<Act>, first: seq<Played>, b: seq<Act>, second: seq<Played>)
    requires Follows(env, a, first) && Follows(env, b, second) && first[|a|] == second[0]
    ensures Follows(env, a + b, first + second[1..])
  {
    var acts, trail := a + b, first + second[1..];
    forall k | 0 <= k < |acts| ensures trail[k + 1] == Perform(trail[k], env, acts[k]) {
      if k < |a| {
        assert acts[k] == a[k];
      } else {
        assert acts[k] == b[k - |a|] && trail[k] == second[k - |a|];
      }
    }
  }

  lemma OnwardTrans(env: Env, p: Played, q: Played, r: Played)
    requires Onward(env, p, q) && Onward(env, q, r)
    ensures Onward(env, p, r)
  {
    LaterTrans(p.s, q.s, r.s);
    var a, first :| Follows(env, a, first) && first[0] == p && first[|a|] == q;
    var b, second :| Follows(env, b, second) && second[0] == q && second[|b|] == r;
    FollowsConcat(env, a, first, b, second);
    var trail := first + second[1..];
    assert trail[0] == p && trail[|a + b|] == r;
  }

  lemma OnwardStays(env: Env, p: Played)
    requires Reachable(p.s)
    ensures Onward(env, p, p)
  {
    StaysLater(p.s);
    assert Follows(env, [], [p]);
  }

  lemma OneAct(env: Env, p: Played, act: Act)
    requires Reachable(p.s)
    ensures Onward(env, p, Perform(p, env, act)) && Reachable(Perform(p, env, act).s)
  {
    ActIsLater(p.s, p.tick, env, act);
    assert Follows(env, [act], [p, Perform(p, env, act)]);
  }

  lemma {:induction false} TrailIsPlay(env: Env, acts: seq<Act>, trail: seq<Played>, k: nat)
    requires Follows(env, acts, trail) && k <= |acts|
    ensures trail[k] == Play(trail[0], env, acts[..k])
  {
    if k > 0 {
      TrailIsPlay(env, acts, trail, k - 1);
      assert acts[..k][..k - 1] == acts[..k - 1] && acts[..k][k - 1] == acts[k - 1];
      PlayLast(trail[0], env, acts[..k]);
    }
  }

  lemma AwaitIsAct(env: Env, p: Played, mine: Option<nat>, asks: Option<nat>)
    requires Reachable(p.s)
    ensures Onward(env, p, p.(s := Run(p.s, Foreign(env.others(p.tick), mine)), tick := p.tick + 1,
                              asked := if asks.Some? then p.asked + [Ask(p.tick, asks.value)] else p.asked))
  {
    PerformAwaited(env, p, mine, asks);
    OneAct(env, p, Awaited(mine, asks));
  }

  lemma UpdateIsAct(env: Env, p: Played, act: Act)
    requires Reachable(p.s) && act.Updated? && Enabled(p.s, Update(act))
    ensures Onward(env, p, p.(s := Do(p.s, Update(act)), moved := p.moved + [Move(act.i, PendingPayment, act.to, Cron)],
                              confirmAt := p.confirmAt + [p.tick]))
  {
    PerformUpdated(env, p, act);
    OneAct(env, p, act);
  }

  lemma ReadIsAct(env: Env, p: Played, job: nat, throws: bool)
    requires Reachable(p.s)
    ensures Onward(env, p, p.(s := AfterReadBack(p.s, job, throws)))
  {
    PerformRead(env, p, job, throws);
    OneAct(env, p, ReadOrder(job, throws));
  }

  lemma MintIsAct(env: Env, p: Played, i: nat, job: nat)
    requires Reachable(p.s) && AfterMint(p.s, i, job) == p.s.(passes := p.s.passes + [i])
    ensures Onward(env, p, p.(s := p.s.(passes := p.s.passes + [i]), minted := p.minted + [i]))
  {
    PerformMinted(env, p, i, job);
    OneAct(env, p, Minted(i, job));
  }

  /** The acts that lead from the opening of a sweep to `p` account for every entry the log has gained. */
  ghost predicate Accounted(env: Env, start: Played, p: Played) {
    exists acts :: Play(start, env, acts) == p && LogAccounted(start, env, acts)
  }

  lemma AccountFor(env: Env, start: Played, p: Played)
    requires Onward(env, start, p) && start.moved == []
    ensures Accounted(env, start, p) && (Undisturbed(env) ==> p.s.log == start.s.log + p.moved)
  {
    var acts, trail :| Follows(env, acts, trail) && trail[0] == start && trail[|acts|] == p;
    TrailIsPlay(env, acts, trail, |acts|);
    assert acts[..|acts|] == acts;
    EveryEntryAccountedFor(start, env, acts);
    if Undisturbed(env) {
      AloneLogIsMoves(start, env, acts);
    }
  }
}
