/**
 Payout requests of one provider under its advisory lock, racing with completions and with a moving balance.

 Money is in cents: balances and requested amounts are real, stored payouts are whole cents (`numeric(12,2)`
 rounds half up). Each read of the balance computation is a step of its own, outside the lock's transaction.
 */
module Payouts {
  import opened Wrappers

  datatype PayoutStatus = Pending | Completed
  datatype Payout = Payout(cents: int, status: PayoutStatus)

  datatype Request =
    | Waiting(amount: real)
    | Locked(amount: real)
    | SawReleased(amount: real, released: real)
    | SawPending(amount: real, released: real, pending: int)
    | SawCompleted(amount: real, released: real, pending: int, completed: int)
    | Accepted(payout: nat)
    | Refused

  datatype State = State(payouts: seq<Payout>, releasedNet: real, requests: map<nat, Request>)

  function StoredCents(amount: real): int {
    (amount + 0.5).Floor
  }

  function SumOf(payouts: seq<Payout>, status: PayoutStatus): int {
    if payouts == [] then 0
    else SumOf(payouts[..|payouts| - 1], status)
         + if payouts[|payouts| - 1].status == status then payouts[|payouts| - 1].cents else 0
  }

  function Total(payouts: seq<Payout>): int {
    SumOf(payouts, Pending) + SumOf(payouts, Completed)
  }

  function Available(released: real, pending: int, completed: int): real {
    var left := released - pending as real - completed as real;
    if left > 0.0 then left else 0.0
  }

  predicate HoldsLock(r: Request) {
    r.Locked? || r.SawReleased? || r.SawPending? || r.SawCompleted?
  }

  datatype Step =
    | Open(id: nat, amount: real)
    | Advance(id: nat)
    | Complete(payout: nat)
    | SetReleased(net: real)

  predicate StepOk(s: State, step: Step) {
    match step
    case Open(id, amount) => id !in s.requests && amount > 0.0
    case Advance(id) =>
      && id in s.requests && !s.requests[id].Accepted? && !s.requests[id].Refused?
      && (s.requests[id].Waiting? ==> forall j :: j in s.requests ==> !HoldsLock(s.requests[j]))
    case Complete(_) => true
    case SetReleased(_) => true
  }

  function Put(s: State, id: nat, r: Request): State {
    s.(requests := s.requests[id := r])
  }

  function Do(s: State, step: Step): State
    requires StepOk(s, step)
  {
    match step
    case Open(id, amount) => Put(s, id, Waiting(amount))
    case SetReleased(net) => s.(releasedNet := net)
    case Complete(p) =>
      if p < |s.payouts| && s.payouts[p].status == Pending
      then s.(payouts := s.payouts[p := s.payouts[p].(status := Completed)]) else s
    case Advance(id) =>
      (match s.requests[id]
       case Waiting(amount) => Put(s, id, Locked(amount))
       case Locked(amount) => Put(s, id, SawReleased(amount, s.releasedNet))
       case SawReleased(amount, released) => Put(s, id, SawPending(amount, released, SumOf(s.payouts, Pending)))
       case SawPending(amount, released, pending) =>
         Put(s, id, SawCompleted(amount, released, pending, SumOf(s.payouts, Completed)))
       case SawCompleted(amount, released, pending, completed) =>
         if amount > Available(released, pending, completed) then Put(s, id, Refused)
         else Put(s.(payouts := s.payouts + [Payout(StoredCents(amount), Pending)]), id, Accepted(|s.payouts|))
       case _ => s)
  }

  predicate RunOk(s: State, steps: seq<Step>)
    decreases |steps|
  {
    steps == [] || (StepOk(s, steps[0]) && RunOk(Do(s, steps[0]), steps[1..]))
  }

  function Run(s: State, steps: seq<Step>): State
    requires RunOk(s, steps)
    decreases |steps|
  {
    if steps == [] then s else Run(Do(s, steps[0]), steps[1..])
  }

  // ---------- Sums ----------

  lemma {:induction false} SumUpdate(payouts: seq<Payout>, i: nat, p: Payout, status: PayoutStatus)
    requires i < |payouts|
    ensures SumOf(payouts[i := p], status)
            == SumOf(payouts, status) - (if payouts[i].status == status then payouts[i].cents else 0)
               + (if p.status == status then p.cents else 0)
  {
    var n := |payouts| - 1;
    if i == n {
      assert payouts[i := p][..n] == payouts[..n];
    } else {
      SumUpdate(payouts[..n], i, p, status);
      assert payouts[i := p][..n] == payouts[..n][i := p];
    }
  }

  lemma SumAppend(payouts: seq<Payout>, p: Payout, status: PayoutStatus)
    ensures SumOf(payouts + [p], status) == SumOf(payouts, status) + if p.status == status then p.cents else 0
  {
    assert (payouts + [p])[..|payouts|] == payouts;
  }

  // ---------- Invariant ----------

  /** Pending was read before completed, so a payout completed in between is counted twice, never missed. */
  ghost predicate ReadsCover(s: State, r: Request) {
    match r
    case Waiting(amount) => amount > 0.0
    case Locked(amount) => amount > 0.0
    case SawReleased(amount, _) => amount > 0.0
    case SawPending(amount, _, pending) => amount > 0.0 && pending + SumOf(s.payouts, Completed) >= Total(s.payouts)
    case SawCompleted(amount, _, pending, completed) => amount > 0.0 && pending + completed >= Total(s.payouts)
    case _ => true
  }

  ghost predicate Inv(s: State) {
    && (forall i :: 0 <= i < |s.payouts| ==> s.payouts[i].cents >= 0)
    && (forall id :: id in s.requests ==> ReadsCover(s, s.requests[id]))
    && (forall i, j :: i in s.requests && j in s.requests && i != j ==> !(HoldsLock(s.requests[i]) && HoldsLock(s.requests[j])))
  }

  /** An admin completing a payout moves it between the two sums and conserves the total. */
  lemma CompletionConserves(s: State, p: nat)
    requires Inv(s)
    ensures var s' := Do(s, Complete(p));
            && Total(s'.payouts) == Total(s.payouts) && SumOf(s'.payouts, Completed) >= SumOf(s.payouts, Completed)
            && (s' != s ==> p < |s.payouts| && s.payouts[p].status == Pending && s'.payouts[p].status == Completed)
  {
    if p < |s.payouts| && s.payouts[p].status == Pending {
      SumUpdate(s.payouts, p, s.payouts[p].(status := Completed), Pending);
      SumUpdate(s.payouts, p, s.payouts[p].(status := Completed), Completed);
    }
  }

  lemma DoKeeps(s: State, step: Step)
    requires Inv(s) && StepOk(s, step)
    ensures Inv(Do(s, step))
  {
    var s' := Do(s, step);
    if step.Complete? {
      CompletionConserves(s, step.payout);
      assert forall id :: id in s.requests ==> ReadsCover(s, s.requests[id]);
    } else if step.Advance? && s.requests[step.id].SawCompleted? {
      var r := s.requests[step.id];
      assert ReadsCover(s, r);
      forall id | id in s'.requests ensures ReadsCover(s', s'.requests[id]) {
        if id != step.id {
          assert !HoldsLock(s.requests[id]);
        }
      }
    } else {
      assert forall id :: id in s.requests ==> ReadsCover(s, s.requests[id]);
    }
  }

  lemma {:induction false} RunKeeps(s: State, steps: seq<Step>)
    requires Inv(s) && RunOk(s, steps)
    ensures Inv(Run(s, steps))
    decreases |steps|
  {
    if steps != [] {
      DoKeeps(s, steps[0]);
      RunKeeps(Do(s, steps[0]), steps[1..]);
    }
  }

  // ---------- Solvency ----------

  /**
   With any number of requesters racing, an accepted request fits: everything pending or completed at that instant,
   plus the amount asked for, is within the released balance the request read under the lock.
   */
  lemma AcceptedRequestFits(start: State, steps: seq<Step>, id: nat)
    requires Inv(start) && RunOk(start, steps) && StepOk(Run(start, steps), Advance(id))
    requires Run(start, steps).requests[id].SawCompleted?
    ensures var s := Run(start, steps); var s', r := Do(s, Advance(id)), s.requests[id];
            s'.requests[id].Accepted? ==>
              && Total(s.payouts) as real + r.amount <= r.released
              && Total(s'.payouts) == Total(s.payouts) + StoredCents(r.amount)
  {
    RunKeeps(start, steps);
    var s := Run(start, steps);
    var r := s.requests[id];
    assert ReadsCover(s, r);
    SumAppend(s.payouts, Payout(StoredCents(r.amount), Pending), Pending);
    SumAppend(s.payouts, Payout(StoredCents(r.amount), Pending), Completed);
  }

  /** The released balance never falls, so what a request read is no more than what is there now. */
  ghost predicate OnlyRises(s: State, steps: seq<Step>)
    requires RunOk(s, steps)
    decreases |steps|
  {
    steps == [] ||
    ((steps[0].SetReleased? ==> steps[0].net >= s.releasedNet) && OnlyRises(Do(s, steps[0]), steps[1..]))
  }

  /** Every amount asked for is a whole number of cents, or rounds down to one. */
  ghost predicate NoRoundingUp(steps: seq<Step>) {
    forall k :: 0 <= k < |steps| && steps[k].Open? ==> StoredCents(steps[k].amount) as real <= steps[k].amount
  }

  /** The amount still asked for rounds up by at most `slack`. */
  ghost predicate ExcessWithin(r: Request, slack: real) {
    match r
    case Waiting(a) => Excess(a) <= slack
    case Locked(a) => Excess(a) <= slack
    case SawReleased(a, _) => Excess(a) <= slack
    case SawPending(a, _, _) => Excess(a) <= slack
    case SawCompleted(a, _, _, _) => Excess(a) <= slack
    case _ => true
  }

  ghost predicate ReleasedRead(s: State, r: Request) {
    match r
    case SawReleased(_, released) => released <= s.releasedNet
    case SawPending(_, released, _) => released <= s.releasedNet
    case SawCompleted(_, released, _, _) => released <= s.releasedNet
    case _ => true
  }

  function Excess(amount: real): real {
    StoredCents(amount) as real - amount
  }

  /** `slack` bounds how much any request in the system can be rounded up by. */
  ghost predicate Solvent(s: State, slack: real) {
    && Total(s.payouts) as real <= s.releasedNet + slack
    && (forall id :: id in s.requests ==> ReleasedRead(s, s.requests[id]) && ExcessWithin(s.requests[id], slack))
  }

  lemma SolventStep(s: State, step: Step, slack: real)
    requires Inv(s) && StepOk(s, step) && Solvent(s, slack) && slack >= 0.0
    requires step.SetReleased? ==> step.net >= s.releasedNet
    requires step.Open? ==> Excess(step.amount) <= slack
    ensures Solvent(Do(s, step), slack)
  {
    if step.Complete? {
      CompletionConserves(s, step.payout);
    } else if step.Advance? {
      SolventAdvance(s, step.id, slack);
    }
  }

  lemma SolventAdvance(s: State, id: nat, slack: real)
    requires Inv(s) && StepOk(s, Advance(id)) && Solvent(s, slack) && slack >= 0.0
    ensures Solvent(Do(s, Advance(id)), slack)
  {
    var r := s.requests[id];
    assert ReleasedRead(s, r) && ExcessWithin(r, slack);
    if r.SawCompleted? {
      DecisionIsSolvent(s, id, slack);
    }
  }

  lemma DecisionIsSolvent(s: State, id: nat, slack: real)
    requires id in s.requests && s.requests[id].SawCompleted? && ReadsCover(s, s.requests[id])
    requires StepOk(s, Advance(id)) && Solvent(s, slack) && slack >= 0.0
    ensures Solvent(Do(s, Advance(id)), slack)
  {
    var r := s.requests[id];
    assert ReleasedRead(s, r) && ExcessWithin(r, slack);
    if r.amount <= Available(r.released, r.pending, r.completed) {
      TotalAppend(s.payouts, r.amount);
      AcceptedFits(Total(s.payouts), r, s.releasedNet, slack);
    }
  }

  lemma TotalAppend(payouts: seq<Payout>, amount: real)
    ensures Total(payouts + [Payout(StoredCents(amount), Pending)]) == Total(payouts) + StoredCents(amount)
  {
    SumAppend(payouts, Payout(StoredCents(amount), Pending), Pending);
    SumAppend(payouts, Payout(StoredCents(amount), Pending), Completed);
  }

  lemma AcceptedFits(total: int, r: Request, net: real, slack: real)
    requires r.SawCompleted? && 0.0 < r.amount <= Available(r.released, r.pending, r.completed)
    requires total <= r.pending + r.completed && r.released <= net && Excess(r.amount) <= slack
    ensures (total + StoredCents(r.amount)) as real <= net + slack
  {
    assert total as real <= r.pending as real + r.completed as real;
  }

  lemma {:induction false} SolventRun(s: State, steps: seq<Step>, slack: real)
    requires Inv(s) && RunOk(s, steps) && OnlyRises(s, steps) && Solvent(s, slack) && slack >= 0.0
    requires forall k :: 0 <= k < |steps| && steps[k].Open? ==> Excess(steps[k].amount) <= slack
    ensures Solvent(Run(s, steps), slack)
    decreases |steps|
  {
    if steps != [] {
      SolventStep(s, steps[0], slack);
      DoKeeps(s, steps[0]);
      assert forall k :: 0 <= k < |steps[1..]| ==> steps[1..][k] == steps[k + 1];
      SolventRun(Do(s, steps[0]), steps[1..], slack);
    }
  }

  lemma HalfCentAtMost(amount: real)
    ensures Excess(amount) <= 0.5
  {
  }

  /** While the released balance does not fall, payouts exceed it by at most half a cent in all, ever. */
  lemma NeverOverdrawnByMoreThanHalfACent(s: State, steps: seq<Step>)
    requires Inv(s) && RunOk(s, steps) && OnlyRises(s, steps) && s.requests == map[]
    requires Total(s.payouts) as real <= s.releasedNet + 0.5
    ensures Total(Run(s, steps).payouts) as real <= Run(s, steps).releasedNet + 0.5
  {
    forall k | 0 <= k < |steps| && steps[k].Open? ensures Excess(steps[k].amount) <= 0.5 {
      HalfCentAtMost(steps[k].amount);
    }
    SolventRun(s, steps, 0.5);
  }

  /** And not at all when no amount asked for rounds up, in particular for amounts in whole cents. */
  lemma NeverOverdrawn(s: State, steps: seq<Step>)
    requires Inv(s) && RunOk(s, steps) && OnlyRises(s, steps) && s.requests == map[] && NoRoundingUp(steps)
    requires Total(s.payouts) as real <= s.releasedNet
    ensures Total(Run(s, steps).payouts) as real <= Run(s, steps).releasedNet
  {
    SolventRun(s, steps, 0.0);
  }

  /** One request against a quiet account. */
  function AskAlone(amount: real): seq<Step> {
    [Open(0, amount), Advance(0), Advance(0), Advance(0), Advance(0), Advance(0)]
  }

  lemma AloneOutcome(released: real, amount: real)
    requires 0.0 < amount <= released
    ensures var s := State([], released, map[]); var steps := AskAlone(amount);
            RunOk(s, steps) && Run(s, steps).payouts == [Payout(StoredCents(amount), Pending)]
            && Total(Run(s, steps).payouts) == StoredCents(amount)
  {
    var s0 := State([], released, map[]);
    var s1 := Do(s0, Open(0, amount));
    var s2 := Do(s1, Advance(0));
    var s3 := Do(s2, Advance(0));
    var s4 := Do(s3, Advance(0));
    var s5 := Do(s4, Advance(0));
    var s6 := Do(s5, Advance(0));
    assert s6.payouts == [Payout(StoredCents(amount), Pending)];
    var paid := Payout(StoredCents(amount), Pending);
    SumAppend([], paid, Pending);
    SumAppend([], paid, Completed);
    assert [] + [paid] == [paid];
    RunsTo(s5, [], Advance(0));
    RunsTo(s4, [Advance(0)], Advance(0));
    RunsTo(s3, [Advance(0), Advance(0)], Advance(0));
    RunsTo(s2, [Advance(0), Advance(0), Advance(0)], Advance(0));
    RunsTo(s1, [Advance(0), Advance(0), Advance(0), Advance(0)], Advance(0));
    RunsTo(s0, [Advance(0), Advance(0), Advance(0), Advance(0), Advance(0)], Open(0, amount));
  }

  lemma RunsTo(s: State, rest: seq<Step>, step: Step)
    requires StepOk(s, step) && RunOk(Do(s, step), rest)
    ensures RunOk(s, [step] + rest) && Run(s, [step] + rest) == Run(Do(s, step), rest)
  {
    assert ([step] + rest)[1..] == rest;
  }

  /** Exactly the amounts that round up can overdraw: such a request for the whole balance is paid out beyond it. */
  lemma OverdraftIffRoundingUp(amount: real)
    requires amount > 0.0
    ensures (exists released: real :: amount <= released && OverdrawsAlone(released, amount))
            <==> StoredCents(amount) as real > amount
  {
    if StoredCents(amount) as real > amount {
      AloneOutcome(amount, amount);
      assert OverdrawsAlone(amount, amount);
    } else {
      forall released: real | amount <= released ensures !OverdrawsAlone(released, amount) {
        AloneOutcome(released, amount);
      }
    }
  }

  ghost predicate OverdrawsAlone(released: real, amount: real) {
    var s, steps := State([], released, map[]), AskAlone(amount);
    RunOk(s, steps) && Total(Run(s, steps).payouts) as real > released
  }
}
