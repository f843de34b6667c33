/** Deadlock freedom and bounded work: every transaction takes its locks in increasing rank. */
module BookingLiveness {
  import opened Wrappers
  import opened ClassData
  import opened BookingSteps
  import opened BookingInvariants

  // ---------- The lock order ----------

  function Level(l: Lock): nat {
    match l
    case Advisory(_) => 0
    case ReservationRow(_) => 1
    case PassRow(_) => 2
    case CodeKey(_) => 3
  }

  /** Slot lock, reservation row, pass rows in spending order, index key. */
  predicate RankBelow(passes: seq<Pass>, a: Lock, b: Lock) {
    || Level(a) < Level(b)
    || (a.PassRow? && b.PassRow? && a.pass < |passes| && b.pass < |passes| && Before(passes, a.pass, b.pass))
  }

  lemma RankIsAnOrder(passes: seq<Pass>, a: Lock, b: Lock, c: Lock)
    ensures !RankBelow(passes, a, a)
    ensures RankBelow(passes, a, b) && RankBelow(passes, b, c) ==> RankBelow(passes, a, c)
  {
  }

  /** Whatever a transaction waits for ranks above everything it holds. */
  lemma LocksTakenInOrder(s: State, tx: Tx, l: Lock)
    requires Inv(s) && TxOk(s, tx) && Wants(s, tx).Some? && l in Locks(s, tx)
    ensures RankBelow(s.db.passes, l, Wants(s, tx).value)
  {
    var w := Wants(s, tx).value;
    if tx.Create? && tx.stage.Picking? && l.PassRow? {
      assert l.pass in tx.stage.skipped;
      assert Before(s.db.passes, l.pass, tx.stage.cand[0]);
    }
  }

  // ---------- Waiting ----------

  predicate WaitsOn(s: State, t: nat, u: nat) {
    && t in s.txs && u in s.txs && u != t
    && Wants(s, s.txs[t]).Some? && Wants(s, s.txs[t]).value in Locks(s, s.txs[u])
  }

  lemma WaitClimbs(s: State, t: nat, u: nat)
    requires Inv(s) && WaitsOn(s, t, u) && Wants(s, s.txs[u]).Some?
    ensures RankBelow(s.db.passes, Wants(s, s.txs[t]).value, Wants(s, s.txs[u]).value)
  {
    assert TxOk(s, s.txs[u]);
    LocksTakenInOrder(s, s.txs[u], Wants(s, s.txs[t]).value);
  }

  /** A chain of waits climbs in rank from its first transaction to its last. */
  lemma {:induction false} ChainClimbs(s: State, chain: seq<nat>)
    requires Inv(s) && |chain| >= 2
    requires forall k :: 0 <= k < |chain| - 1 ==> WaitsOn(s, chain[k], chain[k + 1])
    requires chain[|chain| - 1] in s.txs && Wants(s, s.txs[chain[|chain| - 1]]).Some?
    ensures chain[0] in s.txs && Wants(s, s.txs[chain[0]]).Some?
    ensures RankBelow(s.db.passes, Wants(s, s.txs[chain[0]]).value, Wants(s, s.txs[chain[|chain| - 1]]).value)
  {
    assert WaitsOn(s, chain[0], chain[1]);
    if |chain| == 2 {
      WaitClimbs(s, chain[0], chain[1]);
    } else {
      assert WaitsOn(s, chain[1], chain[2]);
      forall k | 0 <= k < |chain[1..]| - 1 ensures WaitsOn(s, chain[1..][k], chain[1..][k + 1]) {
        assert WaitsOn(s, chain[k + 1], chain[k + 2]);
      }
      ChainClimbs(s, chain[1..]);
      WaitClimbs(s, chain[0], chain[1]);
      RankIsAnOrder(s.db.passes, Wants(s, s.txs[chain[0]]).value, Wants(s, s.txs[chain[1]]).value,
                    Wants(s, s.txs[chain[|chain| - 1]]).value);
    }
  }

  /** No reachable state contains a cycle of transactions each waiting for the next. */
  lemma NoWaitCycle(start: State, steps: seq<Step>, ring: seq<nat>)
    requires Init(start) && RunOk(start, steps)
    requires |ring| >= 2 && ring[0] == ring[|ring| - 1]
    ensures exists k :: 0 <= k < |ring| - 1 && !WaitsOn(Run(start, steps), ring[k], ring[k + 1])
  {
    EveryRunKeeps(start, steps);
    var s := Run(start, steps);
    if forall k :: 0 <= k < |ring| - 1 ==> WaitsOn(s, ring[k], ring[k + 1]) {
      assert WaitsOn(s, ring[0], ring[1]);
      ChainClimbs(s, ring);
      var w := Wants(s, s.txs[ring[0]]).value;
      RankIsAnOrder(s.db.passes, w, w, w);
    }
  }

  ghost function Above(s: State, t: nat): set<nat>
    requires t in s.txs
  {
    set u | u in s.txs && Wants(s, s.txs[u]).Some? && Wants(s, s.txs[t]).Some?
            && RankBelow(s.db.passes, Wants(s, s.txs[t]).value, Wants(s, s.txs[u]).value)
  }

  /** If anything is unfinished, following who waits for whom ends at a transaction that can step. */
  lemma {:induction false} SomeoneCanAdvance(s: State, t: nat) returns (u: nat)
    requires Inv(s) && t in s.txs && !s.txs[t].Done?
    ensures CanAdvance(s, u)
    decreases Above(s, t)
  {
    if CanAdvance(s, t) {
      return t;
    }
    var h :| h in s.txs && h != t && Wants(s, s.txs[t]).value in Locks(s, s.txs[h]);
    if CanAdvance(s, h) {
      return h;
    }
    WaitClimbs(s, t, h);
    forall v | v in Above(s, h) ensures v in Above(s, t) {
      RankIsAnOrder(s.db.passes, Wants(s, s.txs[t]).value, Wants(s, s.txs[h]).value, Wants(s, s.txs[v]).value);
    }
    RankIsAnOrder(s.db.passes, Wants(s, s.txs[h]).value, Wants(s, s.txs[h]).value, Wants(s, s.txs[h]).value);
    assert h in Above(s, t) && h !in Above(s, h);
    u := SomeoneCanAdvance(s, h);
  }

  // ---------- Bounded work ----------

  /** At most this many more steps of `tx`, while no pass is added. */
  function StepsLeft(s: State, tx: Tx): nat {
    var round := |s.db.passes| + 8;
    match tx
    case Create(_, _, _, attempt, _, stage) =>
      var retries := if attempt < RESERVATION_CODE_ATTEMPTS then RESERVATION_CODE_ATTEMPTS - 1 - attempt else 0;
      Times(retries, round) +
      (match stage
       case AtSlot => round
       case HasSlot => round - 1
       case TemplateRead(_, _) => round - 2
       case Picking(_, _, cand, _) => |cand| + 5
       case Holding(_, _, _, _, progress) =>
         (match progress
          case PassLocked => 4
          case NoDuplicate => 3
          case RoomLeft => 2
          case RowInserted => 1))
    case Cancel(_, _, _, stage) =>
      (match stage case AtRow => 4 case RowLocked => 3 case Marked(_) => 2 case Credited(_) => 1)
    case CheckIn(_, _, _, _, stage) => (match stage case DayRead => 3 case Locating => 2 case RowHeld(_) => 1)
    case Remind(_, claimed) => if claimed.None? then 2 else 1
    case Done(_) => 0
  }

  function Times(n: nat, k: nat): nat {
    if n == 0 then 0 else k + Times(n - 1, k)
  }

  lemma {:induction false} InsertLength(passes: seq<Pass>, ids: seq<nat>, i: nat)
    requires i < |passes| && Sorted(passes, ids) && forall k :: 0 <= k < |ids| ==> ids[k] < i
    ensures |Insert(passes, ids, i)| == |ids| + 1
    decreases |ids|
  {
    if ids != [] && !Before(passes, i, ids[0]) {
      assert forall k :: 0 <= k < |ids[1..]| ==> ids[1..][k] == ids[k + 1];
      InsertLength(passes, ids[1..], i);
    }
  }

  lemma {:induction false} FewCandidates(passes: seq<Pass>, user: nat, program: nat, now: int, n: nat)
    requires n <= |passes|
    ensures |Candidates(passes, user, program, now, n)| <= n
  {
    if n > 0 {
      FewCandidates(passes, user, program, now, n - 1);
      OneMoreCandidate(passes, user, program, now, n - 1);
    }
  }

  lemma OneMoreCandidate(passes: seq<Pass>, user: nat, program: nat, now: int, n: nat)
    requires n < |passes|
    ensures |Candidates(passes, user, program, now, n + 1)| <= |Candidates(passes, user, program, now, n)| + 1
  {
    if Usable(passes[n], user, program, now) {
      var rest := Candidates(passes, user, program, now, n);
      assert forall k :: 0 <= k < |rest| ==> rest[k] in rest;
      InsertLength(passes, rest, n);
    }
  }

  /** `s'` is `s` after a step of `t` alone, which is now closer to its reply. */
  ghost predicate Shortened(s: State, s': State, t: nat)
    requires t in s.txs
  {
    && s'.txs.Keys == s.txs.Keys && |s'.db.passes| == |s.db.passes|
    && StepsLeft(s', s'.txs[t]) < StepsLeft(s, s.txs[t])
    && forall u :: u in s.txs && u != t ==> s'.txs[u] == s.txs[u]
  }

  lemma CreateShortens(s: State, t: nat, newCode: string)
    requires t in s.txs && s.txs[t].Create? && s.txs[t].attempt < RESERVATION_CODE_ATTEMPTS
    ensures Shortened(s, AdvanceCreate(s, t, s.txs[t], newCode), t)
  {
    var tx := s.txs[t];
    if tx.stage.TemplateRead? {
      FewCandidates(s.db.passes, tx.user, tx.slot.program, tx.now, |s.db.passes|);
    }
  }

  lemma CancelShortens(s: State, t: nat)
    requires t in s.txs && s.txs[t].Cancel?
    ensures Shortened(s, AdvanceCancel(s, t, s.txs[t]), t)
  {
  }

  lemma CheckInShortens(s: State, t: nat)
    requires t in s.txs && s.txs[t].CheckIn?
    ensures Shortened(s, AdvanceCheckIn(s, t, s.txs[t]), t)
  {
  }

  /** Each step of a transaction brings it closer to its reply: retries are bounded, and so is everything else. */
  lemma StepShortens(s: State, t: nat, newCode: string, claim: set<nat>)
    requires Inv(s) && CanAdvance(s, t)
    ensures Shortened(s, AdvanceTx(s, t, newCode, claim), t)
  {
    assert TxOk(s, s.txs[t]);
    match s.txs[t] {
      case Create(_, _, _, _, _, _) => CreateShortens(s, t, newCode);
      case Cancel(_, _, _, _) => CancelShortens(s, t);
      case CheckIn(_, _, _, _, _) => CheckInShortens(s, t);
      case Remind(_, _) =>
    }
  }

  function TotalLeft(s: State, ids: seq<nat>): nat {
    if ids == [] then 0
    else TotalLeft(s, ids[1..]) + if ids[0] in s.txs then StepsLeft(s, s.txs[ids[0]]) else 0
  }

  lemma {:induction false} TotalShrinks(s: State, s': State, ids: seq<nat>, t: nat)
    requires t in s.txs && Shortened(s, s', t)
    ensures TotalLeft(s', ids) <= TotalLeft(s, ids)
    ensures t in ids ==> TotalLeft(s', ids) < TotalLeft(s, ids)
    decreases |ids|
  {
    if ids != [] {
      TotalShrinks(s, s', ids[1..], t);
      assert ids == [ids[0]] + ids[1..];
      if ids[0] in s.txs && ids[0] != t {
        SameStepsLeft(s, s', s.txs[ids[0]]);
      }
    }
  }

  lemma SameStepsLeft(s: State, s': State, tx: Tx)
    requires |s'.db.passes| == |s.db.passes|
    ensures StepsLeft(s', tx) == StepsLeft(s, tx)
  {
  }

  predicate OnlyAdvances(steps: seq<Step>) {
    forall k :: 0 <= k < |steps| ==> steps[k].Advance?
  }

  /** However the running transactions are interleaved, they stop after a bounded number of steps. */
  lemma {:induction false} RunsAreBounded(s: State, ids: seq<nat>, steps: seq<Step>)
    requires Inv(s) && (forall t :: t in s.txs ==> t in ids) && RunOk(s, steps) && OnlyAdvances(steps)
    ensures |steps| <= TotalLeft(s, ids)
    decreases |steps|
  {
    if steps != [] {
      var step := steps[0];
      assert step.Advance?;
      StepShortens(s, step.id, step.newCode, step.claim);
      TotalShrinks(s, Do(s, step), ids, step.id);
      DoKeeps(s, step);
      RunsAreBounded(Do(s, step), ids, steps[1..]);
    }
  }

  /** A schedule that cannot be extended has answered every request: nothing is ever stuck. */
  lemma StuckMeansFinished(start: State, steps: seq<Step>)
    requires Init(start) && RunOk(start, steps)
    requires forall t :: !CanAdvance(Run(start, steps), t)
    ensures forall t :: t in Run(start, steps).txs ==> Run(start, steps).txs[t].Done?
  {
    EveryRunKeeps(start, steps);
    var s := Run(start, steps);
    forall t | t in s.txs ensures s.txs[t].Done? {
      if !s.txs[t].Done? {
        var u := SomeoneCanAdvance(s, t);
      }
    }
  }
}
