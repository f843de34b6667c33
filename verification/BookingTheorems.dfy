/** The main results about concurrent bookings, for every interleaving from any consistent database. */
module BookingTheorems {
  import opened Wrappers
  import opened ClassData
  import opened BookingSteps
  import opened BookingInvariants

  // ---------- Credits, codes and lifecycle ----------

  /** A finite pass never goes below zero or above what it was sold with, so its CHECK constraint never fires. */
  lemma CreditsConserved(start: State, steps: seq<Step>, p: nat)
    requires Init(start) && RunOk(start, steps)
    requires p < |Run(start, steps).db.passes| && Run(start, steps).db.passes[p].total.Some?
    ensures var db := Run(start, steps).db;
            && db.passes[p].remaining.Some?
            && 0 <= db.passes[p].remaining.value <= db.passes[p].total.value
            && db.passes[p].total.value
               == db.passes[p].remaining.value + Count(db.rows, LiveOnPass(p)) + Count(db.rows, KeptOnPass(p))
  {
    EveryRunKeeps(start, steps);
    assert Conserved(Run(start, steps).db, p);
  }

  /**
   One reservation, over any run: at most one refund, one admission, one reminder; never cancelled and checked in; never
   checked in before its date; and refunded exactly when a finite pass paid and it was cancelled six hours ahead.
   */
  lemma ReservationLifecycle(start: State, steps: seq<Step>, i: nat)
    requires Init(start) && RunOk(start, steps) && i < |Run(start, steps).db.rows|
    ensures var db := Run(start, steps).db; var r := db.rows[i];
            && !(r.status == Cancelled && r.checkedInAt.Some?)
            && r.refunds <= 1 && r.admissions <= 1 && r.reminders <= 1
            && (r.admissions == 1 <==> r.checkedInAt.Some?) && (r.reminders == 1 <==> r.remindedAt.Some?)
            && (r.checkedInAt.Some? ==> r.slot.date <= r.checkedInAt.value / DAY)
            && (r.pass.Some? ==> r.pass.value < |db.passes|) && (r.status == Cancelled <==> r.cancelledAt.Some?)
            && (r.refunds == 1 <==> r.status == Cancelled && EarnsCredit(db, r))
  {
    EveryRunKeeps(start, steps);
    assert RowOk(Run(start, steps).db, Run(start, steps).db.rows[i]);
  }

  lemma NoDoubleBooking(start: State, steps: seq<Step>, i: nat, j: nat)
    requires Init(start) && RunOk(start, steps) && i < |Run(start, steps).db.rows| && j < |Run(start, steps).db.rows|
    requires i != j
    ensures var rows := Run(start, steps).db.rows;
            && rows[i].code != rows[j].code
            && !(rows[i].user == rows[j].user && rows[i].slot == rows[j].slot
                 && rows[i].status == Reserved && rows[j].status == Reserved)
  {
    EveryRunKeeps(start, steps);
    var rows := Run(start, steps).db.rows;
    var a, b := if i < j then i else j, if i < j then j else i;
    assert rows[a].code != rows[b].code;
    assert HoldsAt(rows[a], rows[a].user, rows[a].slot) ==> !HoldsAt(rows[b], rows[a].user, rows[a].slot);
  }

  /** `refunded` is answered exactly when this cancellation handed a credit back. */
  lemma RefundedMeansCredited(start: State, steps: seq<Step>, t: nat)
    requires Init(start) && RunOk(start, steps)
    requires t in Run(start, steps).txs && Run(start, steps).txs[t].Done? && Run(start, steps).txs[t].reply.CancelDone?
    ensures var s := Run(start, steps); var reply := s.txs[t].reply;
            && reply.row < |s.db.rows| && s.db.rows[reply.row].status == Cancelled
            && (reply.refunded <==> s.db.rows[reply.row].refunds == 1)
  {
    EveryRunKeeps(start, steps);
    var s := Run(start, steps);
    assert TxOk(s, s.txs[t]);
  }

  // ---------- Capacity ----------

  /** An insert leaves the slot at or below the capacity its transaction read under the slot's lock. */
  lemma InsertWithinCapacity(start: State, steps: seq<Step>, t: nat, newCode: string)
    requires Init(start) && RunOk(start, steps)
    requires t in Run(start, steps).txs
    requires var tx := Run(start, steps).txs[t]; tx.Create? && tx.stage.Holding? && tx.stage.progress == RowInserted
    ensures var s := Run(start, steps); var tx := s.txs[t];
            var s' := AdvanceCreate(s, t, tx, newCode);
            && |s'.db.rows| == |s.db.rows| + 1
            && Count(s'.db.rows, LiveInSlot(tx.slot)) <= tx.stage.capacity
            && tx.stage.pass < |s.db.passes| && s'.db.passes[tx.stage.pass] == Spend(s.db.passes[tx.stage.pass])
            && Usable(s.db.passes[tx.stage.pass], tx.user, tx.slot.program, tx.now)
  {
    EveryRunKeeps(start, steps);
    var s := Run(start, steps);
    var tx := s.txs[t];
    assert TxOk(s, tx);
    CountAppend(s.db.rows, NewReservation(tx.user, tx.stage.provider, tx.slot, tx.stage.pass, tx.code),
                LiveInSlot(tx.slot));
  }

  ghost predicate NeverLowers(before: Catalogue, after: Catalogue) {
    forall slot {:trigger FindTemplate(after, slot)} :: FindTemplate(before, slot).Found? ==>
      FindTemplate(after, slot).Found? && FindTemplate(after, slot).capacity >= FindTemplate(before, slot).capacity
  }

  /** No step of the run takes a bookable slot away or shrinks it. */
  ghost predicate CapacityOnlyRaised(s: State, steps: seq<Step>)
    requires RunOk(s, steps)
    decreases |steps|
  {
    steps == [] ||
    ((steps[0].SetCatalogue? ==> NeverLowers(s.db.cat, steps[0].cat))
     && CapacityOnlyRaised(Do(s, steps[0]), steps[1..]))
  }

  ghost predicate SlotFits(db: Db, slot: Slot) {
    Count(db.rows, LiveInSlot(slot)) > 0 ==>
      FindTemplate(db.cat, slot).Found? && Count(db.rows, LiveInSlot(slot)) <= FindTemplate(db.cat, slot).capacity
  }

  function CapacityRead(tx: Tx): Option<int> {
    if !tx.Create? then None
    else match tx.stage
      case AtSlot => None
      case HasSlot => None
      case TemplateRead(_, capacity) => Some(capacity)
      case Picking(_, capacity, _, _) => Some(capacity)
      case Holding(_, capacity, _, _, _) => Some(capacity)
  }

  ghost predicate ReadFits(s: State, tx: Tx) {
    CapacityRead(tx).Some? ==>
      FindTemplate(s.db.cat, tx.slot).Found? && CapacityRead(tx).value <= FindTemplate(s.db.cat, tx.slot).capacity
  }

  ghost predicate Fits(s: State) {
    && (forall slot :: SlotFits(s.db, slot))
    && (forall t :: t in s.txs ==> ReadFits(s, s.txs[t]))
  }

  lemma AdvanceLiveCount(s: State, t: nat, newCode: string, claim: set<nat>, slot: Slot)
    requires Inv(s) && StepOk(s, Advance(t, newCode, claim))
    ensures var s' := AdvanceTx(s, t, newCode, claim);
            || Count(s'.db.rows, LiveInSlot(slot)) <= Count(s.db.rows, LiveInSlot(slot))
            || (CapacityRead(s.txs[t]).Some? && s.txs[t].slot == slot
                && Count(s'.db.rows, LiveInSlot(slot)) <= CapacityRead(s.txs[t]).value)
  {
    var tx := s.txs[t];
    assert TxOk(s, tx);
    if tx.Create? {
      if tx.stage.Holding? && tx.stage.progress == RowInserted {
        var r := NewReservation(tx.user, tx.stage.provider, tx.slot, tx.stage.pass, tx.code);
        CountAppend(s.db.rows, r, LiveInSlot(slot));
      }
    } else {
      OthersAddNone(s, t, newCode, claim, slot);
    }
  }

  lemma OthersAddNone(s: State, t: nat, newCode: string, claim: set<nat>, slot: Slot)
    requires Inv(s) && StepOk(s, Advance(t, newCode, claim)) && !s.txs[t].Create?
    ensures Count(AdvanceTx(s, t, newCode, claim).db.rows, LiveInSlot(slot)) <= Count(s.db.rows, LiveInSlot(slot))
  {
    assert TxOk(s, s.txs[t]);
    CountMonotone(s.db.rows, AdvanceTx(s, t, newCode, claim).db.rows, LiveInSlot(slot));
  }

  lemma CreateReadFits(s: State, t: nat, newCode: string)
    requires t in s.txs && s.txs[t].Create? && ReadFits(s, s.txs[t])
    ensures var s' := AdvanceCreate(s, t, s.txs[t], newCode);
            s'.db.cat == s.db.cat && t in s'.txs && ReadFits(s', s'.txs[t])
  {
  }

  lemma AdvanceReadFits(s: State, t: nat, newCode: string, claim: set<nat>)
    requires CanAdvance(s, t) && ReadFits(s, s.txs[t])
    ensures var s' := AdvanceTx(s, t, newCode, claim);
            s'.db.cat == s.db.cat && s'.txs.Keys == s.txs.Keys && ReadFits(s', s'.txs[t])
            && forall u :: u in s.txs && u != t ==> s'.txs[u] == s.txs[u]
  {
    if s.txs[t].Create? {
      CreateReadFits(s, t, newCode);
    }
  }

  lemma FitsKept(s: State, step: Step)
    requires Inv(s) && Fits(s) && StepOk(s, step)
    requires step.SetCatalogue? ==> NeverLowers(s.db.cat, step.cat)
    ensures Fits(Do(s, step))
  {
    var s' := Do(s, step);
    if step.Advance? {
      assert ReadFits(s, s.txs[step.id]);
      AdvanceReadFits(s, step.id, step.newCode, step.claim);
    }
    forall slot ensures SlotFits(s'.db, slot) {
      assert SlotFits(s.db, slot);
      if step.Advance? {
        AdvanceLiveCount(s, step.id, step.newCode, step.claim, slot);
      }
    }
    forall t | t in s'.txs ensures ReadFits(s', s'.txs[t]) {
      if t in s.txs {
        assert ReadFits(s, s.txs[t]);
      }
    }
  }

  /** While no slot is withdrawn or shrunk, live reservations never exceed capacity in any reachable state. */
  lemma {:induction false} CapacityRespected(s: State, steps: seq<Step>, slot: Slot)
    requires Inv(s) && Fits(s) && RunOk(s, steps) && CapacityOnlyRaised(s, steps)
    ensures SlotFits(Run(s, steps).db, slot)
    decreases |steps|
  {
    if steps == [] {
      assert SlotFits(s.db, slot);
    } else {
      FitsKept(s, steps[0]);
      DoKeeps(s, steps[0]);
      CapacityRespected(Do(s, steps[0]), steps[1..], slot);
    }
  }

  // ---------- The occurrence index never decides ----------

  /** By the time of the insert the slot lock has already ruled out a second live reservation of the user. */
  lemma OccurrenceIndexNeverFires(start: State, steps: seq<Step>, t: nat)
    requires Init(start) && RunOk(start, steps) && t in Run(start, steps).txs
    requires var tx := Run(start, steps).txs[t]; tx.Create? && tx.stage.Holding? && tx.stage.progress == RoomLeft
    ensures !Holds(Run(start, steps).db.rows, Run(start, steps).txs[t].user, Run(start, steps).txs[t].slot)
  {
    EveryRunKeeps(start, steps);
    assert TxOk(Run(start, steps), Run(start, steps).txs[t]);
  }

  /** A refusal, a collision or an exhausted retry leaves the database as it was, and says the truth about it. */
  lemma RefusalsWriteNothing(s: State, t: nat, newCode: string, claim: set<nat>)
    requires Inv(s) && StepOk(s, Advance(t, newCode, claim)) && s.txs[t].Create?
    ensures var tx, s' := s.txs[t], AdvanceTx(s, t, newCode, claim);
            && (!(s'.txs[t].Done? && s'.txs[t].reply.Booked?) ==> s'.db == s.db)
            && (s'.txs[t] == Done(BookingRefused(DuplicateReservation)) ==> Holds(s.db.rows, tx.user, tx.slot))
            && (s'.txs[t] == Done(CodesExhausted) ==>
                  CodeTaken(s.db.rows, tx.code) && tx.attempt + 1 == RESERVATION_CODE_ATTEMPTS
                  && !Holds(s.db.rows, tx.user, tx.slot))
  {
    assert TxOk(s, s.txs[t]);
  }
}
