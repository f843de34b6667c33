/** What every interleaving of the steps keeps: capacity, credits, lifecycle, codes and lock exclusion. */
module BookingInvariants {
  import opened Wrappers
  import opened ClassData
  import opened BookingSteps

  // ---------- Committed data ----------

  /** Credits of pass `p` are left, on live reservations, or kept by late cancellations. */
  ghost predicate Conserved(db: Db, p: nat)
    requires p < |db.passes|
  {
    var pass := db.passes[p];
    && (pass.total.None? <==> pass.remaining.None?)
    && (pass.total.Some? ==>
          && pass.remaining.value >= 0
          && pass.total.value == pass.remaining.value + Count(db.rows, LiveOnPass(p)) + Count(db.rows, KeptOnPass(p)))
  }

  ghost predicate RowOk(db: Db, r: Reservation) {
    && (r.pass.Some? ==> r.pass.value < |db.passes| && db.passes[r.pass.value].user == r.user)
    && (r.status == Cancelled <==> r.cancelledAt.Some?)
    && (r.status == Cancelled ==> r.checkedInAt.None?)
    && r.admissions == (if r.checkedInAt.Some? then 1 else 0)
    && (r.checkedInAt.Some? ==> r.admittedOn == Some(r.slot.date) && r.slot.date <= r.checkedInAt.value / DAY)
    && r.reminders == (if r.remindedAt.Some? then 1 else 0)
    && (r.remindedAt.Some? ==> 0 <= StartOf(r.slot) - r.remindedAt.value <= REMIND_AHEAD)
    && r.refunds <= 1
    && (r.refunds == 1 <==> r.status == Cancelled && EarnsCredit(db, r))
  }

  /** A cancelled booking on a finite pass, cancelled by a transaction begun at least six hours ahead. */
  predicate EarnsCredit(db: Db, r: Reservation)
    requires r.cancelledAt.Some? && (r.pass.Some? ==> r.pass.value < |db.passes|)
  {
    && r.pass.Some? && db.passes[r.pass.value].total.Some?
    && StartOf(r.slot) - r.cancelledAt.value >= CANCELLATION_REFUND_WINDOW
  }

  ghost predicate UniqueCodes(rows: seq<Reservation>) {
    forall i, j :: 0 <= i < j < |rows| ==> rows[i].code != rows[j].code
  }

  ghost predicate OneLivePerUser(rows: seq<Reservation>) {
    forall i, j :: 0 <= i < j < |rows| && HoldsAt(rows[i], rows[i].user, rows[i].slot)
                   ==> !HoldsAt(rows[j], rows[i].user, rows[i].slot)
  }

  ghost predicate DataOk(db: Db) {
    && (forall p :: 0 <= p < |db.passes| ==> Conserved(db, p))
    && (forall i :: 0 <= i < |db.rows| ==> RowOk(db, db.rows[i]))
    && UniqueCodes(db.rows)
    && OneLivePerUser(db.rows)
  }

  // ---------- What a transaction may rely on while it runs ----------

  ghost predicate PassFor(db: Db, p: nat, user: nat, program: nat, now: int) {
    && p < |db.passes|
    && db.passes[p].user == user && db.passes[p].program == program
    && db.passes[p].active && Unexpired(db.passes[p], now)
  }

  ghost predicate StageOk(s: State, tx: Tx)
    requires tx.Create?
  {
    var db := s.db;
    match tx.stage
    case AtSlot => true
    case HasSlot => true
    case TemplateRead(_, _) => StartOf(tx.slot) > tx.now
    case Picking(_, _, cand, skipped) =>
      && Sorted(db.passes, cand)
      && (forall k :: 0 <= k < |cand| ==> PassFor(db, cand[k], tx.user, tx.slot.program, tx.now))
      && (forall i :: i in skipped ==> i < |db.passes|)
      && (forall i, k :: i in skipped && 0 <= k < |cand| ==> Before(db.passes, i, cand[k]))
    case Holding(_, capacity, pass, skipped, progress) =>
      && PassFor(db, pass, tx.user, tx.slot.program, tx.now)
      && Usable(db.passes[pass], tx.user, tx.slot.program, tx.now)
      && (forall i :: i in skipped ==> i < |db.passes| && Before(db.passes, i, pass))
      && (progress != PassLocked ==> !Holds(db.rows, tx.user, tx.slot))
      && (progress == RoomLeft || progress == RowInserted ==> Count(db.rows, LiveInSlot(tx.slot)) < capacity)
      && (progress == RowInserted ==> !CodeTaken(db.rows, tx.code))
  }

  ghost predicate CancelOk(s: State, tx: Tx)
    requires tx.Cancel?
  {
    var rows, passes := s.db.rows, s.db.passes;
    match tx.cancelStage
    case AtRow => true
    case RowLocked => tx.row < |rows|
    case Marked(eligible) =>
      tx.row < |rows| && CancelVerdictFor(rows[tx.row], tx.user, tx.now) == Proceed(eligible)
    case Credited(credit) =>
      && tx.row < |rows|
      && exists eligible ::
           && CancelVerdictFor(rows[tx.row], tx.user, tx.now) == Proceed(eligible)
           && credit == RefundTarget(passes, rows[tx.row], tx.user, eligible)
  }

  predicate Located(r: Reservation, row: nat, locator: Locator, provider: nat) {
    && r.provider == provider
    && (locator.ById? ==> locator.id == row)
    && (locator.ByCode? ==> locator.code == r.code)
  }

  ghost predicate TxOk(s: State, tx: Tx) {
    match tx
    case Create(_, _, _, attempt, now, _) => attempt < RESERVATION_CODE_ATTEMPTS && now <= s.clock && StageOk(s, tx)
    case Cancel(_, _, now, _) => now <= s.clock && CancelOk(s, tx)
    case CheckIn(_, _, today, now, stage) =>
      && today <= now / DAY && now <= s.clock
      && (stage.RowHeld? ==> stage.row < |s.db.rows| && Located(s.db.rows[stage.row], stage.row, tx.locator, tx.provider))
    case Remind(now, claimed) =>
      && now <= s.clock
      && (claimed.Some? ==> forall i :: i in claimed.value ==> i < |s.db.rows| && ReminderDue(s.db.rows[i], now))
    case Done(reply) =>
      && (reply.Booked? ==> reply.row < |s.db.rows|)
      && (reply.CancelDone? ==>
            && reply.row < |s.db.rows| && s.db.rows[reply.row].status == Cancelled
            && (reply.refunded <==> s.db.rows[reply.row].refunds == 1))
  }

  ghost predicate LocksDisjoint(s: State) {
    forall t, u :: t in s.txs && u in s.txs && t != u ==> Locks(s, s.txs[t]) !! Locks(s, s.txs[u])
  }

  ghost predicate Inv(s: State) {
    && DataOk(s.db)
    && LocksDisjoint(s)
    && (forall t :: t in s.txs ==> TxOk(s, s.txs[t]))
  }

  /** Any consistent database with nothing running. */
  ghost predicate Init(s: State) {
    s.txs == map[] && DataOk(s.db)
  }

  // ---------- The effect of one step, as seen by everybody else ----------

  predicate SameBooking(a: Reservation, b: Reservation) {
    a.user == b.user && a.provider == b.provider && a.slot == b.slot && a.pass == b.pass && a.code == b.code
  }

  /** `after` differs from `before` only where the locks in `held` allow it. */
  ghost predicate Framed(before: State, after: State, held: set<Lock>) {
    var d, e := before.db, after.db;
    && after.hash == before.hash && before.clock <= after.clock
    && |d.passes| <= |e.passes| && |d.rows| <= |e.rows|
    && (forall p :: 0 <= p < |d.passes| ==> SamePassTerms(d.passes[p], e.passes[p]))
    && (forall p: nat :: p < |d.passes| && PassRow(p) !in held ==> e.passes[p] == d.passes[p])
    && (forall i :: 0 <= i < |d.rows| ==> SameBooking(d.rows[i], e.rows[i]))
    && (forall i :: 0 <= i < |d.rows| ==> d.rows[i].status == Cancelled ==> e.rows[i] == d.rows[i])
    && (forall i: nat :: i < |d.rows| && ReservationRow(i) !in held ==> e.rows[i] == d.rows[i])
    && (forall i :: |d.rows| <= i < |e.rows| ==>
          Advisory(before.hash(e.rows[i].slot)) in held && CodeKey(e.rows[i].code) in held)
  }

  lemma BeforeKept(passes: seq<Pass>, passes': seq<Pass>, i: nat, j: nat)
    requires i < |passes| && j < |passes| && |passes| <= |passes'|
    requires SamePassTerms(passes[i], passes'[i]) && SamePassTerms(passes[j], passes'[j])
    ensures Before(passes, i, j) <==> Before(passes', i, j)
  {
  }

  /** Outside the slots whose lock is held, live counts can only fall. */
  lemma {:induction false} LiveCountFalls(before: State, after: State, held: set<Lock>, slot: Slot)
    requires Framed(before, after, held) && Advisory(before.hash(slot)) !in held
    ensures Count(after.db.rows, LiveInSlot(slot)) <= Count(before.db.rows, LiveInSlot(slot))
  {
    var n := |before.db.rows|;
    CountMonotone(before.db.rows, after.db.rows[..n], LiveInSlot(slot));
    CountIgnoresTail(after.db.rows, n, LiveInSlot(slot));
  }

  lemma {:induction false} CountIgnoresTail(rows: seq<Reservation>, n: nat, q: Query)
    requires n <= |rows| && forall i :: n <= i < |rows| ==> !Selects(q, rows[i])
    ensures Count(rows, q) == Count(rows[..n], q)
    decreases |rows|
  {
    if n == |rows| {
      assert rows[..n] == rows;
    } else {
      var m := |rows| - 1;
      CountIgnoresTail(rows[..m], n, q);
      assert rows[..m][..n] == rows[..n];
    }
  }

  lemma CreateKept(before: State, after: State, held: set<Lock>, tx: Tx)
    requires Framed(before, after, held) && tx.Create? && TxOk(before, tx) && Locks(before, tx) !! held
    ensures TxOk(after, tx)
  {
    var d, e := before.db, after.db;
    match tx.stage {
      case AtSlot =>
      case HasSlot =>
      case TemplateRead(_, _) =>
      case Picking(_, _, cand, skipped) =>
        forall k, l | 0 <= k < l < |cand| ensures Before(e.passes, cand[k], cand[l]) {
          BeforeKept(d.passes, e.passes, cand[k], cand[l]);
        }
        forall i, k | i in skipped && 0 <= k < |cand| ensures Before(e.passes, i, cand[k]) {
          BeforeKept(d.passes, e.passes, i, cand[k]);
        }
      case Holding(_, _, pass, skipped, progress) =>
        assert PassRow(pass) in Locks(before, tx);
        assert Advisory(before.hash(tx.slot)) in Locks(before, tx);
        forall i | i in skipped ensures Before(e.passes, i, pass) {
          BeforeKept(d.passes, e.passes, i, pass);
        }
        LiveCountFalls(before, after, held, tx.slot);
        forall i | 0 <= i < |e.rows| && progress != PassLocked ensures !HoldsAt(e.rows[i], tx.user, tx.slot) {
          assert i < |d.rows| ==> !HoldsAt(d.rows[i], tx.user, tx.slot);
        }
        forall i | 0 <= i < |e.rows| && progress == RowInserted ensures e.rows[i].code != tx.code {
          assert CodeKey(tx.code) in Locks(before, tx);
          assert i < |d.rows| ==> d.rows[i].code != tx.code;
        }
    }
  }

  lemma OthersKept(before: State, after: State, held: set<Lock>, tx: Tx)
    requires DataOk(before.db)
    requires Framed(before, after, held) && TxOk(before, tx) && Locks(before, tx) !! held
    ensures TxOk(after, tx)
  {
    match tx {
      case Create(_, _, _, _, _, _) =>
        CreateKept(before, after, held, tx);
      case Cancel(user, row, now, stage) =>
        if !stage.AtRow? {
          assert ReservationRow(row) in Locks(before, tx);
          if stage.Credited? {
            var eligible :| CancelVerdictFor(before.db.rows[row], user, now) == Proceed(eligible)
                         && stage.credit == RefundTarget(before.db.passes, before.db.rows[row], user, eligible);
            assert stage.credit == RefundTarget(after.db.passes, after.db.rows[row], user, eligible);
          }
        }
      case CheckIn(_, _, _, _, _) =>
      case Remind(_, claimed) =>
        if claimed.Some? {
          forall i | i in claimed.value ensures i < |after.db.rows| && ReminderDue(after.db.rows[i], tx.now) {
            assert ReservationRow(i) in Locks(before, tx);
          }
        }
      case Done(_) =>
    }
  }

  // ---------- The four commits keep the data consistent ----------

  lemma RowsStayOk(d: Db, e: Db)
    requires forall i :: 0 <= i < |d.rows| ==> RowOk(d, d.rows[i])
    requires |d.passes| <= |e.passes|
    requires forall p :: 0 <= p < |d.passes| ==> SamePassTerms(d.passes[p], e.passes[p])
    ensures forall i :: 0 <= i < |d.rows| ==> RowOk(e, d.rows[i])
  {
  }

  lemma BookingCommitted(db: Db, user: nat, provider: nat, slot: Slot, pass: nat, code: string, db': Db)
    requires DataOk(db) && pass < |db.passes| && db.passes[pass].user == user
    requires db.passes[pass].remaining.Some? ==> db.passes[pass].remaining.value > 0
    requires !Holds(db.rows, user, slot) && !CodeTaken(db.rows, code)
    requires db' == db.(rows := db.rows + [NewReservation(user, provider, slot, pass, code)],
                        passes := db.passes[pass := Spend(db.passes[pass])])
    ensures DataOk(db')
  {
    var r := NewReservation(user, provider, slot, pass, code);
    RowsStayOk(db, db');
    assert RowOk(db', r);
    forall p | 0 <= p < |db'.passes| ensures Conserved(db', p) {
      assert Conserved(db, p);
      CountAppend(db.rows, r, LiveOnPass(p));
      CountAppend(db.rows, r, KeptOnPass(p));
    }
    assert forall i :: 0 <= i < |db.rows| ==> !HoldsAt(db.rows[i], user, slot);
    assert forall i :: 0 <= i < |db.rows| ==> db.rows[i].code != code;
  }

  lemma CancelCommitted(db: Db, row: nat, user: nat, now: int, eligible: bool, db': Db)
    requires DataOk(db) && row < |db.rows| && CancelVerdictFor(db.rows[row], user, now) == Proceed(eligible)
    requires var credit := RefundTarget(db.passes, db.rows[row], user, eligible);
             db' == db.(rows := db.rows[row := MarkCancelled(db.rows[row], now, credit.Some?)],
                        passes := if credit.Some? then db.passes[credit.value := GiveBack(db.passes[credit.value])]
                                  else db.passes)
    ensures DataOk(db')
  {
    var r := db.rows[row];
    var credit := RefundTarget(db.passes, r, user, eligible);
    var r' := MarkCancelled(r, now, credit.Some?);
    assert RowOk(db, r);
    assert r.pass.Some? ==> Conserved(db, r.pass.value);
    assert credit.Some? ==> Conserved(db, credit.value);
    RowsStayOk(db, db');
    assert RowOk(db', r');
    forall i | 0 <= i < |db'.rows| ensures RowOk(db', db'.rows[i]) {
      assert i != row ==> db'.rows[i] == db.rows[i];
    }
    forall p | 0 <= p < |db'.passes| ensures Conserved(db', p) {
      assert Conserved(db, p);
      CountUpdate(db.rows, row, r', LiveOnPass(p));
      CountUpdate(db.rows, row, r', KeptOnPass(p));
    }
  }

  /** Rewriting rows without touching status, pass or refunds moves no credit. */
  lemma CountsUntouched(d: Db, e: Db)
    requires e.passes == d.passes && |e.rows| == |d.rows|
    requires forall i :: 0 <= i < |d.rows| ==>
               && SameBooking(d.rows[i], e.rows[i])
               && d.rows[i].status == e.rows[i].status && d.rows[i].refunds == e.rows[i].refunds
    requires forall p :: 0 <= p < |d.passes| ==> Conserved(d, p)
    ensures forall p :: 0 <= p < |e.passes| ==> Conserved(e, p)
  {
    forall p | 0 <= p < |e.passes| ensures Conserved(e, p) {
      assert Conserved(d, p);
      CountMonotone(d.rows, e.rows, LiveOnPass(p));
      CountMonotone(e.rows, d.rows, LiveOnPass(p));
      CountMonotone(d.rows, e.rows, KeptOnPass(p));
      CountMonotone(e.rows, d.rows, KeptOnPass(p));
    }
  }

  lemma CheckInCommitted(db: Db, row: nat, now: int, today: int, db': Db)
    requires DataOk(db) && row < |db.rows| && today <= now / DAY
    requires ScanOutcomeFor(db.rows[row], today) == ScanValid
    requires db' == db.(rows := db.rows[row := MarkCheckedIn(db.rows[row], now, today)])
    ensures DataOk(db')
    ensures db'.rows[row].checkedInAt == Some(now) && now / DAY >= db'.rows[row].slot.date
    ensures now / DAY == db'.rows[row].slot.date <==> now / DAY == today
  {
    assert RowOk(db, db.rows[row]);
    CountsUntouched(db, db');
  }

  lemma RemindCommitted(db: Db, claim: set<nat>, now: int, db': Db)
    requires DataOk(db)
    requires forall i :: i in claim ==> i < |db.rows| && ReminderDue(db.rows[i], now)
    requires db' == db.(rows := RemindAll(db.rows, claim, now))
    ensures DataOk(db')
  {
    CountsUntouched(db, db');
    forall i | 0 <= i < |db'.rows| ensures RowOk(db', db'.rows[i]) {
      assert RowOk(db, db.rows[i]);
    }
  }

  // ---------- One step of one transaction ----------

  /** A step of `t` that stays inside its locks, keeps its own promises and takes only free locks keeps `Inv`. */
  lemma StepKeeps(s: State, s': State, t: nat)
    requires Inv(s) && t in s.txs && t in s'.txs
    requires s'.txs == s.txs[t := s'.txs[t]]
    requires Framed(s, s', Locks(s, s.txs[t]))
    requires DataOk(s'.db) && TxOk(s', s'.txs[t])
    requires forall l :: l in Locks(s', s'.txs[t]) ==> l in Locks(s, s.txs[t]) || Free(s, t, l)
    ensures Inv(s')
  {
    forall u | u in s'.txs ensures TxOk(s', s'.txs[u]) {
      if u != t {
        OthersKept(s, s', Locks(s, s.txs[t]), s.txs[u]);
      }
    }
    forall u | u in s'.txs ensures Locks(s', s'.txs[u]) == Locks(s, s'.txs[u]) {
    }
    forall u, v | u in s'.txs && v in s'.txs && u != v ensures Locks(s', s'.txs[u]) !! Locks(s', s'.txs[v]) {
      assert u != t ==> s'.txs[u] == s.txs[u];
      assert v != t ==> s'.txs[v] == s.txs[v];
    }
  }

  lemma CreateStepKeeps(s: State, t: nat, newCode: string)
    requires Inv(s) && CanAdvance(s, t) && s.txs[t].Create?
    ensures Inv(AdvanceCreate(s, t, s.txs[t], newCode))
  {
    var s' := AdvanceCreate(s, t, s.txs[t], newCode);
    match s.txs[t].stage {
      case Picking(_, _, _, _) => PickingStepOk(s, t, newCode);
      case Holding(_, _, _, _, progress) =>
        if progress == RowInserted {
          InsertedStepOk(s, t, newCode);
          InsertedStepFramed(s, t, newCode);
        } else {
          HoldingStepOk(s, t, newCode);
        }
      case _ => EarlyStepOk(s, t, newCode);
    }
    StepKeeps(s, s', t);
  }

  /** What `StepKeeps` asks of a step that writes nothing. */
  ghost predicate ReadOnlyStepOk(s: State, s': State, t: nat)
    requires t in s.txs && t in s'.txs
  {
    && s' == Put(s, t, s'.txs[t])
    && TxOk(s', s'.txs[t])
    && forall l :: l in Locks(s', s'.txs[t]) ==> l in Locks(s, s.txs[t]) || Free(s, t, l)
  }

  lemma EarlyStepOk(s: State, t: nat, newCode: string)
    requires Inv(s) && CanAdvance(s, t) && s.txs[t].Create?
    requires !s.txs[t].stage.Picking? && !s.txs[t].stage.Holding?
    ensures ReadOnlyStepOk(s, AdvanceCreate(s, t, s.txs[t], newCode), t)
  {
    var tx := s.txs[t];
    assert TxOk(s, tx);
    if tx.stage.TemplateRead? {
      var cand := Candidates(s.db.passes, tx.user, tx.slot.program, tx.now, |s.db.passes|);
      assert forall k :: 0 <= k < |cand| ==> cand[k] in cand;
    }
  }

  lemma HoldingStepOk(s: State, t: nat, newCode: string)
    requires Inv(s) && CanAdvance(s, t) && s.txs[t].Create?
    requires s.txs[t].stage.Holding? && s.txs[t].stage.progress != RowInserted
    ensures ReadOnlyStepOk(s, AdvanceCreate(s, t, s.txs[t], newCode), t)
  {
    assert TxOk(s, s.txs[t]);
    if s.txs[t].stage.progress == RoomLeft {
      InsertingStepOk(s, t, newCode);
    }
  }

  lemma InsertingStepOk(s: State, t: nat, newCode: string)
    requires Inv(s) && CanAdvance(s, t) && s.txs[t].Create?
    requires s.txs[t].stage.Holding? && s.txs[t].stage.progress == RoomLeft
    ensures ReadOnlyStepOk(s, AdvanceCreate(s, t, s.txs[t], newCode), t)
  {
    assert TxOk(s, s.txs[t]);
  }

  lemma InsertedStepOk(s: State, t: nat, newCode: string)
    requires Inv(s) && CanAdvance(s, t) && s.txs[t].Create?
    requires s.txs[t].stage.Holding? && s.txs[t].stage.progress == RowInserted
    ensures var s' := AdvanceCreate(s, t, s.txs[t], newCode);
            s'.txs[t].Done? && DataOk(s'.db) && TxOk(s', s'.txs[t])
  {
    var tx := s.txs[t];
    var s' := AdvanceCreate(s, t, tx, newCode);
    assert TxOk(s, tx);
    BookingCommitted(s.db, tx.user, tx.stage.provider, tx.slot, tx.stage.pass, tx.code, s'.db);
  }

  lemma InsertedStepFramed(s: State, t: nat, newCode: string)
    requires Inv(s) && CanAdvance(s, t) && s.txs[t].Create?
    requires s.txs[t].stage.Holding? && s.txs[t].stage.progress == RowInserted
    ensures Framed(s, AdvanceCreate(s, t, s.txs[t], newCode), Locks(s, s.txs[t]))
  {
    assert TxOk(s, s.txs[t]);
  }

  lemma PickingStepOk(s: State, t: nat, newCode: string)
    requires Inv(s) && CanAdvance(s, t) && s.txs[t].Create?
    requires s.txs[t].stage.Picking?
    ensures ReadOnlyStepOk(s, AdvanceCreate(s, t, s.txs[t], newCode), t)
  {
    var tx := s.txs[t];
    assert TxOk(s, tx);
    var cand := tx.stage.cand;
    if cand != [] {
      assert Wants(s, tx) == Some(PassRow(cand[0]));
      assert forall k :: 0 <= k < |cand[1..]| ==> cand[1..][k] == cand[k + 1];
    }
  }

  lemma CancelStepKeeps(s: State, t: nat)
    requires Inv(s) && CanAdvance(s, t) && s.txs[t].Cancel?
    ensures Inv(AdvanceCancel(s, t, s.txs[t]))
  {
    var tx := s.txs[t];
    var s' := AdvanceCancel(s, t, tx);
    assert TxOk(s, tx);
    if tx.cancelStage.Credited? {
      CreditedStepOk(s, t);
      CreditedStepFramed(s, t);
    } else {
      EarlyCancelOk(s, t);
    }
    StepKeeps(s, s', t);
  }

  lemma EarlyCancelOk(s: State, t: nat)
    requires Inv(s) && CanAdvance(s, t) && s.txs[t].Cancel? && !s.txs[t].cancelStage.Credited?
    ensures ReadOnlyStepOk(s, AdvanceCancel(s, t, s.txs[t]), t)
  {
    assert TxOk(s, s.txs[t]);
  }

  lemma CreditedStepFramed(s: State, t: nat)
    requires Inv(s) && CanAdvance(s, t) && s.txs[t].Cancel? && s.txs[t].cancelStage.Credited?
    ensures Framed(s, AdvanceCancel(s, t, s.txs[t]), Locks(s, s.txs[t]))
  {
    assert TxOk(s, s.txs[t]);
  }

  lemma CreditedStepOk(s: State, t: nat)
    requires Inv(s) && CanAdvance(s, t) && s.txs[t].Cancel? && s.txs[t].cancelStage.Credited?
    ensures var s' := AdvanceCancel(s, t, s.txs[t]);
            DataOk(s'.db) && t in s'.txs && TxOk(s', s'.txs[t])
  {
    var tx := s.txs[t];
    var s' := AdvanceCancel(s, t, tx);
    assert TxOk(s, tx);
    var r := s.db.rows[tx.row];
    var eligible :| CancelVerdictFor(r, tx.user, tx.now) == Proceed(eligible)
                 && tx.cancelStage.credit == RefundTarget(s.db.passes, r, tx.user, eligible);
    assert RowOk(s.db, r);
    CancelCommitted(s.db, tx.row, tx.user, tx.now, eligible, s'.db);
  }

  lemma CheckInStepKeeps(s: State, t: nat)
    requires Inv(s) && CanAdvance(s, t) && s.txs[t].CheckIn?
    ensures Inv(AdvanceCheckIn(s, t, s.txs[t]))
  {
    var tx := s.txs[t];
    var s' := AdvanceCheckIn(s, t, tx);
    assert TxOk(s, tx);
    if tx.checkInStage.DayRead? {
      DayMonotone(tx.now, s.clock);
    } else if tx.checkInStage.RowHeld? && s'.txs[t].reply.outcome == ScanValid {
      CheckInCommitted(s.db, tx.checkInStage.row, tx.now, tx.today, s'.db);
    }
    StepKeeps(s, s', t);
  }

  lemma DayMonotone(a: int, b: int)
    requires a <= b
    ensures a / DAY <= b / DAY
  {
  }

  lemma RemindStepKeeps(s: State, t: nat, claim: set<nat>)
    requires Inv(s) && CanAdvance(s, t) && s.txs[t].Remind? && ClaimOk(s, t, claim)
    ensures Inv(AdvanceRemind(s, t, s.txs[t], claim))
  {
    var tx := s.txs[t];
    var s' := AdvanceRemind(s, t, tx, claim);
    assert TxOk(s, tx);
    if tx.claimed.Some? {
      RemindCommitted(s.db, tx.claimed.value, tx.now, s'.db);
    }
    StepKeeps(s, s', t);
  }

  lemma GrantKeeps(s: State, pass: Pass)
    requires Inv(s) && StepOk(s, Grant(pass))
    ensures Inv(Do(s, Grant(pass)))
  {
    var s' := Do(s, Grant(pass));
    var d, e := s.db, s'.db;
    RowsStayOk(d, e);
    forall p | 0 <= p < |e.passes| ensures Conserved(e, p) {
      if p < |d.passes| {
        assert Conserved(d, p);
      } else {
        assert forall i :: 0 <= i < |d.rows| ==> RowOk(d, d.rows[i]);
        CountZeroWhenNone(d.rows, LiveOnPass(p));
        CountZeroWhenNone(d.rows, KeptOnPass(p));
      }
    }
    forall t | t in s'.txs ensures TxOk(s', s'.txs[t]) {
      OthersKept(s, s', {}, s.txs[t]);
    }
    assert forall t :: t in s.txs ==> Locks(s', s.txs[t]) == Locks(s, s.txs[t]);
  }

  lemma SameTablesStayOk(d: Db, e: Db)
    requires DataOk(d) && e.passes == d.passes && e.rows == d.rows
    ensures DataOk(e)
  {
    RowsStayOk(d, e);
    assert forall p :: 0 <= p < |e.passes| ==> Conserved(d, p) ==> Conserved(e, p);
  }

  lemma WorldStepKeeps(s: State, step: Step)
    requires Inv(s) && StepOk(s, step) && (step.Tick? || step.SetCatalogue?)
    ensures Inv(Do(s, step))
  {
    var s' := Do(s, step);
    SameTablesStayOk(s.db, s'.db);
    forall t | t in s'.txs ensures TxOk(s', s'.txs[t]) && Locks(s', s.txs[t]) == Locks(s, s.txs[t]) {
      OthersKept(s, s', {}, s.txs[t]);
    }
  }

  lemma BeginKeeps(s: State, id: nat, tx: Tx)
    requires Inv(s) && StepOk(s, Begin(id, tx))
    ensures Inv(Do(s, Begin(id, tx)))
  {
    var s' := Do(s, Begin(id, tx));
    forall t | t in s.txs ensures TxOk(s', s'.txs[t]) && Locks(s', s'.txs[t]) == Locks(s, s.txs[t]) {
      OthersKept(s, s', {}, s.txs[t]);
    }
    assert Locks(s', tx) == {};
  }

  lemma DoKeeps(s: State, step: Step)
    requires Inv(s) && StepOk(s, step)
    ensures Inv(Do(s, step))
  {
    match step {
      case Grant(pass) => GrantKeeps(s, pass);
      case Advance(t, newCode, claim) =>
        match s.txs[t] {
          case Create(_, _, _, _, _, _) => CreateStepKeeps(s, t, newCode);
          case Cancel(_, _, _, _) => CancelStepKeeps(s, t);
          case CheckIn(_, _, _, _, _) => CheckInStepKeeps(s, t);
          case Remind(_, _) => RemindStepKeeps(s, t, claim);
        }
      case Begin(id, tx) => BeginKeeps(s, id, tx);
      case _ => WorldStepKeeps(s, step);
    }
  }

  /** Every state of every interleaving satisfies the invariant. */
  lemma {:induction false} EveryRunKeeps(s: State, steps: seq<Step>)
    requires Inv(s) && RunOk(s, steps)
    ensures Inv(Run(s, steps))
    decreases |steps|
  {
    if steps != [] {
      DoKeeps(s, steps[0]);
      EveryRunKeeps(Do(s, steps[0]), steps[1..]);
    }
  }
}
