/**
 What the clocks of concurrent transactions do to two promises: that a check-in is stamped on the session's own date,
 and that a reminded reservation gives no credit back.
 */
module BookingClocks {
  import opened Wrappers
  import opened ClassData
  import opened BookingSteps
  import opened BookingInvariants

  // ---------- What one step does to the time stamps ----------

  /** A stamp appears only in its own kind of transaction, and is that transaction's time. */
  predicate Restamped(a: Reservation, b: Reservation, tx: Tx) {
    && b.slot == a.slot && b.pass == a.pass
    && (b.remindedAt == a.remindedAt || (tx.Remind? && a.status == Reserved && a.remindedAt.None? && b.remindedAt == Some(tx.now)))
    && (b.cancelledAt == a.cancelledAt || (tx.Cancel? && a.cancelledAt.None? && b.cancelledAt == Some(tx.now)))
    && (b.checkedInAt == a.checkedInAt
        || (tx.CheckIn? && tx.checkInStage.RowHeld? && a.slot.date == tx.today && b.checkedInAt == Some(tx.now)))
  }

  predicate SameTerms(before: seq<Pass>, after: seq<Pass>) {
    |before| <= |after| && forall p :: 0 <= p < |before| ==> SamePassTerms(before[p], after[p])
  }

  predicate Unstamped(r: Reservation) {
    r.remindedAt.None? && r.cancelledAt.None? && r.checkedInAt.None? && r.refunds == 0
  }

  ghost predicate Progressed(s: State, s': State, tx: Tx, tx': Tx) {
    && (tx'.CheckIn? && !tx'.checkInStage.DayRead? ==>
          && tx.CheckIn? && tx'.today == tx.today
          && tx'.now == if tx.checkInStage.DayRead? then s.clock else tx.now)
    && (tx'.Cancel? ==> tx.Cancel? && tx'.row == tx.row && tx'.now == tx.now)
    && (tx'.Done? && tx'.reply.CancelDone? ==>
          && tx.Cancel? && tx'.reply.row == tx.row && tx.row < |s'.db.rows|
          && s'.db.rows[tx.row].cancelledAt == Some(tx.now))
  }

  ghost predicate Stamps(s: State, s': State, u: nat)
    requires u in s.txs
  {
    var d, e := s.db.rows, s'.db.rows;
    && s'.clock == s.clock && |d| <= |e| && s'.txs.Keys == s.txs.Keys
    && (forall t :: t in s.txs && t != u ==> s'.txs[t] == s.txs[t])
    && SameTerms(s.db.passes, s'.db.passes)
    && (forall i :: 0 <= i < |d| ==> Restamped(d[i], e[i], s.txs[u]))
    && (forall i :: |d| <= i < |e| ==> Unstamped(e[i]))
    && Progressed(s, s', s.txs[u], s'.txs[u])
  }

  lemma CreateStamps(s: State, u: nat, newCode: string)
    requires u in s.txs && s.txs[u].Create?
    ensures Stamps(s, AdvanceCreate(s, u, s.txs[u], newCode), u)
  {
  }

  lemma CancelStamps(s: State, u: nat)
    requires u in s.txs && s.txs[u].Cancel? && TxOk(s, s.txs[u])
    requires s.txs[u].row < |s.db.rows| ==> RowOk(s.db, s.db.rows[s.txs[u].row])
    ensures Stamps(s, AdvanceCancel(s, u, s.txs[u]), u)
  {
    if s.txs[u].cancelStage.Credited? {
      CancelCommitStamps(s, u);
    }
  }

  lemma CancelCommitStamps(s: State, u: nat)
    requires u in s.txs && s.txs[u].Cancel? && s.txs[u].cancelStage.Credited? && TxOk(s, s.txs[u])
    requires s.txs[u].row < |s.db.rows| ==> RowOk(s.db, s.db.rows[s.txs[u].row])
    ensures Stamps(s, AdvanceCancel(s, u, s.txs[u]), u)
  {
    var tx := s.txs[u];
    var rows, rows' := s.db.rows, AdvanceCancel(s, u, tx).db.rows;
    assert rows[tx.row].cancelledAt.None?;
    assert rows' == rows[tx.row := MarkCancelled(rows[tx.row], tx.now, tx.cancelStage.credit.Some?)];
    forall i | 0 <= i < |rows| ensures Restamped(rows[i], rows'[i], tx) {
      assert i != tx.row ==> rows'[i] == rows[i];
    }
  }

  lemma CheckInStamps(s: State, u: nat)
    requires u in s.txs && s.txs[u].CheckIn?
    ensures Stamps(s, AdvanceCheckIn(s, u, s.txs[u]), u)
  {
    var tx := s.txs[u];
    var rows, rows' := s.db.rows, AdvanceCheckIn(s, u, tx).db.rows;
    forall i | 0 <= i < |rows| ensures Restamped(rows[i], rows'[i], tx) {
      assert !(tx.checkInStage.RowHeld? && i == tx.checkInStage.row) ==> rows'[i] == rows[i];
    }
  }

  lemma RemindStamps(s: State, u: nat, claim: set<nat>)
    requires u in s.txs && s.txs[u].Remind? && TxOk(s, s.txs[u])
    ensures Stamps(s, AdvanceRemind(s, u, s.txs[u], claim), u)
  {
  }

  lemma AdvanceStamps(s: State, u: nat, newCode: string, claim: set<nat>)
    requires Inv(s) && CanAdvance(s, u)
    ensures Stamps(s, AdvanceTx(s, u, newCode, claim), u)
  {
    assert TxOk(s, s.txs[u]);
    match s.txs[u] {
      case Create(_, _, _, _, _, _) => CreateStamps(s, u, newCode);
      case Cancel(_, _, _, _) => CancelStamps(s, u);
      case CheckIn(_, _, _, _, _) => CheckInStamps(s, u);
      case Remind(_, _) => RemindStamps(s, u, claim);
    }
  }

  // ---------- The date of a check-in ----------

  /**
   The scanner's date is read before the check-in transaction begins. A valid check-in is stamped on the session's date
   exactly when the transaction began on the date read; otherwise it is stamped after it.
   */
  lemma StampedOnTheDateIff(start: State, steps: seq<Step>, t: nat)
    requires Init(start) && RunOk(start, steps) && CanAdvance(Run(start, steps), t)
    requires var tx := Run(start, steps).txs[t]; tx.CheckIn? && tx.checkInStage.RowHeld?
    ensures var s := Run(start, steps); var tx, s' := s.txs[t], AdvanceCheckIn(s, t, s.txs[t]);
            var i := tx.checkInStage.row;
            s'.txs[t] == Done(Scanned(ScanValid)) ==>
              && i < |s'.db.rows| && s'.db.rows[i].checkedInAt == Some(tx.now)
              && (tx.now / DAY == s'.db.rows[i].slot.date <==> tx.now / DAY == tx.today)
              && tx.now / DAY >= s'.db.rows[i].slot.date
  {
    EveryRunKeeps(start, steps);
    var s := Run(start, steps);
    assert TxOk(s, s.txs[t]);
  }

  /** Every check-in of the run begins its transaction on the date it read. */
  predicate NoMidnightBetween(s: State, steps: seq<Step>)
    requires RunOk(s, steps)
    decreases |steps|
  {
    steps == [] ||
    (&& (steps[0].Advance? && s.txs[steps[0].id].CheckIn? && s.txs[steps[0].id].checkInStage.DayRead?
         ==> s.clock / DAY == s.txs[steps[0].id].today)
     && NoMidnightBetween(Do(s, steps[0]), steps[1..]))
  }

  predicate StampedOnDate(r: Reservation) {
    r.checkedInAt.Some? ==> r.checkedInAt.value / DAY == r.slot.date
  }

  predicate OnTheDay(tx: Tx) {
    tx.CheckIn? && !tx.checkInStage.DayRead? ==> tx.now / DAY == tx.today
  }

  ghost predicate OnDates(s: State) {
    && (forall i :: 0 <= i < |s.db.rows| ==> StampedOnDate(s.db.rows[i]))
    && (forall t :: t in s.txs ==> OnTheDay(s.txs[t]))
  }

  lemma OnDatesKept(s: State, step: Step)
    requires Inv(s) && StepOk(s, step) && OnDates(s) && NoMidnightBetween(s, [step])
    ensures OnDates(Do(s, step))
  {
    if step.Advance? {
      AdvanceStamps(s, step.id, step.newCode, step.claim);
      assert OnTheDay(s.txs[step.id]);
    }
  }

  /** While no midnight falls between reading the date and beginning the transaction, every check-in is on its date. */
  lemma {:induction false} CheckedInOnItsDate(s: State, steps: seq<Step>)
    requires Inv(s) && OnDates(s) && RunOk(s, steps) && NoMidnightBetween(s, steps)
    ensures OnDates(Run(s, steps))
    decreases |steps|
  {
    if steps != [] {
      assert [steps[0]][1..] == [] && RunOk(s, [steps[0]]);
      OnDatesKept(s, steps[0]);
      DoKeeps(s, steps[0]);
      CheckedInOnItsDate(Do(s, steps[0]), steps[1..]);
    }
  }

  // ---------- A run across midnight ----------

  /** One reserved seat on day 1, and a clock one second before day 2. */
  function LateEvening(): State {
    var r := NewReservation(0, 0, Slot(0, 1, 0), 0, "CLS-222222");
    var pass := Pass(0, 0, None, None, 0, None, 0, true);
    State((_) => 0, 2 * DAY - 1, Db(Catalogue(map[], []), [pass], [r]), map[])
  }

  function AcrossMidnight(): seq<Step> {
    [Begin(0, CheckIn(0, ById(0), 1, 2 * DAY - 1, DayRead)), Tick(1),
     Advance(0, "", {}), Advance(0, "", {}), Advance(0, "", {})]
  }

  lemma LateEveningIsConsistent()
    ensures Init(LateEvening())
  {
    var db := LateEvening().db;
    assert Conserved(db, 0) && RowOk(db, db.rows[0]);
  }

  /** A client is admitted the day after the session: the promise is not kept at this run. */
  lemma AdmittedTheDayAfter()
    ensures Init(LateEvening()) && RunOk(LateEvening(), AcrossMidnight())
    ensures var s := Run(LateEvening(), AcrossMidnight());
            && s.txs[0] == Done(Scanned(ScanValid)) && |s.db.rows| == 1
            && s.db.rows[0].checkedInAt.Some? && s.db.rows[0].checkedInAt.value / DAY == s.db.rows[0].slot.date + 1
  {
    LateEveningIsConsistent();
    var s0, steps := LateEvening(), AcrossMidnight();
    var s1 := Do(s0, steps[0]);
    var s2 := Do(s1, steps[1]);
    var s3 := Do(s2, steps[2]);
    var s4 := Do(s3, steps[3]);
    var s5 := Do(s4, steps[4]);
    assert s4.txs[0].checkInStage == RowHeld(0);
    RunOfFive(s0, steps, s1, s2, s3, s4, s5);
  }

  lemma RunOfFive(s0: State, steps: seq<Step>, s1: State, s2: State, s3: State, s4: State, s5: State)
    requires |steps| == 5
    requires StepOk(s0, steps[0]) && s1 == Do(s0, steps[0]) && StepOk(s1, steps[1]) && s2 == Do(s1, steps[1])
    requires StepOk(s2, steps[2]) && s3 == Do(s2, steps[2]) && StepOk(s3, steps[3]) && s4 == Do(s3, steps[3])
    requires StepOk(s4, steps[4]) && s5 == Do(s4, steps[4])
    ensures RunOk(s0, steps) && Run(s0, steps) == s5
  {
    var a, b, c, d := steps[1..], steps[2..], steps[3..], steps[4..];
    assert a[1..] == b && b[1..] == c && c[1..] == d && d[1..] == [];
    assert RunOk(s5, []) && Run(s5, []) == s5;
    assert RunOk(s4, d) && Run(s4, d) == s5;
    assert RunOk(s3, c) && Run(s3, c) == s5;
    assert RunOk(s2, b) && Run(s2, b) == s5;
    assert RunOk(s1, a) && Run(s1, a) == s5;
  }

  // ---------- No credit once reminded ----------

  /** Reminders are stamped with a time that has passed. */
  ghost predicate PastReminders(s: State) {
    forall i :: 0 <= i < |s.db.rows| && s.db.rows[i].remindedAt.Some? ==> s.db.rows[i].remindedAt.value <= s.clock
  }

  lemma PastRemindersKept(s: State, step: Step)
    requires Inv(s) && PastReminders(s) && StepOk(s, step)
    ensures PastReminders(Do(s, step))
  {
    if step.Advance? {
      AdvanceStamps(s, step.id, step.newCode, step.claim);
      assert TxOk(s, s.txs[step.id]);
    }
  }

  lemma {:induction false} PastRemindersInRuns(s: State, steps: seq<Step>)
    requires Inv(s) && PastReminders(s) && RunOk(s, steps)
    ensures PastReminders(Run(s, steps))
    decreases |steps|
  {
    if steps != [] {
      PastRemindersKept(s, steps[0]);
      DoKeeps(s, steps[0]);
      PastRemindersInRuns(Do(s, steps[0]), steps[1..]);
    }
  }

  /** Row `i` keeps its reminder, and transaction `t` cancels it, if ever, at `since` or later. */
  ghost predicate CancelsLate(s: State, i: nat, mark: Option<int>, t: nat, since: int) {
    && i < |s.db.rows| && s.db.rows[i].remindedAt == mark && since <= s.clock
    && (t in s.txs ==>
          && (s.txs[t].Cancel? && s.txs[t].row == i ==> s.txs[t].now >= since)
          && (s.txs[t].Done? && s.txs[t].reply.CancelDone? && s.txs[t].reply.row == i ==>
                s.db.rows[i].cancelledAt.Some? && s.db.rows[i].cancelledAt.value >= since))
  }

  lemma CancelsLateKept(s: State, step: Step, i: nat, mark: Option<int>, t: nat, since: int)
    requires Inv(s) && StepOk(s, step) && CancelsLate(s, i, mark, t, since) && mark.Some?
    ensures CancelsLate(Do(s, step), i, mark, t, since)
  {
    if step.Advance? {
      AdvanceStamps(s, step.id, step.newCode, step.claim);
    }
  }

  lemma {:induction false} CancelsLateInRuns(s: State, steps: seq<Step>, i: nat, mark: Option<int>, t: nat, since: int)
    requires Inv(s) && RunOk(s, steps) && CancelsLate(s, i, mark, t, since) && mark.Some?
    ensures CancelsLate(Run(s, steps), i, mark, t, since)
    decreases |steps|
  {
    if steps != [] {
      CancelsLateKept(s, steps[0], i, mark, t, since);
      DoKeeps(s, steps[0]);
      CancelsLateInRuns(Do(s, steps[0]), steps[1..], i, mark, t, since);
    }
  }

  /** Once a run has reminded row `i`, a cancellation of it that begins later never answers `refunded`. */
  lemma NoRefundAfterReminder(start: State, before: seq<Step>, after: seq<Step>, i: nat, t: nat, refunded: bool)
    requires Init(start) && PastReminders(start) && RunOk(start, before) && RunOk(Run(start, before), after)
    requires var s := Run(start, before); i < |s.db.rows| && s.db.rows[i].remindedAt.Some? && t !in s.txs
    requires var s' := Run(Run(start, before), after); t in s'.txs && s'.txs[t] == Done(CancelDone(i, refunded))
    ensures !refunded
  {
    EveryRunKeeps(start, before);
    PastRemindersInRuns(start, before);
    var s := Run(start, before);
    EveryRunKeeps(s, after);
    CancelsLateInRuns(s, after, i, s.db.rows[i].remindedAt, t, s.clock);
    var s' := Run(s, after);
    assert TxOk(s', s'.txs[t]) && RowOk(s'.db, s'.db.rows[i]);
  }

  /** Interactive transactions run with the client's default timeout. */
  const TX_TIMEOUT := 5

  /** No cancellation takes a step after its timeout. */
  predicate Timely(s: State, steps: seq<Step>)
    requires RunOk(s, steps)
    decreases |steps|
  {
    steps == [] ||
    (&& (steps[0].Advance? && s.txs[steps[0].id].Cancel? ==> s.clock <= s.txs[steps[0].id].now + TX_TIMEOUT)
     && Timely(Do(s, steps[0]), steps[1..]))
  }

  ghost predicate NeverBoth(s: State) {
    forall i :: 0 <= i < |s.db.rows| ==> !(s.db.rows[i].remindedAt.Some? && s.db.rows[i].refunds == 1)
  }

  lemma NeverBothKept(s: State, step: Step)
    requires Inv(s) && PastReminders(s) && NeverBoth(s) && StepOk(s, step)
    requires step.Advance? && s.txs[step.id].Cancel? ==> s.clock <= s.txs[step.id].now + TX_TIMEOUT
    ensures NeverBoth(Do(s, step))
  {
    var s' := Do(s, step);
    DoKeeps(s, step);
    PastRemindersKept(s, step);
    if step.Advance? {
      AdvanceStamps(s, step.id, step.newCode, step.claim);
      forall i | 0 <= i < |s'.db.rows| ensures !(s'.db.rows[i].remindedAt.Some? && s'.db.rows[i].refunds == 1) {
        assert RowOk(s'.db, s'.db.rows[i]);
        if i < |s.db.rows| {
          TooLateForBoth(s.db, s.db.rows[i], s'.db, s'.db.rows[i], s.txs[step.id], s.clock);
        }
      }
    }
  }

  lemma TooLateForBoth(db: Db, a: Reservation, db': Db, b: Reservation, tx: Tx, clock: int)
    requires RowOk(db, a) && RowOk(db', b) && Restamped(a, b, tx) && !(a.remindedAt.Some? && a.refunds == 1)
    requires SameTerms(db.passes, db'.passes)
    requires tx.Cancel? ==> clock <= tx.now + TX_TIMEOUT
    requires b.remindedAt.Some? ==> b.remindedAt.value <= clock
    ensures !(b.remindedAt.Some? && b.refunds == 1)
  {
  }

  /** With transactions that time out, a reminded reservation is never refunded, in any reachable state. */
  lemma {:induction false} RemindedNeverRefunded(s: State, steps: seq<Step>)
    requires Inv(s) && PastReminders(s) && NeverBoth(s) && RunOk(s, steps) && Timely(s, steps)
    ensures NeverBoth(Run(s, steps))
    decreases |steps|
  {
    if steps != [] {
      NeverBothKept(s, steps[0]);
      PastRemindersKept(s, steps[0]);
      DoKeeps(s, steps[0]);
      RemindedNeverRefunded(Do(s, steps[0]), steps[1..]);
    }
  }
}
