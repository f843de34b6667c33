/**
 Concurrent bookings, cancellations, check-ins and reminder sweeps, one database step at a time.

 Each transaction is a program counter plus what it has read so far. Its writes stay invisible until
 it commits (READ COMMITTED); the locks it holds follow from its program counter. `now()` is fixed when
 the transaction begins, the clock never goes back, and any transaction that is not waiting may step.
 */
module BookingSteps {
  import opened Wrappers
  import opened ClassData

  const REMINDER_BATCH := 200

  datatype Lock = Advisory(key: int) | ReservationRow(row: nat) | PassRow(pass: nat) | CodeKey(code: string)

  datatype Progress = PassLocked | NoDuplicate | RoomLeft | RowInserted

  datatype CreateStage =
    | AtSlot
    | HasSlot
    | TemplateRead(provider: nat, capacity: int)
    | Picking(provider: nat, capacity: int, cand: seq<nat>, skipped: set<nat>)
    | Holding(provider: nat, capacity: int, pass: nat, skipped: set<nat>, progress: Progress)

  datatype CancelStage = AtRow | RowLocked | Marked(eligible: bool) | Credited(credit: Option<nat>)

  datatype CheckInStage = DayRead | Locating | RowHeld(row: nat)

  datatype Refusal = TemplateNotFound | TemplateAmbiguous | OccurrenceElapsed | PassNotFound | CapacityFull
                   | DuplicateReservation

  datatype Reply =
    | Booked(row: nat)
    | BookingRefused(reason: Refusal)
    | CodesExhausted
    | CancelDone(row: nat, refunded: bool)
    | CancelRefused(why: CancelRefusal)
    | Scanned(outcome: ScanOutcome)
    | RemindersSent(rows: set<nat>)

  datatype Tx =
    | Create(user: nat, slot: Slot, code: string, attempt: nat, now: int, stage: CreateStage)
    | Cancel(user: nat, row: nat, now: int, cancelStage: CancelStage)
    | CheckIn(provider: nat, locator: Locator, today: int, now: int, checkInStage: CheckInStage)
    | Remind(now: int, claimed: Option<set<nat>>)
    | Done(reply: Reply)

  /** `hash` is whatever `hashtext` computes: different slots may share an advisory lock. */
  datatype State = State(hash: Slot -> int, clock: int, db: Db, txs: map<nat, Tx>)

  // ---------- Locks ----------

  function PassRows(ids: set<nat>): set<Lock> {
    set i | i in ids :: PassRow(i)
  }

  function ReservationRows(ids: set<nat>): set<Lock> {
    set i | i in ids :: ReservationRow(i)
  }

  /** What a transaction holds until it ends. A candidate that failed its recheck stays locked. */
  function Locks(s: State, tx: Tx): set<Lock> {
    match tx
    case Create(_, slot, code, _, _, stage) =>
      (match stage
       case AtSlot => {}
       case HasSlot => {Advisory(s.hash(slot))}
       case TemplateRead(_, _) => {Advisory(s.hash(slot))}
       case Picking(_, _, _, skipped) => {Advisory(s.hash(slot))} + PassRows(skipped)
       case Holding(_, _, pass, skipped, progress) =>
         {Advisory(s.hash(slot))} + PassRows(skipped) + {PassRow(pass)}
         + if progress == RowInserted then {CodeKey(code)} else {})
    case Cancel(_, row, _, stage) =>
      (match stage
       case AtRow => {}
       case RowLocked => {ReservationRow(row)}
       case Marked(_) => {ReservationRow(row)}
       case Credited(credit) =>
         {ReservationRow(row)} + if credit.Some? then {PassRow(credit.value)} else {})
    case CheckIn(_, _, _, _, stage) => if stage.RowHeld? then {ReservationRow(stage.row)} else {}
    case Remind(_, claimed) => if claimed.Some? then ReservationRows(claimed.value) else {}
    case Done(_) => {}
  }

  /** The lock the next statement has to wait for, if any. */
  function Wants(s: State, tx: Tx): Option<Lock> {
    match tx
    case Create(_, slot, code, _, _, stage) =>
      (match stage
       case AtSlot => Some(Advisory(s.hash(slot)))
       case HasSlot => None
       case TemplateRead(_, _) => None
       case Picking(_, _, cand, _) => if cand == [] then None else Some(PassRow(cand[0]))
       case Holding(_, _, _, _, progress) =>
         if progress == RoomLeft && !CodeTaken(s.db.rows, code) then Some(CodeKey(code)) else None)
    case Cancel(user, row, _, stage) =>
      (match stage
       case AtRow => if row < |s.db.rows| then Some(ReservationRow(row)) else None
       case RowLocked => None
       case Marked(eligible) =>
         if row < |s.db.rows| && RefundTarget(s.db.passes, s.db.rows[row], user, eligible).Some?
         then Some(PassRow(RefundTarget(s.db.passes, s.db.rows[row], user, eligible).value)) else None
       case Credited(_) => None)
    case CheckIn(provider, locator, _, _, stage) =>
      var target := FindRow(s.db.rows, locator, provider);
      if stage.Locating? && target.Some? then Some(ReservationRow(target.value)) else None
    case Remind(_, _) => None
    case Done(_) => None
  }

  predicate Free(s: State, t: nat, l: Lock) {
    forall u :: u in s.txs && u != t ==> l !in Locks(s, s.txs[u])
  }

  predicate CanAdvance(s: State, t: nat) {
    && t in s.txs && !s.txs[t].Done?
    && (Wants(s, s.txs[t]).Some? ==> Free(s, t, Wants(s, s.txs[t]).value))
  }

  /** `FOR UPDATE SKIP LOCKED`: due rows nobody else has locked. */
  predicate ClaimOk(s: State, t: nat, claim: set<nat>) {
    t in s.txs && s.txs[t].Remind? ==>
      && |claim| <= REMINDER_BATCH
      && forall i :: i in claim ==>
           i < |s.db.rows| && ReminderDue(s.db.rows[i], s.txs[t].now) && Free(s, t, ReservationRow(i))
  }

  // ---------- Steps ----------

  function Put(s: State, t: nat, tx: Tx): State {
    s.(txs := s.txs[t := tx])
  }

  function AdvanceCreate(s: State, t: nat, tx: Tx, newCode: string): State
    requires tx.Create?
  {
    var db := s.db;
    match tx.stage
    case AtSlot => Put(s, t, tx.(stage := HasSlot))
    case HasSlot =>
      (match FindTemplate(db.cat, tx.slot)
       case NotFound => Put(s, t, Done(BookingRefused(TemplateNotFound)))
       case Ambiguous => Put(s, t, Done(BookingRefused(TemplateAmbiguous)))
       case Found(provider, capacity) =>
         if StartOf(tx.slot) <= tx.now then Put(s, t, Done(BookingRefused(OccurrenceElapsed)))
         else Put(s, t, tx.(stage := TemplateRead(provider, capacity))))
    case TemplateRead(provider, capacity) =>
      var cand := Candidates(db.passes, tx.user, tx.slot.program, tx.now, |db.passes|);
      Put(s, t, tx.(stage := Picking(provider, capacity, cand, {})))
    case Picking(provider, capacity, cand, skipped) =>
      if cand == [] then Put(s, t, Done(BookingRefused(PassNotFound)))
      else if cand[0] < |db.passes| && Usable(db.passes[cand[0]], tx.user, tx.slot.program, tx.now)
      then Put(s, t, tx.(stage := Holding(provider, capacity, cand[0], skipped, PassLocked)))
      else Put(s, t, tx.(stage := Picking(provider, capacity, cand[1..], skipped + {cand[0]})))
    case Holding(provider, capacity, pass, skipped, progress) =>
      (match progress
       case PassLocked =>
         if Holds(db.rows, tx.user, tx.slot) then Put(s, t, Done(BookingRefused(DuplicateReservation)))
         else Put(s, t, tx.(stage := Holding(provider, capacity, pass, skipped, NoDuplicate)))
       case NoDuplicate =>
         if Count(db.rows, LiveInSlot(tx.slot)) >= capacity then Put(s, t, Done(BookingRefused(CapacityFull)))
         else Put(s, t, tx.(stage := Holding(provider, capacity, pass, skipped, RoomLeft)))
       case RoomLeft =>
         // The insert: the occurrence index, then the code index.
         if Holds(db.rows, tx.user, tx.slot) then Put(s, t, Done(BookingRefused(DuplicateReservation)))
         else if CodeTaken(db.rows, tx.code) then
           if tx.attempt + 1 < RESERVATION_CODE_ATTEMPTS
           then Put(s, t, Create(tx.user, tx.slot, newCode, tx.attempt + 1, s.clock, AtSlot))
           else Put(s, t, Done(CodesExhausted))
         else Put(s, t, tx.(stage := Holding(provider, capacity, pass, skipped, RowInserted)))
       case RowInserted =>
         var row := NewReservation(tx.user, provider, tx.slot, pass, tx.code);
         var passes := if pass < |db.passes| then db.passes[pass := Spend(db.passes[pass])] else db.passes;
         Put(s.(db := db.(rows := db.rows + [row], passes := passes)), t, Done(Booked(|db.rows|))))
  }

  function AdvanceCancel(s: State, t: nat, tx: Tx): State
    requires tx.Cancel?
  {
    var db := s.db;
    match tx.cancelStage
    case AtRow =>
      if tx.row >= |db.rows| then Put(s, t, Done(CancelRefused(UnknownReservation)))
      else Put(s, t, tx.(cancelStage := RowLocked))
    case RowLocked =>
      if tx.row >= |db.rows| then Put(s, t, Done(CancelRefused(UnknownReservation)))
      else
        (match CancelVerdictFor(db.rows[tx.row], tx.user, tx.now)
         case Refuse(why) => Put(s, t, Done(CancelRefused(why)))
         case Proceed(eligible) => Put(s, t, tx.(cancelStage := Marked(eligible))))
    case Marked(eligible) =>
      var target := if tx.row < |db.rows| then RefundTarget(db.passes, db.rows[tx.row], tx.user, eligible) else None;
      Put(s, t, tx.(cancelStage := Credited(target)))
    case Credited(credit) =>
      if tx.row >= |db.rows| then Put(s, t, Done(CancelRefused(UnknownReservation)))
      else
        var rows := db.rows[tx.row := MarkCancelled(db.rows[tx.row], tx.now, credit.Some?)];
        var passes := if credit.Some? && credit.value < |db.passes|
                      then db.passes[credit.value := GiveBack(db.passes[credit.value])] else db.passes;
        Put(s.(db := db.(rows := rows, passes := passes)), t, Done(CancelDone(tx.row, credit.Some?)))
  }

  function AdvanceCheckIn(s: State, t: nat, tx: Tx): State
    requires tx.CheckIn?
  {
    var db := s.db;
    match tx.checkInStage
    case DayRead => Put(s, t, tx.(now := s.clock, checkInStage := Locating))
    case Locating =>
      (match FindRow(db.rows, tx.locator, tx.provider)
       case None => Put(s, t, Done(Scanned(ScanInvalid)))
       case Some(row) => Put(s, t, tx.(checkInStage := RowHeld(row))))
    case RowHeld(row) =>
      if row >= |db.rows| then Put(s, t, Done(Scanned(ScanInvalid)))
      else
        var outcome := ScanOutcomeFor(db.rows[row], tx.today);
        var rows := if outcome == ScanValid then db.rows[row := MarkCheckedIn(db.rows[row], tx.now, tx.today)]
                    else db.rows;
        Put(s.(db := db.(rows := rows)), t, Done(Scanned(outcome)))
  }

  function RemindAll(rows: seq<Reservation>, claim: set<nat>, now: int): seq<Reservation> {
    seq(|rows|, i requires 0 <= i < |rows| => if i in claim then MarkReminded(rows[i], now) else rows[i])
  }

  function AdvanceRemind(s: State, t: nat, tx: Tx, claim: set<nat>): State
    requires tx.Remind?
  {
    if tx.claimed.None? then Put(s, t, tx.(claimed := Some(claim)))
    else Put(s.(db := s.db.(rows := RemindAll(s.db.rows, tx.claimed.value, tx.now))), t,
             Done(RemindersSent(tx.claimed.value)))
  }

  function AdvanceTx(s: State, t: nat, newCode: string, claim: set<nat>): State
    requires CanAdvance(s, t)
  {
    var tx := s.txs[t];
    match tx
    case Create(_, _, _, _, _, _) => AdvanceCreate(s, t, tx, newCode)
    case Cancel(_, _, _, _) => AdvanceCancel(s, t, tx)
    case CheckIn(_, _, _, _, _) => AdvanceCheckIn(s, t, tx)
    case Remind(_, _) => AdvanceRemind(s, t, tx, claim)
    case Done(_) => s
  }

  datatype Step =
    | Tick(dt: nat)
    | SetCatalogue(cat: Catalogue)
    | Grant(pass: Pass)
    | Begin(id: nat, tx: Tx)
    | Advance(id: nat, newCode: string, claim: set<nat>)

  predicate FreshTx(tx: Tx, clock: int) {
    match tx
    case Create(_, _, _, attempt, now, stage) => attempt == 0 && now == clock && stage == AtSlot
    case Cancel(_, _, now, stage) => now == clock && stage == AtRow
    case CheckIn(_, _, today, now, stage) => today == clock / DAY && now == clock && stage == DayRead
    case Remind(now, claimed) => now == clock && claimed == None
    case Done(_) => false
  }

  predicate StepOk(s: State, step: Step) {
    match step
    case Tick(_) => true
    case SetCatalogue(_) => true
    case Grant(pass) => pass.remaining == pass.total && (pass.total.Some? ==> pass.total.value > 0)
    case Begin(id, tx) => id !in s.txs && FreshTx(tx, s.clock)
    case Advance(id, _, claim) => CanAdvance(s, id) && ClaimOk(s, id, claim)
  }

  function Do(s: State, step: Step): State
    requires StepOk(s, step)
  {
    match step
    case Tick(dt) => s.(clock := s.clock + dt)
    case SetCatalogue(cat) => s.(db := s.db.(cat := cat))
    case Grant(pass) => s.(db := s.db.(passes := s.db.passes + [pass]))
    case Begin(id, tx) => Put(s, id, tx)
    case Advance(id, newCode, claim) => AdvanceTx(s, id, newCode, claim)
  }

  predicate RunOk(s: State, steps: seq<Step>)
    decreases |steps|
  {
    steps == [] || (StepOk(s, steps[0]) && RunOk(Do(s, steps[0]), steps[1..]))
  }

  /** The state after a run: every interleaving of every transaction is such a list of steps. */
  function Run(s: State, steps: seq<Step>): State
    requires RunOk(s, steps)
    decreases |steps|
  {
    if steps == [] then s else Run(Do(s, steps[0]), steps[1..])
  }
}
