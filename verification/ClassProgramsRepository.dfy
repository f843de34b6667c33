/**
 The repository's operations run one at a time, and how the interleaved transactions relate to them:
 a booking left alone computes `Book`, and every cancellation or check-in, however interleaved, takes
 effect at one instant as `CancelNow` or `CheckInNow`.
 */
module ClassProgramsRepository {
  import opened Wrappers
  import opened ClassData
  import opened BookingSteps
  import opened BookingInvariants
  import BookingLiveness

  /** The clock and the generated access code of one try at a booking. */
  datatype Attempt = Attempt(now: int, code: string)
  datatype Result = Result(db: Db, reply: Reply)

  function Book(db: Db, user: nat, slot: Slot, attempts: seq<Attempt>, k: nat): Result
    requires |attempts| == RESERVATION_CODE_ATTEMPTS && k < |attempts|
    decreases |attempts| - k, 1
  {
    match FindTemplate(db.cat, slot)
    case NotFound => Result(db, BookingRefused(TemplateNotFound))
    case Ambiguous => Result(db, BookingRefused(TemplateAmbiguous))
    case Found(provider, capacity) =>
      if StartOf(slot) <= attempts[k].now then Result(db, BookingRefused(OccurrenceElapsed))
      else match PickPass(db.passes, user, slot.program, attempts[k].now)
        case None => Result(db, BookingRefused(PassNotFound))
        case Some(pass) => BookWith(db, user, slot, attempts, k, provider, capacity, pass)
  }

  function BookWith(db: Db, user: nat, slot: Slot, attempts: seq<Attempt>, k: nat,
                    provider: nat, capacity: int, pass: nat): Result
    requires |attempts| == RESERVATION_CODE_ATTEMPTS && k < |attempts| && pass < |db.passes|
    decreases |attempts| - k, 0
  {
    if Holds(db.rows, user, slot) then Result(db, BookingRefused(DuplicateReservation))
    else if Count(db.rows, LiveInSlot(slot)) >= capacity then Result(db, BookingRefused(CapacityFull))
    else if CodeTaken(db.rows, attempts[k].code) then
      if k + 1 < |attempts| then Book(db, user, slot, attempts, k + 1) else Result(db, CodesExhausted)
    else Result(Insertion(db, user, provider, slot, pass, attempts[k].code), Booked(|db.rows|))
  }

  function Insertion(db: Db, user: nat, provider: nat, slot: Slot, pass: nat, code: string): Db
    requires pass < |db.passes|
  {
    db.(rows := db.rows + [NewReservation(user, provider, slot, pass, code)],
        passes := db.passes[pass := Spend(db.passes[pass])])
  }

  function CancelNow(db: Db, user: nat, row: nat, now: int): Result {
    if row >= |db.rows| then Result(db, CancelRefused(UnknownReservation))
    else match CancelVerdictFor(db.rows[row], user, now)
      case Refuse(why) => Result(db, CancelRefused(why))
      case Proceed(eligible) =>
        var credit := RefundTarget(db.passes, db.rows[row], user, eligible);
        Result(db.(rows := db.rows[row := MarkCancelled(db.rows[row], now, credit.Some?)],
                   passes := if credit.Some? then db.passes[credit.value := GiveBack(db.passes[credit.value])]
                             else db.passes),
               CancelDone(row, credit.Some?))
  }

  function CheckInNow(db: Db, provider: nat, locator: Locator, today: int, now: int): Result {
    match FindRow(db.rows, locator, provider)
    case None => Result(db, Scanned(ScanInvalid))
    case Some(row) =>
      var outcome := ScanOutcomeFor(db.rows[row], today);
      Result(if outcome == ScanValid then db.(rows := db.rows[row := MarkCheckedIn(db.rows[row], now, today)]) else db,
             Scanned(outcome))
  }

  class Repository {
    var cat: Catalogue
    var passes: seq<Pass>
    var rows: seq<Reservation>

    constructor (db: Db)
      ensures View() == db
    {
      cat, passes, rows := db.cat, db.passes, db.rows;
    }

    function View(): Db
      reads this
    {
      Db(cat, passes, rows)
    }

    method CreateReservation(user: nat, slot: Slot, attempts: seq<Attempt>) returns (reply: Reply)
      requires |attempts| == RESERVATION_CODE_ATTEMPTS
      modifies this
      ensures Result(View(), reply) == Book(old(View()), user, slot, attempts, 0)
    {
      reply := CreateReservationAttempt(user, slot, attempts, 0);
    }

    method CreateReservationAttempt(user: nat, slot: Slot, attempts: seq<Attempt>, attempt: nat)
      returns (reply: Reply)
      requires |attempts| == RESERVATION_CODE_ATTEMPTS && attempt < |attempts|
      modifies this
      ensures Result(View(), reply) == Book(old(View()), user, slot, attempts, attempt)
      decreases |attempts| - attempt
    {
      var now, code := attempts[attempt].now, attempts[attempt].code;
      var template := FindTemplate(cat, slot);
      if template.NotFound? { return BookingRefused(TemplateNotFound); }
      if template.Ambiguous? { return BookingRefused(TemplateAmbiguous); }
      if StartOf(slot) <= now { return BookingRefused(OccurrenceElapsed); }
      var pass := PickPass(passes, user, slot.program, now);
      if pass.None? { return BookingRefused(PassNotFound); }
      if Holds(rows, user, slot) { return BookingRefused(DuplicateReservation); }
      if Count(rows, LiveInSlot(slot)) >= template.capacity { return BookingRefused(CapacityFull); }
      if CodeTaken(rows, code) {
        if attempt + 1 < RESERVATION_CODE_ATTEMPTS {
          reply := CreateReservationAttempt(user, slot, attempts, attempt + 1);
          return;
        }
        return CodesExhausted;
      }
      reply := Booked(|rows|);
      rows := rows + [NewReservation(user, template.provider, slot, pass.value, code)];
      if passes[pass.value].remaining.Some? {
        passes := passes[pass.value := Spend(passes[pass.value])];
      }
      assert passes == old(passes)[pass.value := Spend(old(passes)[pass.value])];
    }

    method CancelReservation(user: nat, row: nat, now: int) returns (reply: Reply)
      modifies this
      ensures Result(View(), reply) == CancelNow(old(View()), user, row, now)
      ensures CancelMeans(old(View()), user, row, now, Result(View(), reply))
    {
      CancellationMeans(View(), user, row, now);
      if row >= |rows| { return CancelRefused(UnknownReservation); }
      var reservation := rows[row];
      var verdict := CancelVerdictFor(reservation, user, now);
      if verdict.Refuse? { return CancelRefused(verdict.reason); }
      var refunded := false;
      if verdict.eligible && reservation.pass.Some? {
        var p := reservation.pass.value;
        if p < |passes| && passes[p].user == user && passes[p].remaining.Some? {
          passes := passes[p := GiveBack(passes[p])];
          refunded := true;
        }
      }
      rows := rows[row := MarkCancelled(reservation, now, refunded)];
      reply := CancelDone(row, refunded);
    }

    method CheckInReservation(provider: nat, locator: Locator, today: int, now: int) returns (reply: Reply)
      modifies this
      ensures Result(View(), reply) == CheckInNow(old(View()), provider, locator, today, now)
      ensures UniqueCodes(old(rows)) ==> CheckInMeans(old(View()), provider, locator, today, now, Result(View(), reply))
    {
      if UniqueCodes(rows) {
        ScanMeans(View(), provider, locator, today, now);
      }
      var found := FindRow(rows, locator, provider);
      if found.None? { return Scanned(ScanInvalid); }
      var outcome := ScanOutcomeFor(rows[found.value], today);
      if outcome == ScanValid {
        rows := rows[found.value := MarkCheckedIn(rows[found.value], now, today)];
      }
      reply := Scanned(outcome);
    }
  }

  // ---------- What the replies of a cancellation and of a scan mean ----------

  /** `user` holds reservation `row`, not cancelled, not used, and the session has not begun. */
  predicate Cancellable(db: Db, user: nat, row: nat, now: int) {
    && row < |db.rows| && db.rows[row].user == user && db.rows[row].status != Cancelled
    && db.rows[row].checkedInAt.None? && StartOf(db.rows[row].slot) > now
  }

  /** The credit comes back: six hours ahead or more, to the holder's own finite pass. */
  predicate Refundable(db: Db, user: nat, r: Reservation, now: int) {
    && StartOf(r.slot) - now >= 6 * HOUR
    && r.pass.Some? && r.pass.value < |db.passes|
    && db.passes[r.pass.value].user == user && db.passes[r.pass.value].remaining.Some?
  }

  /** Row `i`, and no other, may differ. */
  predicate OnlyRow(before: seq<Reservation>, after: seq<Reservation>, i: nat) {
    |after| == |before| && forall j: nat :: j < |before| && j != i ==> after[j] == before[j]
  }

  /** Pass `p`, and no other, has one credit more. */
  predicate OneCreditMore(before: seq<Pass>, after: seq<Pass>, p: nat) {
    && p < |before| == |after| && (forall j: nat :: j < |before| && j != p ==> after[j] == before[j])
    && SamePassTerms(before[p], after[p]) && before[p].remaining.Some?
    && after[p].remaining == Some(before[p].remaining.value + 1)
  }

  /** Each refusal is true of the database it leaves alone; a cancellation changes one row and at most one pass. */
  ghost predicate CancelMeans(db: Db, user: nat, row: nat, now: int, r: Result) {
    match r.reply
    case CancelRefused(why) =>
      && r.db == db && !Cancellable(db, user, row, now)
      && (why == UnknownReservation <==> row >= |db.rows|)
      && (why == Forbidden <==> row < |db.rows| && db.rows[row].user != user)
      && (why == AlreadyCancelled <==> row < |db.rows| && db.rows[row].user == user && db.rows[row].status == Cancelled)
      && (why == AlreadyCheckedIn ==> db.rows[row].checkedInAt.Some?)
      && (why == SessionElapsed ==> StartOf(db.rows[row].slot) <= now)
    case CancelDone(i, refunded) =>
      && i == row && Cancellable(db, user, row, now)
      && r.db.cat == db.cat && OnlyRow(db.rows, r.db.rows, row)
      && r.db.rows[row].status == Cancelled && r.db.rows[row].cancelledAt == Some(now)
      && SameBooking(db.rows[row], r.db.rows[row]) && r.db.rows[row].checkedInAt.None?
      && r.db.rows[row].remindedAt == db.rows[row].remindedAt
      && (refunded <==> Refundable(db, user, db.rows[row], now))
      && (refunded ==> OneCreditMore(db.passes, r.db.passes, db.rows[row].pass.value))
      && (!refunded ==> r.db.passes == db.passes)
    case _ => false
  }

  lemma CancellationMeans(db: Db, user: nat, row: nat, now: int)
    ensures CancelMeans(db, user, row, now, CancelNow(db, user, row, now))
  {
  }

  predicate Admissible(r: Reservation, today: int) {
    r.status != Cancelled && r.slot.date == today && r.checkedInAt.None?
  }

  /** The scan answers about the one row of this provider that the locator names, and changes it only to admit it. */
  ghost predicate CheckInMeans(db: Db, provider: nat, locator: Locator, today: int, now: int, r: Result) {
    && r.reply.Scanned?
    && (r.reply.outcome != ScanValid ==> r.db == db)
    && (r.reply.outcome == ScanInvalid <==>
          forall i: nat :: i < |db.rows| ==> !Located(db.rows[i], i, locator, provider))
    && forall i: nat :: i < |db.rows| && Located(db.rows[i], i, locator, provider) ==>
         && (r.reply.outcome == ScanCancelled <==> db.rows[i].status == Cancelled)
         && (r.reply.outcome == ScanWrongDay <==> db.rows[i].status != Cancelled && db.rows[i].slot.date != today)
         && (r.reply.outcome == ScanValid <==> Admissible(db.rows[i], today))
         && (r.reply.outcome == ScanValid ==> Admitted(db, r.db, i, now))
  }

  /** Reservation `i` is checked in at `now`, and nothing else happens. */
  predicate Admitted(db: Db, db': Db, i: nat, now: int) {
    && i < |db.rows| && db'.cat == db.cat && db'.passes == db.passes && OnlyRow(db.rows, db'.rows, i)
    && SameBooking(db.rows[i], db'.rows[i]) && db'.rows[i].checkedInAt == Some(now)
    && db'.rows[i].status == db.rows[i].status && db'.rows[i].cancelledAt == db.rows[i].cancelledAt
  }

  lemma ScanMeans(db: Db, provider: nat, locator: Locator, today: int, now: int)
    requires UniqueCodes(db.rows)
    ensures CheckInMeans(db, provider, locator, today, now, CheckInNow(db, provider, locator, today, now))
  {
    forall i: nat | i < |db.rows| && Located(db.rows[i], i, locator, provider)
      ensures FindRow(db.rows, locator, provider) == Some(i)
    {
      if locator.ByCode? {
        FirstWithCodeIsUnique(db.rows, locator.code, provider, 0, i);
      }
    }
  }

  // ---------- The retry is one atomic booking ----------

  /** Why attempt `k` got as far as drawing a code that was already taken. */
  ghost predicate Collides(db: Db, user: nat, slot: Slot, a: Attempt) {
    && FindTemplate(db.cat, slot).Found? && StartOf(slot) > a.now
    && PickPass(db.passes, user, slot.program, a.now).Some?
    && !Holds(db.rows, user, slot) && Count(db.rows, LiveInSlot(slot)) < FindTemplate(db.cat, slot).capacity
    && CodeTaken(db.rows, a.code)
  }

  /** A booking whose code is free: what `Book` does when no collision is involved. */
  ghost predicate Settles(db: Db, user: nat, slot: Slot, a: Attempt, r: Result) {
    match r.reply
    case BookingRefused(TemplateNotFound) => r.db == db && FindTemplate(db.cat, slot).NotFound?
    case BookingRefused(TemplateAmbiguous) => r.db == db && FindTemplate(db.cat, slot).Ambiguous?
    case BookingRefused(OccurrenceElapsed) => r.db == db && FindTemplate(db.cat, slot).Found? && StartOf(slot) <= a.now
    case BookingRefused(PassNotFound) =>
      && r.db == db && FindTemplate(db.cat, slot).Found? && StartOf(slot) > a.now
      && forall p :: 0 <= p < |db.passes| ==> !Usable(db.passes[p], user, slot.program, a.now)
    case BookingRefused(DuplicateReservation) =>
      && r.db == db && FindTemplate(db.cat, slot).Found? && StartOf(slot) > a.now && Holds(db.rows, user, slot)
    case BookingRefused(CapacityFull) =>
      && r.db == db && FindTemplate(db.cat, slot).Found? && StartOf(slot) > a.now && !Holds(db.rows, user, slot)
      && Count(db.rows, LiveInSlot(slot)) >= FindTemplate(db.cat, slot).capacity
    case Booked(row) =>
      && FindTemplate(db.cat, slot).Found? && StartOf(slot) > a.now
      && !Holds(db.rows, user, slot) && !CodeTaken(db.rows, a.code)
      && Count(db.rows, LiveInSlot(slot)) < FindTemplate(db.cat, slot).capacity
      && row == |db.rows| && |r.db.rows| == row + 1 && r.db.rows[..row] == db.rows
      && HoldsAt(r.db.rows[row], user, slot) && r.db.rows[row].code == a.code
      && r.db.rows[row].pass.Some? && SpentEarliest(db, user, slot.program, a.now, r.db.rows[row].pass.value, r.db)
    case _ => false
  }

  /** `p` was usable, no usable pass ranked before it, and it alone lost one credit if it is finite. */
  ghost predicate SpentEarliest(db: Db, user: nat, program: nat, now: int, p: nat, db': Db) {
    && p < |db.passes| && Usable(db.passes[p], user, program, now)
    && (forall j :: 0 <= j < |db.passes| && j != p && Usable(db.passes[j], user, program, now) ==> Before(db.passes, p, j))
    && db'.cat == db.cat && |db'.passes| == |db.passes|
    && (forall j :: 0 <= j < |db.passes| && j != p ==> db'.passes[j] == db.passes[j])
    && db'.passes[p].(remaining := None) == db.passes[p].(remaining := None)
    && (db.passes[p].remaining.None? ==> db'.passes[p].remaining.None?)
    && (db.passes[p].remaining.Some? ==> db'.passes[p].remaining == Some(db.passes[p].remaining.value - 1))
  }

  /**
   Five tries refine one booking: the first attempt whose code does not collide decides, on the untouched
   database, and `CodesExhausted` is answered only when all five codes were taken.
   */
  lemma {:induction false} RetryRefinesOneBooking(db: Db, user: nat, slot: Slot, attempts: seq<Attempt>, k: nat)
    returns (j: nat)
    requires |attempts| == RESERVATION_CODE_ATTEMPTS && k < |attempts|
    ensures k <= j <= |attempts|
    ensures forall i :: k <= i < j ==> Collides(db, user, slot, attempts[i])
    ensures j < |attempts| ==> Settles(db, user, slot, attempts[j], Book(db, user, slot, attempts, k))
    ensures j == |attempts| ==> Book(db, user, slot, attempts, k) == Result(db, CodesExhausted)
    decreases |attempts| - k
  {
    if Collides(db, user, slot, attempts[k]) {
      CollisionRetries(db, user, slot, attempts, k);
      if k + 1 < |attempts| {
        j := RetryRefinesOneBooking(db, user, slot, attempts, k + 1);
      } else {
        j := |attempts|;
      }
    } else {
      OneTrySettles(db, user, slot, attempts, k);
      j := k;
    }
  }

  lemma CollisionRetries(db: Db, user: nat, slot: Slot, attempts: seq<Attempt>, k: nat)
    requires |attempts| == RESERVATION_CODE_ATTEMPTS && k < |attempts| && Collides(db, user, slot, attempts[k])
    ensures Book(db, user, slot, attempts, k)
            == if k + 1 < |attempts| then Book(db, user, slot, attempts, k + 1) else Result(db, CodesExhausted)
  {
    var template := FindTemplate(db.cat, slot);
    var pass := PickPass(db.passes, user, slot.program, attempts[k].now).value;
    assert Book(db, user, slot, attempts, k)
           == BookWith(db, user, slot, attempts, k, template.provider, template.capacity, pass);
  }

  lemma OneTrySettles(db: Db, user: nat, slot: Slot, attempts: seq<Attempt>, k: nat)
    requires |attempts| == RESERVATION_CODE_ATTEMPTS && k < |attempts| && !Collides(db, user, slot, attempts[k])
    ensures Settles(db, user, slot, attempts[k], Book(db, user, slot, attempts, k))
  {
    var a := attempts[k];
    if FindTemplate(db.cat, slot).Found? && StartOf(slot) > a.now {
      var pick := PickPass(db.passes, user, slot.program, a.now);
      if pick.Some? {
        InsertionSpends(db, user, FindTemplate(db.cat, slot).provider, slot, pick.value, a);
        assert Book(db, user, slot, attempts, k)
               == BookWith(db, user, slot, attempts, k, FindTemplate(db.cat, slot).provider,
                           FindTemplate(db.cat, slot).capacity, pick.value);
      }
    }
  }

  lemma InsertionSpends(db: Db, user: nat, provider: nat, slot: Slot, pass: nat, a: Attempt)
    requires PickPass(db.passes, user, slot.program, a.now) == Some(pass)
    ensures var db' := Insertion(db, user, provider, slot, pass, a.code);
            && SpentEarliest(db, user, slot.program, a.now, pass, db')
            && |db'.rows| == |db.rows| + 1 && db'.rows[..|db.rows|] == db.rows
            && HoldsAt(db'.rows[|db.rows|], user, slot) && db'.rows[|db.rows|].code == a.code
            && db'.rows[|db.rows|].pass == Some(pass)
  {
  }

  // ---------- A booking transaction left alone computes Book ----------

  /** Attempt 0 runs at the transaction's own time; a retry begins at the current clock. */
  ghost predicate AttemptsOf(s: State, tx: Tx, attempts: seq<Attempt>)
    requires tx.Create?
  {
    && |attempts| == RESERVATION_CODE_ATTEMPTS && tx.attempt < |attempts|
    && attempts[tx.attempt] == Attempt(tx.now, tx.code)
    && forall k :: tx.attempt < k < |attempts| ==> attempts[k].now == s.clock
  }

  /** The reply a booking transaction is heading for if nothing else moves. */
  ghost function Pending(s: State, tx: Tx, attempts: seq<Attempt>): Result
    requires tx.Create? ==> AttemptsOf(s, tx, attempts)
    requires tx.Create? || tx.Done?
    requires tx.Create? && tx.stage.Holding? ==> tx.stage.pass < |s.db.passes|
  {
    if tx.Done? then Result(s.db, tx.reply)
    else match tx.stage
      case AtSlot => Book(s.db, tx.user, tx.slot, attempts, tx.attempt)
      case HasSlot => Book(s.db, tx.user, tx.slot, attempts, tx.attempt)
      case TemplateRead(provider, capacity) => FromPick(s, tx, attempts, provider, capacity)
      case Picking(provider, capacity, _, _) => FromPick(s, tx, attempts, provider, capacity)
      case Holding(provider, capacity, pass, _, progress) =>
        if progress == RowInserted
        then Result(Insertion(s.db, tx.user, provider, tx.slot, pass, tx.code), Booked(|s.db.rows|))
        else BookWith(s.db, tx.user, tx.slot, attempts, tx.attempt, provider, capacity, pass)
  }

  ghost function FromPick(s: State, tx: Tx, attempts: seq<Attempt>, provider: nat, capacity: int): Result
    requires tx.Create? && AttemptsOf(s, tx, attempts)
  {
    match PickPass(s.db.passes, tx.user, tx.slot.program, tx.now)
    case None => Result(s.db, BookingRefused(PassNotFound))
    case Some(pass) => BookWith(s.db, tx.user, tx.slot, attempts, tx.attempt, provider, capacity, pass)
  }

  /** Alone, the candidate list stays what the query returned. */
  ghost predicate Undisturbed(s: State, tx: Tx)
    requires tx.Create?
  {
    match tx.stage
    case Picking(_, _, cand, _) => cand == Candidates(s.db.passes, tx.user, tx.slot.program, tx.now, |s.db.passes|)
    case Holding(_, capacity, _, _, progress) =>
      && (progress != PassLocked ==> !Holds(s.db.rows, tx.user, tx.slot))
      && (progress == RoomLeft ==> Count(s.db.rows, LiveInSlot(tx.slot)) < capacity)
    case _ => true
  }

  /** Everything the solo argument carries from step to step. */
  ghost predicate Solo(s: State, tx: Tx, attempts: seq<Attempt>) {
    || tx.Done?
    || (tx.Create? && AttemptsOf(s, tx, attempts) && Undisturbed(s, tx)
        && (tx.stage.Holding? ==> tx.stage.pass < |s.db.passes|))
  }

  /** One solo step: still solo, and heading for the same reply. */
  ghost predicate Heads(s: State, tx: Tx, s': State, tx': Tx, attempts: seq<Attempt>) {
    Solo(s, tx, attempts) && Solo(s', tx', attempts) && Pending(s', tx', attempts) == Pending(s, tx, attempts)
  }

  lemma EarlyAlone(s: State, t: nat, attempts: seq<Attempt>, newCode: string)
    requires t in s.txs && s.txs[t].Create? && Solo(s, s.txs[t], attempts)
    requires !s.txs[t].stage.Picking? && !s.txs[t].stage.Holding?
    ensures var s' := AdvanceCreate(s, t, s.txs[t], newCode); Heads(s, s.txs[t], s', s'.txs[t], attempts)
  {
  }

  lemma PickingAlone(s: State, t: nat, attempts: seq<Attempt>, newCode: string)
    requires t in s.txs && s.txs[t].Create? && Solo(s, s.txs[t], attempts) && s.txs[t].stage.Picking?
    ensures var s' := AdvanceCreate(s, t, s.txs[t], newCode); Heads(s, s.txs[t], s', s'.txs[t], attempts)
  {
    var cand := s.txs[t].stage.cand;
    if cand != [] {
      assert cand[0] in cand;
    }
  }

  lemma HoldingAlone(s: State, t: nat, attempts: seq<Attempt>, newCode: string)
    requires t in s.txs && s.txs[t].Create? && Solo(s, s.txs[t], attempts) && s.txs[t].stage.Holding?
    requires s.txs[t].attempt + 1 < |attempts| ==> newCode == attempts[s.txs[t].attempt + 1].code
    ensures var s' := AdvanceCreate(s, t, s.txs[t], newCode); Heads(s, s.txs[t], s', s'.txs[t], attempts)
  {
  }

  lemma StepAlone(s: State, t: nat, attempts: seq<Attempt>, newCode: string)
    requires t in s.txs && s.txs[t].Create? && Solo(s, s.txs[t], attempts)
    requires s.txs[t].attempt + 1 < |attempts| ==> newCode == attempts[s.txs[t].attempt + 1].code
    ensures var s' := AdvanceCreate(s, t, s.txs[t], newCode); Heads(s, s.txs[t], s', s'.txs[t], attempts)
  {
    if s.txs[t].stage.Picking? {
      PickingAlone(s, t, attempts, newCode);
    } else if s.txs[t].stage.Holding? {
      HoldingAlone(s, t, attempts, newCode);
    } else {
      EarlyAlone(s, t, attempts, newCode);
    }
  }

  ghost predicate OthersIdle(s: State, t: nat) {
    forall u :: u in s.txs && u != t ==> Locks(s, s.txs[u]) == {}
  }

  lemma NextAlone(s: State, t: nat, attempts: seq<Attempt>) returns (step: Step)
    requires Inv(s) && t in s.txs && s.txs[t].Create? && Solo(s, s.txs[t], attempts) && OthersIdle(s, t)
    ensures step.Advance? && step.id == t && StepOk(s, step)
    ensures var s' := Do(s, step);
            && Inv(s') && t in s'.txs && OthersIdle(s', t) && Heads(s, s.txs[t], s', s'.txs[t], attempts)
            && BookingLiveness.StepsLeft(s', s'.txs[t]) < BookingLiveness.StepsLeft(s, s.txs[t])
  {
    var tx := s.txs[t];
    var newCode := if tx.attempt + 1 < |attempts| then attempts[tx.attempt + 1].code else "";
    step := Advance(t, newCode, {});
    var s' := Do(s, step);
    StepAlone(s, t, attempts, newCode);
    BookingLiveness.StepShortens(s, t, newCode, {});
    DoKeeps(s, step);
    SameHash(s, t, tx, newCode);
    forall u | u in s'.txs && u != t ensures Locks(s', s'.txs[u]) == {} {
      assert Locks(s', s.txs[u]) == Locks(s, s.txs[u]);
    }
  }

  lemma SameHash(s: State, t: nat, tx: Tx, newCode: string)
    requires tx.Create?
    ensures AdvanceCreate(s, t, tx, newCode).hash == s.hash
  {
  }

  /** A solo schedule exists, it ends, and it returns exactly what `Book` returns on the same database. */
  lemma {:induction false} BookingAlone(s: State, t: nat, attempts: seq<Attempt>) returns (steps: seq<Step>)
    requires Inv(s) && t in s.txs && Solo(s, s.txs[t], attempts) && OthersIdle(s, t)
    ensures RunOk(s, steps) && forall k :: 0 <= k < |steps| ==> steps[k].Advance? && steps[k].id == t
    ensures t in Run(s, steps).txs && Run(s, steps).txs[t].Done?
    ensures Result(Run(s, steps).db, Run(s, steps).txs[t].reply) == Pending(s, s.txs[t], attempts)
    decreases BookingLiveness.StepsLeft(s, s.txs[t])
  {
    if s.txs[t].Done? {
      return [];
    }
    var step := NextAlone(s, t, attempts);
    var rest := BookingAlone(Do(s, step), t, attempts);
    steps := [step] + rest;
    assert steps[1..] == rest;
  }

  /** In particular a request arriving in a quiet database gets the answer of the method above. */
  lemma QuietBookingIsBook(s: State, t: nat, attempts: seq<Attempt>) returns (steps: seq<Step>)
    requires Inv(s) && t in s.txs && s.txs[t].Create? && s.txs[t].stage == AtSlot && s.txs[t].attempt == 0
    requires OthersIdle(s, t) && AttemptsOf(s, s.txs[t], attempts)
    ensures RunOk(s, steps) && t in Run(s, steps).txs && Run(s, steps).txs[t].Done?
    ensures Result(Run(s, steps).db, Run(s, steps).txs[t].reply)
            == Book(s.db, s.txs[t].user, s.txs[t].slot, attempts, 0)
  {
    steps := BookingAlone(s, t, attempts);
  }

  // ---------- Cancellations and check-ins are atomic at their last step ----------

  /** However it was interleaved, a cancellation answers and writes what `CancelNow` does at that instant. */
  lemma CancelIsAtomic(start: State, steps: seq<Step>, t: nat)
    requires Init(start) && RunOk(start, steps) && CanAdvance(Run(start, steps), t) && Run(start, steps).txs[t].Cancel?
    ensures var s := Run(start, steps); var tx, s' := s.txs[t], AdvanceCancel(s, t, s.txs[t]);
            if s'.txs[t].Done? then Result(s'.db, s'.txs[t].reply) == CancelNow(s.db, tx.user, tx.row, tx.now)
            else s'.db == s.db
  {
    EveryRunKeeps(start, steps);
    var s := Run(start, steps);
    var tx := s.txs[t];
    assert TxOk(s, tx);
    if tx.cancelStage.Credited? {
      var eligible :| CancelVerdictFor(s.db.rows[tx.row], tx.user, tx.now) == Proceed(eligible)
                   && tx.cancelStage.credit == RefundTarget(s.db.passes, s.db.rows[tx.row], tx.user, eligible);
    }
  }

  /** The row found before the lock is the row found when it is granted: a code names one reservation. */
  lemma {:induction false} FirstWithCodeIsUnique(rows: seq<Reservation>, code: string, provider: nat, from: nat, i: nat)
    requires from <= i < |rows| && rows[i].code == code && rows[i].provider == provider
    requires UniqueCodes(rows)
    ensures FirstWithCode(rows, code, provider, from) == Some(i)
    decreases |rows| - from
  {
    if from < i {
      assert rows[from].code != rows[i].code;
      FirstWithCodeIsUnique(rows, code, provider, from + 1, i);
    }
  }

  lemma CheckInIsAtomic(start: State, steps: seq<Step>, t: nat)
    requires Init(start) && RunOk(start, steps) && CanAdvance(Run(start, steps), t) && Run(start, steps).txs[t].CheckIn?
    ensures var s := Run(start, steps); var tx, s' := s.txs[t], AdvanceCheckIn(s, t, s.txs[t]);
            if s'.txs[t].Done?
            then Result(s'.db, s'.txs[t].reply) == CheckInNow(s.db, tx.provider, tx.locator, tx.today, tx.now)
            else s'.db == s.db
  {
    EveryRunKeeps(start, steps);
    var s := Run(start, steps);
    var tx := s.txs[t];
    assert TxOk(s, tx);
    if tx.checkInStage.RowHeld? && tx.locator.ByCode? {
      FirstWithCodeIsUnique(s.db.rows, tx.locator.code, tx.provider, 0, tx.checkInStage.row);
    }
  }
}
