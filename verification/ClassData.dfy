/**
 The tables behind class bookings and the queries the repository runs on them.

 A table is a sequence whose index is the row id: rows are appended and updated, never deleted.
 Every instant is a number of seconds on Honduras' civil clock, a fixed offset from UTC.
 */
module ClassData {
  import opened Wrappers

  const HOUR := 3600
  const DAY := 24 * HOUR
  const CANCELLATION_REFUND_WINDOW := 6 * HOUR
  const REMIND_AHEAD := 2 * HOUR
  const RESERVATION_CODE_ATTEMPTS := 5

  /** One occurrence of a class: `date` counts days from 1970-01-01, `start` seconds from midnight. */
  datatype Slot = Slot(program: nat, date: int, start: nat)

  datatype Pass = Pass(user: nat, program: nat, total: Option<int>, remaining: Option<int>,
                       validFrom: int, expiresAt: Option<int>, createdAt: int, active: bool)

  datatype Status = Reserved | Cancelled

  /** `refunds`, `admissions` and `reminders` are history: credits returned, `valid` scans, reminders claimed. */
  datatype Reservation = Reservation(user: nat, provider: nat, slot: Slot, pass: Option<nat>, code: string,
                                     status: Status, cancelledAt: Option<int>, checkedInAt: Option<int>,
                                     remindedAt: Option<int>, admittedOn: Option<int>,
                                     refunds: nat, admissions: nat, reminders: nat)

  datatype Program = Program(provider: nat, published: bool, capacity: int)
  datatype Template = Template(program: nat, weekday: int, start: nat, capacity: Option<int>, active: bool)
  datatype Catalogue = Catalogue(programs: map<nat, Program>, templates: seq<Template>)
  datatype Db = Db(cat: Catalogue, passes: seq<Pass>, rows: seq<Reservation>)

  function StartOf(slot: Slot): int {
    slot.date * DAY + slot.start
  }

  /** 0 is Sunday; day 0 was a Thursday. */
  function Weekday(date: int): int {
    (date + 4) % 7
  }

  // ---------- Templates ----------

  predicate Matches(t: Template, slot: Slot) {
    t.program == slot.program && t.active && t.weekday == Weekday(slot.date) && t.start == slot.start
  }

  function MatchingTemplates(ts: seq<Template>, slot: Slot): seq<Template> {
    if ts == [] then []
    else (if Matches(ts[0], slot) then [ts[0]] else []) + MatchingTemplates(ts[1..], slot)
  }

  datatype Lookup = NotFound | Ambiguous | Found(provider: nat, capacity: int)

  function FindTemplate(cat: Catalogue, slot: Slot): Lookup {
    if slot.program !in cat.programs || !cat.programs[slot.program].published then NotFound
    else
      var found := MatchingTemplates(cat.templates, slot);
      var program := cat.programs[slot.program];
      if found == [] then NotFound
      else if |found| > 1 then Ambiguous
      else Found(program.provider, CapacityOf(found[0], program))
  }

  function CapacityOf(t: Template, program: Program): int {
    if t.capacity.Some? then t.capacity.value else program.capacity
  }

  // ---------- Counting rows ----------

  datatype Query =
    | LiveInSlot(slot: Slot)
    | LiveOnPass(pass: nat)
    | KeptOnPass(pass: nat)   // cancelled, and the credit was not handed back

  predicate Selects(q: Query, r: Reservation) {
    match q
    case LiveInSlot(slot) => r.status == Reserved && r.slot == slot
    case LiveOnPass(p) => r.status == Reserved && r.pass == Some(p)
    case KeptOnPass(p) => r.status == Cancelled && r.pass == Some(p) && r.refunds == 0
  }

  function Hit(q: Query, r: Reservation): nat {
    if Selects(q, r) then 1 else 0
  }

  function Count(rows: seq<Reservation>, q: Query): nat {
    if rows == [] then 0 else Count(rows[..|rows| - 1], q) + Hit(q, rows[|rows| - 1])
  }

  lemma {:induction false} CountUpdate(rows: seq<Reservation>, i: nat, r: Reservation, q: Query)
    requires i < |rows|
    ensures Count(rows[i := r], q) == Count(rows, q) - Hit(q, rows[i]) + Hit(q, r)
  {
    var n := |rows| - 1;
    if i == n {
      assert rows[i := r][..n] == rows[..n];
    } else {
      CountUpdate(rows[..n], i, r, q);
      assert rows[i := r][..n] == rows[..n][i := r];
    }
  }

  lemma CountAppend(rows: seq<Reservation>, r: Reservation, q: Query)
    ensures Count(rows + [r], q) == Count(rows, q) + Hit(q, r)
  {
    assert (rows + [r])[..|rows|] == rows;
  }

  lemma {:induction false} CountMonotone(before: seq<Reservation>, after: seq<Reservation>, q: Query)
    requires |before| == |after|
    requires forall i :: 0 <= i < |before| ==> (Selects(q, after[i]) ==> Selects(q, before[i]))
    ensures Count(after, q) <= Count(before, q)
  {
    if before != [] {
      var n := |before| - 1;
      CountMonotone(before[..n], after[..n], q);
    }
  }

  lemma {:induction false} CountZeroWhenNone(rows: seq<Reservation>, q: Query)
    requires forall i :: 0 <= i < |rows| ==> !Selects(q, rows[i])
    ensures Count(rows, q) == 0
  {
    if rows != [] {
      CountZeroWhenNone(rows[..|rows| - 1], q);
    }
  }

  lemma {:induction false} CountPositive(rows: seq<Reservation>, q: Query, i: nat)
    requires i < |rows| && Selects(q, rows[i])
    ensures Count(rows, q) > 0
  {
    var n := |rows| - 1;
    if i < n {
      CountPositive(rows[..n], q, i);
    }
  }

  // ---------- Reservations ----------

  predicate HoldsAt(r: Reservation, user: nat, slot: Slot) {
    r.user == user && r.slot == slot && r.status == Reserved
  }

  predicate Holds(rows: seq<Reservation>, user: nat, slot: Slot) {
    exists i :: 0 <= i < |rows| && HoldsAt(rows[i], user, slot)
  }

  predicate CodeTaken(rows: seq<Reservation>, code: string) {
    exists i :: 0 <= i < |rows| && rows[i].code == code
  }

  function NewReservation(user: nat, provider: nat, slot: Slot, pass: nat, code: string): Reservation {
    Reservation(user, provider, slot, Some(pass), code, Reserved, None, None, None, None, 0, 0, 0)
  }

  // ---------- Passes ----------

  predicate Unexpired(p: Pass, now: int) {
    p.validFrom <= now && (p.expiresAt.None? || p.expiresAt.value > now)
  }

  predicate Usable(p: Pass, user: nat, program: nat, now: int) {
    && p.user == user && p.program == program && p.active
    && Unexpired(p, now)
    && (p.remaining.None? || p.remaining.value > 0)
  }

  /** `expires_at ASC NULLS LAST, created_at ASC`; a tie the query leaves open goes to the older row. */
  predicate Before(passes: seq<Pass>, i: nat, j: nat)
    requires i < |passes| && j < |passes|
  {
    var a, b := passes[i], passes[j];
    || SoonerExpiry(a.expiresAt, b.expiresAt)
    || (a.expiresAt == b.expiresAt && (a.createdAt < b.createdAt || (a.createdAt == b.createdAt && i < j)))
  }

  predicate SoonerExpiry(a: Option<int>, b: Option<int>) {
    a.Some? && (b.None? || a.value < b.value)
  }

  predicate Sorted(passes: seq<Pass>, ids: seq<nat>) {
    && (forall k :: 0 <= k < |ids| ==> ids[k] < |passes|)
    && (forall k, l :: 0 <= k < l < |ids| ==> Before(passes, ids[k], ids[l]))
  }

  function Insert(passes: seq<Pass>, ids: seq<nat>, i: nat): (r: seq<nat>)
    requires i < |passes| && Sorted(passes, ids) && forall k :: 0 <= k < |ids| ==> ids[k] < i
    ensures Sorted(passes, r)
    ensures forall k :: k in r <==> k == i || k in ids
  {
    if ids == [] then [i]
    else if Before(passes, i, ids[0]) then
      assert forall k :: 0 <= k < |ids| ==> Before(passes, i, ids[k]);
      [i] + ids
    else
      assert forall k :: 0 <= k < |ids[1..]| ==> ids[1..][k] == ids[k + 1];
      var rest := Insert(passes, ids[1..], i);
      assert forall k :: 0 <= k < |rest| ==> rest[k] in rest;
      assert forall k :: k in ids[1..] ==> Before(passes, ids[0], k);
      [ids[0]] + rest
  }

  /** The usable passes among the first `n`, in the order the booking query returns them. */
  function Candidates(passes: seq<Pass>, user: nat, program: nat, now: int, n: nat): (r: seq<nat>)
    requires n <= |passes|
    ensures Sorted(passes, r)
    ensures forall i :: i in r <==> 0 <= i < n && Usable(passes[i], user, program, now)
  {
    if n == 0 then []
    else
      var rest := Candidates(passes, user, program, now, n - 1);
      assert forall k :: 0 <= k < |rest| ==> rest[k] in rest;
      if Usable(passes[n - 1], user, program, now) then Insert(passes, rest, n - 1) else rest
  }

  /** The pass a booking spends: the first row of the query. */
  function PickPass(passes: seq<Pass>, user: nat, program: nat, now: int): (r: Option<nat>)
    ensures r.Some? ==> r.value < |passes| && Usable(passes[r.value], user, program, now)
    ensures r.Some? ==> forall j :: 0 <= j < |passes| && j != r.value && Usable(passes[j], user, program, now)
                          ==> Before(passes, r.value, j)
    ensures r.None? ==> forall j :: 0 <= j < |passes| ==> !Usable(passes[j], user, program, now)
  {
    var ids := Candidates(passes, user, program, now, |passes|);
    if ids == [] then
      assert forall j :: 0 <= j < |passes| ==> j !in ids;
      None
    else
      assert ids[0] in ids;
      assert forall j :: j in ids && j != ids[0] ==> Before(passes, ids[0], j);
      Some(ids[0])
  }

  /** Everything about a pass but how many credits are left. */
  predicate SamePassTerms(a: Pass, b: Pass) {
    a.(remaining := None) == b.(remaining := None) && (a.remaining.Some? <==> b.remaining.Some?)
  }

  function Spend(p: Pass): Pass {
    if p.remaining.Some? then p.(remaining := Some(p.remaining.value - 1)) else p
  }

  function GiveBack(p: Pass): Pass {
    if p.remaining.Some? then p.(remaining := Some(p.remaining.value + 1)) else p
  }

  // ---------- Decisions taken on one locked reservation ----------

  datatype CancelRefusal = UnknownReservation | Forbidden | AlreadyCancelled | AlreadyCheckedIn | SessionElapsed
  datatype CancelVerdict = Refuse(reason: CancelRefusal) | Proceed(eligible: bool)

  function CancelVerdictFor(r: Reservation, user: nat, now: int): CancelVerdict {
    if r.user != user then Refuse(Forbidden)
    else if r.status == Cancelled then Refuse(AlreadyCancelled)
    else if r.checkedInAt.Some? then Refuse(AlreadyCheckedIn)
    else if StartOf(r.slot) <= now then Refuse(SessionElapsed)
    else Proceed(StartOf(r.slot) - now >= CANCELLATION_REFUND_WINDOW)
  }

  /** The pass the guarded refund `UPDATE` would touch: the holder's own, and finite. */
  function RefundTarget(passes: seq<Pass>, r: Reservation, user: nat, eligible: bool): Option<nat> {
    if eligible && r.pass.Some? && r.pass.value < |passes|
       && passes[r.pass.value].user == user && passes[r.pass.value].remaining.Some?
    then r.pass
    else None
  }

  function MarkCancelled(r: Reservation, now: int, credited: bool): Reservation {
    r.(status := Cancelled, cancelledAt := Some(now), refunds := r.refunds + if credited then 1 else 0)
  }

  datatype Locator = ById(id: nat) | ByCode(code: string)
  datatype ScanOutcome = ScanInvalid | ScanValid | ScanDuplicate | ScanCancelled | ScanWrongDay

  /** A reservation is only ever looked up inside the scanner's own provider. */
  function FindRow(rows: seq<Reservation>, locator: Locator, provider: nat): (found: Option<nat>)
    ensures found.Some? ==> found.value < |rows| && rows[found.value].provider == provider
    ensures found.Some? ==> match locator case ById(i) => i == found.value case ByCode(c) => c == rows[found.value].code
  {
    match locator
    case ById(i) => if i < |rows| && rows[i].provider == provider then Some(i) else None
    case ByCode(code) => FirstWithCode(rows, code, provider, 0)
  }

  function FirstWithCode(rows: seq<Reservation>, code: string, provider: nat, from: nat): (found: Option<nat>)
    requires from <= |rows|
    ensures found.Some? ==> found.value < |rows| && rows[found.value].provider == provider
    ensures found.Some? ==> rows[found.value].code == code
    decreases |rows| - from
  {
    if from == |rows| then None
    else if rows[from].code == code && rows[from].provider == provider then Some(from)
    else FirstWithCode(rows, code, provider, from + 1)
  }

  function ScanOutcomeFor(r: Reservation, today: int): ScanOutcome {
    if r.status == Cancelled then ScanCancelled
    else if r.slot.date != today then ScanWrongDay
    else if r.checkedInAt.Some? then ScanDuplicate
    else ScanValid
  }

  function MarkCheckedIn(r: Reservation, now: int, today: int): Reservation {
    r.(checkedInAt := Some(now), admittedOn := Some(today), admissions := r.admissions + 1)
  }

  predicate ReminderDue(r: Reservation, now: int) {
    r.remindedAt.None? && r.status == Reserved && now <= StartOf(r.slot) <= now + REMIND_AHEAD
  }

  function MarkReminded(r: Reservation, now: int): Reservation {
    r.(remindedAt := Some(now), reminders := r.reminders + 1)
  }
}
