/** The availability listing, computed from grouped rows, against what booking does with the same slot. */
module ClassAvailability {
  import opened Wrappers
  import opened ClassData
  import opened BookingSteps
  import opened ClassProgramsRepository

  datatype Key = Key(date: int, start: nat)

  datatype Occurrence = Occurrence(key: Key, capacity: int, reservedCount: nat, availableSpots: int,
                                   canReserve: bool, alreadyReserved: bool)

  // ---------- The fetched rows ----------

  predicate InWindow(r: Reservation, program: nat, first: int, last: int) {
    r.slot.program == program && r.status == Reserved && first <= r.slot.date <= last
  }

  function KeyOf(r: Reservation): Key {
    Key(r.slot.date, r.slot.start)
  }

  function Lookup(m: map<Key, nat>, k: Key): nat {
    if k in m then m[k] else 0
  }

  /** `GROUP BY session_date, start_time`, keyed for lookup. */
  function ReservationCounts(rows: seq<Reservation>, program: nat, first: int, last: int): map<Key, nat> {
    if rows == [] then map[]
    else
      var m := ReservationCounts(rows[..|rows| - 1], program, first, last);
      var r := rows[|rows| - 1];
      if InWindow(r, program, first, last) then m[KeyOf(r) := Lookup(m, KeyOf(r)) + 1] else m
  }

  function UserOccurrences(rows: seq<Reservation>, program: nat, user: nat, first: int, last: int): set<Key> {
    set i | 0 <= i < |rows| && rows[i].user == user && InWindow(rows[i], program, first, last) :: KeyOf(rows[i])
  }

  function PublicTemplates(ts: seq<Template>, program: nat): seq<Template> {
    if ts == [] then []
    else (if ts[0].program == program && ts[0].active then [ts[0]] else []) + PublicTemplates(ts[1..], program)
  }

  // ---------- The listing ----------

  function Max0(n: int): int {
    if n > 0 then n else 0
  }

  function OccurrenceFor(t: Template, program: Program, date: int, counts: map<Key, nat>, mine: set<Key>): Occurrence {
    var key := Key(date, t.start);
    var capacity := CapacityOf(t, program);
    var reserved := Lookup(counts, key);
    var spots := Max0(capacity - reserved);
    Occurrence(key, capacity, reserved, spots, spots > 0, key in mine)
  }

  function DayListing(ts: seq<Template>, program: Program, date: int, counts: map<Key, nat>, mine: set<Key>): seq<Occurrence> {
    if ts == [] then []
    else (if ts[0].weekday == Weekday(date) then [OccurrenceFor(ts[0], program, date, counts, mine)] else [])
         + DayListing(ts[1..], program, date, counts, mine)
  }

  function Listing(ts: seq<Template>, program: Program, first: int, days: nat, counts: map<Key, nat>, mine: set<Key>):
    seq<Occurrence>
    decreases days
  {
    if days == 0 then []
    else DayListing(ts, program, first, counts, mine) + Listing(ts, program, first + 1, days - 1, counts, mine)
  }

  /** `None` is the 404 for an unpublished program; a guest has no `user`. */
  function GetAvailability(db: Db, program: nat, first: int, days: nat, user: Option<nat>): Option<seq<Occurrence>>
    requires days > 0
  {
    if program !in db.cat.programs || !db.cat.programs[program].published then None
    else
      var last := first + days - 1;
      var counts := ReservationCounts(db.rows, program, first, last);
      var mine := if user.Some? then UserOccurrences(db.rows, program, user.value, first, last) else {};
      Some(Listing(PublicTemplates(db.cat.templates, program), db.cat.programs[program], first, days, counts, mine))
  }

  // ---------- Map lookup agrees with the booking's count ----------

  lemma {:induction false} CountsAgree(rows: seq<Reservation>, program: nat, first: int, last: int, date: int, start: nat)
    requires first <= date <= last
    ensures Lookup(ReservationCounts(rows, program, first, last), Key(date, start))
            == Count(rows, LiveInSlot(Slot(program, date, start)))
  {
    if rows != [] {
      CountsAgree(rows[..|rows| - 1], program, first, last, date, start);
    }
  }

  lemma HoldingAgrees(rows: seq<Reservation>, program: nat, user: nat, first: int, last: int, date: int, start: nat)
    requires first <= date <= last
    ensures Key(date, start) in UserOccurrences(rows, program, user, first, last)
            <==> Holds(rows, user, Slot(program, date, start))
  {
    var slot := Slot(program, date, start);
    if Holds(rows, user, slot) {
      var i :| 0 <= i < |rows| && HoldsAt(rows[i], user, slot);
      assert KeyOf(rows[i]) == Key(date, start);
    }
    if Key(date, start) in UserOccurrences(rows, program, user, first, last) {
      var i :| 0 <= i < |rows| && rows[i].user == user && InWindow(rows[i], program, first, last)
            && KeyOf(rows[i]) == Key(date, start);
      assert HoldsAt(rows[i], user, slot);
    }
  }

  // ---------- What the listing contains ----------

  function Named(list: seq<Occurrence>, key: Key): seq<Occurrence> {
    if list == [] then [] else (if list[0].key == key then [list[0]] else []) + Named(list[1..], key)
  }

  lemma {:induction false} NamedConcat(a: seq<Occurrence>, b: seq<Occurrence>, key: Key)
    ensures Named(a + b, key) == Named(a, key) + Named(b, key)
    decreases |a|
  {
    if a == [] {
      assert a + b == b;
    } else {
      NamedConcat(a[1..], b, key);
      assert (a + b)[1..] == a[1..] + b;
    }
  }

  function EachOccurrence(ts: seq<Template>, program: Program, date: int, counts: map<Key, nat>, mine: set<Key>): seq<Occurrence> {
    if ts == [] then []
    else [OccurrenceFor(ts[0], program, date, counts, mine)] + EachOccurrence(ts[1..], program, date, counts, mine)
  }

  /** One day lists, for a start time, exactly the templates the booking lookup would match. */
  lemma {:induction false} DayNames(ts: seq<Template>, p: nat, program: Program, date: int, start: nat,
                                    counts: map<Key, nat>, mine: set<Key>)
    ensures Named(DayListing(PublicTemplates(ts, p), program, date, counts, mine), Key(date, start))
            == EachOccurrence(MatchingTemplates(ts, Slot(p, date, start)), program, date, counts, mine)
  {
    var slot := Slot(p, date, start);
    if ts != [] {
      DayNames(ts[1..], p, program, date, start, counts, mine);
      var rest := PublicTemplates(ts[1..], p);
      var matching := MatchingTemplates(ts[1..], slot);
      var occurrence := OccurrenceFor(ts[0], program, date, counts, mine);
      if ts[0].program == p && ts[0].active {
        assert PublicTemplates(ts, p) == [ts[0]] + rest;
        assert PublicTemplates(ts, p)[1..] == rest;
        var head := if ts[0].weekday == Weekday(date) then [occurrence] else [];
        NamedConcat(head, DayListing(rest, program, date, counts, mine), Key(date, start));
        assert Named(head, Key(date, start)) == if Matches(ts[0], slot) then [occurrence] else [];
      } else {
        assert PublicTemplates(ts, p) == rest;
      }
      if Matches(ts[0], slot) {
        assert MatchingTemplates(ts, slot) == [ts[0]] + matching;
        assert MatchingTemplates(ts, slot)[1..] == matching;
      } else {
        assert MatchingTemplates(ts, slot) == matching;
      }
    }
  }

  lemma {:induction false} OtherDayNamesNothing(ts: seq<Template>, program: Program, date: int, key: Key,
                                                counts: map<Key, nat>, mine: set<Key>)
    requires key.date != date
    ensures Named(DayListing(ts, program, date, counts, mine), key) == []
  {
    if ts != [] {
      OtherDayNamesNothing(ts[1..], program, date, key, counts, mine);
      var head := if ts[0].weekday == Weekday(date) then [OccurrenceFor(ts[0], program, date, counts, mine)] else [];
      NamedConcat(head, DayListing(ts[1..], program, date, counts, mine), key);
    }
  }

  lemma {:induction false} WindowNames(ts: seq<Template>, p: nat, program: Program, first: int, days: nat, key: Key,
                                       counts: map<Key, nat>, mine: set<Key>)
    ensures Named(Listing(PublicTemplates(ts, p), program, first, days, counts, mine), key)
            == if first <= key.date < first + days
               then EachOccurrence(MatchingTemplates(ts, Slot(p, key.date, key.start)), program, key.date, counts, mine)
               else []
    decreases days
  {
    if days > 0 {
      var list := PublicTemplates(ts, p);
      var rest := Listing(list, program, first + 1, days - 1, counts, mine);
      NamedConcat(DayListing(list, program, first, counts, mine), rest, key);
      WindowNames(ts, p, program, first + 1, days - 1, key, counts, mine);
      if key.date == first {
        DayNames(ts, p, program, first, key.start, counts, mine);
      } else {
        OtherDayNamesNothing(list, program, first, key, counts, mine);
      }
    }
  }

  function EntriesFor(db: Db, slot: Slot, first: int, days: nat, user: nat): seq<Occurrence>
    requires days > 0
  {
    var view := GetAvailability(db, slot.program, first, days, Some(user));
    if view.Some? then Named(view.value, Key(slot.date, slot.start)) else []
  }

  /** What the listing says about one slot, in the booking's own terms. */
  lemma EntriesExplained(db: Db, slot: Slot, first: int, days: nat, user: nat)
    requires slot.program in db.cat.programs && db.cat.programs[slot.program].published
    requires first <= slot.date < first + days
    ensures var entries, found := EntriesFor(db, slot, first, days, user), MatchingTemplates(db.cat.templates, slot);
            && |entries| == |found|
            && (|found| == 1 ==>
                  && entries[0].capacity == CapacityOf(found[0], db.cat.programs[slot.program])
                  && entries[0].reservedCount == Count(db.rows, LiveInSlot(slot))
                  && (entries[0].canReserve <==> entries[0].reservedCount < entries[0].capacity)
                  && (entries[0].alreadyReserved <==> Holds(db.rows, user, slot)))
  {
    var last := first + days - 1;
    var counts := ReservationCounts(db.rows, slot.program, first, last);
    var mine := UserOccurrences(db.rows, slot.program, user, first, last);
    var program := db.cat.programs[slot.program];
    var found := MatchingTemplates(db.cat.templates, slot);
    assert Slot(slot.program, slot.date, slot.start) == slot;
    WindowNames(db.cat.templates, slot.program, program, first, days, Key(slot.date, slot.start), counts, mine);
    SameLength(found, program, slot.date, counts, mine);
    CountsAgree(db.rows, slot.program, first, last, slot.date, slot.start);
    HoldingAgrees(db.rows, slot.program, user, first, last, slot.date, slot.start);
    if |found| == 1 {
      StartsMatch(db.cat.templates, slot, 0);
    }
  }

  /** Attempt `j` has a free code, and up to then the session has not begun and the user holds a usable pass. */
  ghost predicate GetsToTry(db: Db, user: nat, slot: Slot, attempts: seq<Attempt>, j: nat) {
    && j < |attempts| && !CodeTaken(db.rows, attempts[j].code)
    && forall i :: 0 <= i <= j ==>
         StartOf(slot) > attempts[i].now && PickPass(db.passes, user, slot.program, attempts[i].now).Some?
  }

  lemma {:induction false} TriesUntilFree(db: Db, user: nat, slot: Slot, attempts: seq<Attempt>, k: nat, j: nat)
    requires |attempts| == RESERVATION_CODE_ATTEMPTS && k <= j && GetsToTry(db, user, slot, attempts, j)
    requires FindTemplate(db.cat, slot).Found?
    ensures var reply, full := Book(db, user, slot, attempts, k).reply,
                               Count(db.rows, LiveInSlot(slot)) >= FindTemplate(db.cat, slot).capacity;
            && (reply.Booked? <==> !Holds(db.rows, user, slot) && !full)
            && (reply == BookingRefused(DuplicateReservation) <==> Holds(db.rows, user, slot))
            && (reply == BookingRefused(CapacityFull) <==> !Holds(db.rows, user, slot) && full)
    decreases j - k
  {
    if k < j {
      TriesUntilFree(db, user, slot, attempts, k + 1, j);
    }
  }

  /**
   A slot of the window is listed once iff booking finds its template, not at all iff booking answers
   `template_not_found`, and more than once iff it answers `template_ambiguous`. When it is listed once, a user who gets
   to try a free code is booked iff the entry can be reserved and is not already theirs, is told of the duplicate iff it
   is, and of the full class otherwise.
   */
  lemma ListingPredictsBooking(db: Db, slot: Slot, first: int, days: nat, user: nat, attempts: seq<Attempt>)
    requires slot.program in db.cat.programs && db.cat.programs[slot.program].published
    requires first <= slot.date < first + days
    requires |attempts| == RESERVATION_CODE_ATTEMPTS
    ensures var entries := EntriesFor(db, slot, first, days, user);
            var reply := Book(db, user, slot, attempts, 0).reply;
            && (|entries| == 0 <==> reply == BookingRefused(TemplateNotFound))
            && (|entries| > 1 <==> reply == BookingRefused(TemplateAmbiguous))
            && (|entries| == 1 && (exists j: nat :: GetsToTry(db, user, slot, attempts, j)) ==>
                  && (reply.Booked? <==> entries[0].canReserve && !entries[0].alreadyReserved)
                  && (reply == BookingRefused(DuplicateReservation) <==> entries[0].alreadyReserved)
                  && (reply == BookingRefused(CapacityFull) <==> !entries[0].canReserve && !entries[0].alreadyReserved))
  {
    EntriesExplained(db, slot, first, days, user);
    LookupReplies(db, user, slot, attempts, 0);
    if FindTemplate(db.cat, slot).Found? && exists j: nat :: GetsToTry(db, user, slot, attempts, j) {
      var j: nat :| GetsToTry(db, user, slot, attempts, j);
      TriesUntilFree(db, user, slot, attempts, 0, j);
    }
  }

  /** Past the template lookup a booking never answers with a lookup refusal, retries included. */
  lemma {:induction false} LookupReplies(db: Db, user: nat, slot: Slot, attempts: seq<Attempt>, k: nat)
    requires |attempts| == RESERVATION_CODE_ATTEMPTS && k < |attempts|
    ensures var reply := Book(db, user, slot, attempts, k).reply;
            && (FindTemplate(db.cat, slot).NotFound? <==> reply == BookingRefused(TemplateNotFound))
            && (FindTemplate(db.cat, slot).Ambiguous? <==> reply == BookingRefused(TemplateAmbiguous))
    decreases |attempts| - k
  {
    if k + 1 < |attempts| {
      LookupReplies(db, user, slot, attempts, k + 1);
    }
  }

  lemma {:induction false} SameLength(ts: seq<Template>, program: Program, date: int, counts: map<Key, nat>, mine: set<Key>)
    ensures |EachOccurrence(ts, program, date, counts, mine)| == |ts|
  {
    if ts != [] {
      SameLength(ts[1..], program, date, counts, mine);
    }
  }

  lemma {:induction false} StartsMatch(ts: seq<Template>, slot: Slot, i: nat)
    requires i < |MatchingTemplates(ts, slot)|
    ensures Matches(MatchingTemplates(ts, slot)[i], slot)
  {
    if Matches(ts[0], slot) {
      assert MatchingTemplates(ts, slot) == [ts[0]] + MatchingTemplates(ts[1..], slot);
      if i > 0 {
        StartsMatch(ts[1..], slot, i - 1);
      }
    } else {
      assert MatchingTemplates(ts, slot) == MatchingTemplates(ts[1..], slot);
      StartsMatch(ts[1..], slot, i);
    }
  }
}
