/** The balance a user is shown against what booking will actually do. */
module ClassBalance {
  import opened Wrappers
  import opened ClassData
  import opened BookingSteps
  import opened ClassProgramsRepository

  /** One grouped row of the balance query: absent, `credits_remaining` null, or the sum. */
  datatype Balance = NoRow | Unlimited | Credits(n: int)

  predicate AnyUsable(passes: seq<Pass>, user: nat, program: nat, now: int) {
    exists i :: 0 <= i < |passes| && Usable(passes[i], user, program, now)
  }

  predicate AnyUnlimited(passes: seq<Pass>, user: nat, program: nat, now: int) {
    exists i :: 0 <= i < |passes| && Usable(passes[i], user, program, now) && passes[i].remaining.None?
  }

  function CreditsOf(p: Pass, user: nat, program: nat, now: int): (n: int)
    ensures n >= 0
  {
    if Usable(p, user, program, now) && p.remaining.Some? then p.remaining.value else 0
  }

  function UsableCredits(passes: seq<Pass>, user: nat, program: nat, now: int): (n: int)
    ensures n >= 0
  {
    if passes == [] then 0
    else UsableCredits(passes[..|passes| - 1], user, program, now) + CreditsOf(passes[|passes| - 1], user, program, now)
  }

  function BalanceOf(db: Db, user: nat, program: nat, now: int): Balance {
    if program !in db.cat.programs || !db.cat.programs[program].published then NoRow
    else if !AnyUsable(db.passes, user, program, now) then NoRow
    else if AnyUnlimited(db.passes, user, program, now) then Unlimited
    else Credits(UsableCredits(db.passes, user, program, now))
  }

  lemma {:induction false} CreditsUpdated(passes: seq<Pass>, i: nat, p: Pass, user: nat, program: nat, now: int)
    requires i < |passes|
    ensures UsableCredits(passes[i := p], user, program, now)
            == UsableCredits(passes, user, program, now) - CreditsOf(passes[i], user, program, now)
               + CreditsOf(p, user, program, now)
  {
    var n := |passes| - 1;
    if i == n {
      assert passes[i := p][..n] == passes[..n];
    } else {
      CreditsUpdated(passes[..n], i, p, user, program, now);
      assert passes[i := p][..n] == passes[..n][i := p];
    }
  }

  lemma {:induction false} CreditsPositive(passes: seq<Pass>, i: nat, user: nat, program: nat, now: int)
    requires i < |passes|
    ensures UsableCredits(passes, user, program, now) >= CreditsOf(passes[i], user, program, now)
  {
    var n := |passes| - 1;
    if i < n {
      CreditsPositive(passes[..n], i, user, program, now);
    }
  }

  lemma {:induction false} NoCreditsWhenNoneUsable(passes: seq<Pass>, user: nat, program: nat, now: int)
    requires !AnyUsable(passes, user, program, now)
    ensures UsableCredits(passes, user, program, now) == 0
  {
    if passes != [] {
      var n := |passes| - 1;
      assert forall i :: 0 <= i < n ==> passes[..n][i] == passes[i];
      NoCreditsWhenNoneUsable(passes[..n], user, program, now);
    }
  }

  // ---------- A streak of bookings ----------

  predicate Open(db: Db, user: nat, slot: Slot, now: int) {
    && FindTemplate(db.cat, slot).Found? && StartOf(slot) > now
    && !Holds(db.rows, user, slot)
    && Count(db.rows, LiveInSlot(slot)) < FindTemplate(db.cat, slot).capacity
  }

  function Tries(now: int, code: string): (attempts: seq<Attempt>)
    ensures |attempts| == RESERVATION_CODE_ATTEMPTS
  {
    seq(RESERVATION_CODE_ATTEMPTS, _ => Attempt(now, code))
  }

  function BookEach(db: Db, user: nat, slots: seq<Slot>, codes: seq<string>, now: int): (replies: seq<Reply>)
    requires |codes| == |slots|
    ensures |replies| == |slots|
    decreases |slots|
  {
    if slots == [] then []
    else
      var r := Book(db, user, slots[0], Tries(now, codes[0]), 0);
      [r.reply] + BookEach(r.db, user, slots[1..], codes[1..], now)
  }

  /** Distinct open slots of one program, and codes nobody holds. */
  ghost predicate Bookable(db: Db, user: nat, program: nat, slots: seq<Slot>, codes: seq<string>, now: int) {
    && |codes| == |slots|
    && (forall i :: 0 <= i < |slots| ==> slots[i].program == program && Open(db, user, slots[i], now))
    && (forall i :: 0 <= i < |slots| ==> !CodeTaken(db.rows, codes[i]))
    && (forall i, j :: 0 <= i < j < |slots| ==> slots[i] != slots[j] && codes[i] != codes[j])
  }

  /** How many bookings the shown balance promises; none means no limit. */
  function Promised(b: Balance): Option<int> {
    match b case NoRow => Some(0) case Unlimited => None case Credits(n) => Some(n)
  }

  ghost predicate SpendsSomePass(db: Db, user: nat, slot: Slot, code: string, now: int, db': Db)
    requires FindTemplate(db.cat, slot).Found?
  {
    exists p :: 0 <= p < |db.passes| && Usable(db.passes[p], user, slot.program, now)
                && db' == Insertion(db, user, FindTemplate(db.cat, slot).provider, slot, p, code)
  }

  lemma FirstBooking(db: Db, user: nat, slot: Slot, code: string, now: int)
    requires Open(db, user, slot, now) && !CodeTaken(db.rows, code)
    ensures var r := Book(db, user, slot, Tries(now, code), 0); var b := BalanceOf(db, user, slot.program, now);
            && (b == NoRow ==> r == Result(db, BookingRefused(PassNotFound)))
            && (b != NoRow ==> r.reply.Booked? && SpendsSomePass(db, user, slot, code, now, r.db))
  {
    var pick := PickPass(db.passes, user, slot.program, now);
    assert AnyUsable(db.passes, user, slot.program, now) <==> pick.Some?;
    if pick.Some? {
      assert Book(db, user, slot, Tries(now, code), 0).db
             == Insertion(db, user, FindTemplate(db.cat, slot).provider, slot, pick.value, code);
    }
  }

  lemma BalanceAfter(db: Db, user: nat, slot: Slot, provider: nat, p: nat, code: string, now: int)
    requires p < |db.passes| && Usable(db.passes[p], user, slot.program, now)
    ensures var db', program := Insertion(db, user, provider, slot, p, code), slot.program;
            var b, b' := Promised(BalanceOf(db, user, program, now)), Promised(BalanceOf(db', user, program, now));
            b != Some(0) ==> b' == if b.None? then None else Some(b.value - 1)
  {
    var program := slot.program;
    var db' := Insertion(db, user, provider, slot, p, code);
    var ours, after := db.passes, db'.passes;
    CreditsUpdated(ours, p, Spend(ours[p]), user, program, now);
    if AnyUnlimited(ours, user, program, now) {
      var i :| 0 <= i < |ours| && Usable(ours[i], user, program, now) && ours[i].remaining.None?;
      assert Usable(after[i], user, program, now) && after[i].remaining.None?;
    } else {
      assert !AnyUnlimited(after, user, program, now) by {
        forall i | 0 <= i < |after| ensures !(Usable(after[i], user, program, now) && after[i].remaining.None?) {
          assert !(Usable(ours[i], user, program, now) && ours[i].remaining.None?);
        }
      }
      assert ours[p].remaining.Some?;
      CreditsPositive(ours, p, user, program, now);
      if !AnyUsable(after, user, program, now) {
        NoCreditsWhenNoneUsable(after, user, program, now);
      }
    }
  }

  lemma StillBookable(db: Db, user: nat, program: nat, slots: seq<Slot>, codes: seq<string>, now: int,
                      provider: nat, p: nat)
    requires slots != [] && Bookable(db, user, program, slots, codes, now) && p < |db.passes|
    ensures Bookable(Insertion(db, user, provider, slots[0], p, codes[0]), user, program, slots[1..], codes[1..], now)
  {
    var db' := Insertion(db, user, provider, slots[0], p, codes[0]);
    var r := NewReservation(user, provider, slots[0], p, codes[0]);
    forall i | 0 <= i < |slots[1..]|
      ensures slots[1..][i].program == program && Open(db', user, slots[1..][i], now)
              && !CodeTaken(db'.rows, codes[1..][i])
    {
      var slot, code := slots[i + 1], codes[i + 1];
      assert Open(db, user, slot, now) && !CodeTaken(db.rows, code) && slots[0] != slot && codes[0] != code;
      CountAppend(db.rows, r, LiveInSlot(slot));
      forall k | 0 <= k < |db'.rows| ensures !HoldsAt(db'.rows[k], user, slot) && db'.rows[k].code != code {
        assert k < |db.rows| ==> !HoldsAt(db.rows[k], user, slot) && db.rows[k].code != code;
      }
    }
  }

  /**
   A shown balance of n books exactly the first n of any list of distinct open slots and refuses the rest for
   lack of a pass; an unlimited balance books them all; no row refuses the first.
   */
  lemma {:induction false} ShownBalanceIsExact(db: Db, user: nat, program: nat, slots: seq<Slot>, codes: seq<string>,
                                               now: int, k: nat)
    requires Bookable(db, user, program, slots, codes, now) && k < |slots|
    ensures var b := Promised(BalanceOf(db, user, program, now));
            var reply := BookEach(db, user, slots, codes, now)[k];
            if b.None? || k < b.value then reply.Booked? else reply == BookingRefused(PassNotFound)
    decreases |slots|
  {
    var b := BalanceOf(db, user, program, now);
    assert Open(db, user, slots[0], now) && !CodeTaken(db.rows, codes[0]);
    FirstBooking(db, user, slots[0], codes[0], now);
    var r := Book(db, user, slots[0], Tries(now, codes[0]), 0);
    BalanceNotZero(db, user, program, now);
    if k > 0 {
      if b == NoRow {
        assert Bookable(db, user, program, slots[1..], codes[1..], now);
      } else {
        var provider := FindTemplate(db.cat, slots[0]).provider;
        var p :| 0 <= p < |db.passes| && Usable(db.passes[p], user, program, now)
              && r.db == Insertion(db, user, provider, slots[0], p, codes[0]);
        BalanceAfter(db, user, slots[0], provider, p, codes[0], now);
        StillBookable(db, user, program, slots, codes, now, provider, p);
      }
      ShownBalanceIsExact(r.db, user, program, slots[1..], codes[1..], now, k - 1);
    }
  }

  lemma BalanceNotZero(db: Db, user: nat, program: nat, now: int)
    ensures BalanceOf(db, user, program, now).Credits? ==> BalanceOf(db, user, program, now).n > 0
  {
    var passes := db.passes;
    if AnyUsable(passes, user, program, now) && !AnyUnlimited(passes, user, program, now) {
      var i :| 0 <= i < |passes| && Usable(passes[i], user, program, now);
      CreditsPositive(passes, i, user, program, now);
    }
  }
}
