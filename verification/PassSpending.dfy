/**
 Spending passes earliest-expiry first serves as many bookings as any other policy.

 One user's passes for one program, granted and requested at non-decreasing times. A policy may spend any
 usable pass, or none. Unlimited passes never run out.
 */
module PassSpending {
  import opened Wrappers
  import opened ClassData

  datatype Event = Granted(at: int, pass: Pass) | Requested(at: int)

  function At(passes: seq<Pass>, i: nat): seq<Pass>
    requires i < |passes|
  {
    passes[i := Spend(passes[i])]
  }

  /** Times never go back, and a pass is valid from its grant on. */
  predicate Timeline(events: seq<Event>, from: int, user: nat, program: nat) {
    events == [] ||
    (&& from <= events[0].at
     && (events[0].Granted? ==>
           && events[0].pass.user == user && events[0].pass.program == program
           && events[0].pass.validFrom <= events[0].at
           && (events[0].pass.remaining.Some? ==> events[0].pass.remaining.value >= 0))
     && Timeline(events[1..], events[0].at, user, program))
  }

  /** Bookings served by the order the repository uses. */
  function ServedEarliestFirst(passes: seq<Pass>, events: seq<Event>, user: nat, program: nat): nat
    decreases |events|
  {
    if events == [] then 0
    else match events[0]
      case Granted(_, pass) => ServedEarliestFirst(passes + [pass], events[1..], user, program)
      case Requested(now) =>
        (match PickPass(passes, user, program, now)
         case None => ServedEarliestFirst(passes, events[1..], user, program)
         case Some(p) => 1 + ServedEarliestFirst(At(passes, p), events[1..], user, program))
  }

  /** `choices` names the pass each request spends; it must be usable at that moment. */
  predicate Plays(passes: seq<Pass>, events: seq<Event>, choices: seq<Option<nat>>, user: nat, program: nat)
    decreases |events|
  {
    if events == [] then true
    else match events[0]
      case Granted(_, pass) => Plays(passes + [pass], events[1..], choices, user, program)
      case Requested(now) =>
        && choices != []
        && (match choices[0]
            case None => Plays(passes, events[1..], choices[1..], user, program)
            case Some(p) =>
              p < |passes| && Usable(passes[p], user, program, now)
              && Plays(At(passes, p), events[1..], choices[1..], user, program))
  }

  function ServedBy(passes: seq<Pass>, events: seq<Event>, choices: seq<Option<nat>>, user: nat, program: nat): nat
    requires Plays(passes, events, choices, user, program)
    decreases |events|
  {
    if events == [] then 0
    else match events[0]
      case Granted(_, pass) => ServedBy(passes + [pass], events[1..], choices, user, program)
      case Requested(now) =>
        (match choices[0]
         case None => ServedBy(passes, events[1..], choices[1..], user, program)
         case Some(p) => 1 + ServedBy(At(passes, p), events[1..], choices[1..], user, program))
  }

  // ---------- Credits that outlive a moment ----------

  /** Does the pass expire after `d`? `None` is the end of time, which nothing outlives. */
  predicate Outlives(p: Pass, d: Option<int>) {
    d.Some? && (p.expiresAt.None? || p.expiresAt.value > d.value)
  }

  function CreditsIn(p: Pass, d: Option<int>): int {
    if p.active && p.remaining.Some? && Outlives(p, d) then p.remaining.value else 0
  }

  function CreditsAfter(passes: seq<Pass>, d: Option<int>): int {
    if passes == [] then 0
    else CreditsAfter(passes[..|passes| - 1], d) + CreditsIn(passes[|passes| - 1], d)
  }

  lemma {:induction false} CreditsUpdate(passes: seq<Pass>, i: nat, p: Pass, d: Option<int>)
    requires i < |passes|
    ensures CreditsAfter(passes[i := p], d) == CreditsAfter(passes, d) - CreditsIn(passes[i], d) + CreditsIn(p, d)
  {
    var n := |passes| - 1;
    if i == n {
      assert passes[i := p][..n] == passes[..n];
    } else {
      CreditsUpdate(passes[..n], i, p, d);
      assert passes[i := p][..n] == passes[..n][i := p];
    }
  }

  lemma CreditsAppend(passes: seq<Pass>, p: Pass, d: Option<int>)
    ensures CreditsAfter(passes + [p], d) == CreditsAfter(passes, d) + CreditsIn(p, d)
  {
    assert (passes + [p])[..|passes|] == passes;
  }

  /** Every pass belongs to the account and holds no negative balance. */
  ghost predicate Account(passes: seq<Pass>, user: nat, program: nat, now: int) {
    forall i :: 0 <= i < |passes| ==>
      && passes[i].user == user && passes[i].program == program && passes[i].validFrom <= now
      && (passes[i].remaining.Some? ==> passes[i].remaining.value >= 0)
  }

  /** A later threshold counts no more credits; a pass that dies in between accounts for its own. */
  lemma {:induction false} CreditsFall(passes: seq<Pass>, now: int, d: Option<int>, i: nat)
    requires forall k :: 0 <= k < |passes| && passes[k].remaining.Some? ==> passes[k].remaining.value >= 0
    requires d.Some? ==> now <= d.value
    ensures CreditsAfter(passes, d) <= CreditsAfter(passes, Some(now))
    ensures i < |passes| && !Outlives(passes[i], d)
            ==> CreditsAfter(passes, d) + CreditsIn(passes[i], Some(now)) <= CreditsAfter(passes, Some(now))
    decreases |passes|
  {
    if passes != [] {
      var n := |passes| - 1;
      CreditsFall(passes[..n], now, d, i);
    }
  }

  /** If nothing usable is left, no finite credit outlives `now`. */
  lemma {:induction false} NoneUsable(passes: seq<Pass>, user: nat, program: nat, now: int)
    requires Account(passes, user, program, now)
    requires forall i :: 0 <= i < |passes| ==> !Usable(passes[i], user, program, now)
    ensures CreditsAfter(passes, Some(now)) == 0
  {
    if passes != [] {
      NoneUsable(passes[..|passes| - 1], user, program, now);
    }
  }

  /** If every usable pass outlives `d`, thresholds `now` and `d` count the same credits. */
  lemma {:induction false} AllOutlive(passes: seq<Pass>, user: nat, program: nat, now: int, d: Option<int>)
    requires Account(passes, user, program, now) && d.Some? && now <= d.value
    requires forall i :: 0 <= i < |passes| && Usable(passes[i], user, program, now) ==> Outlives(passes[i], d)
    ensures CreditsAfter(passes, d) == CreditsAfter(passes, Some(now))
  {
    if passes != [] {
      AllOutlive(passes[..|passes| - 1], user, program, now, d);
    }
  }

  // ---------- The exchange argument ----------

  /** No unlimited pass outlives `d`: from `d` on only finite credits matter. */
  ghost predicate NoUnlimitedAfter(passes: seq<Pass>, d: Option<int>) {
    forall i :: 0 <= i < |passes| && passes[i].active && passes[i].remaining.None? ==> !Outlives(passes[i], d)
  }

  /** The two accounts hold the same passes and may differ only in credits already spent. */
  ghost predicate SamePasses(ours: seq<Pass>, theirs: seq<Pass>) {
    && |ours| == |theirs|
    && forall i :: 0 <= i < |ours| ==> SamePassTerms(ours[i], theirs[i])
  }

  /** Served so far plus credits outliving `d`: ours is at least theirs, for every `d` from `now` on. */
  ghost predicate Ahead(ours: seq<Pass>, n: nat, theirs: seq<Pass>, m: nat, now: int) {
    forall d: Option<int> :: (d.Some? ==> now <= d.value) && NoUnlimitedAfter(ours, d)
      ==> n + CreditsAfter(ours, d) >= m + CreditsAfter(theirs, d)
  }

  ghost predicate Leading(ours: seq<Pass>, n: nat, theirs: seq<Pass>, m: nat, user: nat, program: nat, now: int) {
    && Account(ours, user, program, now) && Account(theirs, user, program, now)
    && SamePasses(ours, theirs) && Ahead(ours, n, theirs, m, now)
  }

  lemma LeadingServed(ours: seq<Pass>, n: nat, theirs: seq<Pass>, m: nat, user: nat, program: nat, now: int)
    requires Leading(ours, n, theirs, m, user, program, now)
    ensures n >= m
  {
    NothingOutlivesForever(ours);
    NothingOutlivesForever(theirs);
    assert NoUnlimitedAfter(ours, None);
  }

  lemma {:induction false} NothingOutlivesForever(passes: seq<Pass>)
    ensures CreditsAfter(passes, None) == 0
  {
    if passes != [] {
      NothingOutlivesForever(passes[..|passes| - 1]);
    }
  }

  lemma LeadingLater(ours: seq<Pass>, n: nat, theirs: seq<Pass>, m: nat, user: nat, program: nat, now: int, later: int)
    requires Leading(ours, n, theirs, m, user, program, now) && now <= later
    ensures Leading(ours, n, theirs, m, user, program, later)
  {
  }

  lemma GrantLeads(ours: seq<Pass>, n: nat, theirs: seq<Pass>, m: nat, user: nat, program: nat, now: int, pass: Pass)
    requires Leading(ours, n, theirs, m, user, program, now)
    requires Account([pass], user, program, now)
    ensures Leading(ours + [pass], n, theirs + [pass], m, user, program, now)
  {
    assert [pass][0] == pass;
    forall d: Option<int> | (d.Some? ==> now <= d.value) && NoUnlimitedAfter(ours + [pass], d)
      ensures n + CreditsAfter(ours + [pass], d) >= m + CreditsAfter(theirs + [pass], d)
    {
      assert forall i :: 0 <= i < |ours| ==> (ours + [pass])[i] == ours[i];
      assert NoUnlimitedAfter(ours, d);
      CreditsAppend(ours, pass, d);
      CreditsAppend(theirs, pass, d);
    }
  }

  function SpendMaybe(passes: seq<Pass>, choice: Option<nat>): seq<Pass>
    requires choice.Some? ==> choice.value < |passes|
  {
    if choice.Some? then At(passes, choice.value) else passes
  }

  function One(choice: Option<nat>): nat {
    if choice.Some? then 1 else 0
  }

  lemma SpendKeepsAccount(passes: seq<Pass>, choice: Option<nat>, user: nat, program: nat, now: int)
    requires Account(passes, user, program, now)
    requires choice.Some? ==> choice.value < |passes| && Usable(passes[choice.value], user, program, now)
    ensures Account(SpendMaybe(passes, choice), user, program, now) && SamePasses(passes, SpendMaybe(passes, choice))
  {
  }

  lemma RequestLeads(ours: seq<Pass>, n: nat, theirs: seq<Pass>, m: nat, user: nat, program: nat, now: int,
                     choice: Option<nat>)
    requires Leading(ours, n, theirs, m, user, program, now)
    requires choice.Some? ==> choice.value < |theirs| && Usable(theirs[choice.value], user, program, now)
    ensures var pick := PickPass(ours, user, program, now);
            Leading(SpendMaybe(ours, pick), n + One(pick), SpendMaybe(theirs, choice), m + One(choice), user, program, now)
  {
    var pick := PickPass(ours, user, program, now);
    SpendKeepsAccount(ours, pick, user, program, now);
    SpendKeepsAccount(theirs, choice, user, program, now);
    assert SamePasses(SpendMaybe(ours, pick), SpendMaybe(theirs, choice)) by {
      SamePassesChain(SpendMaybe(ours, pick), ours, theirs, SpendMaybe(theirs, choice));
    }
    forall d: Option<int> | (d.Some? ==> now <= d.value) && NoUnlimitedAfter(SpendMaybe(ours, pick), d)
      ensures n + One(pick) + CreditsAfter(SpendMaybe(ours, pick), d)
              >= m + One(choice) + CreditsAfter(SpendMaybe(theirs, choice), d)
    {
      SameUnlimited(ours, pick, d);
      RequestLeadsAt(ours, n, theirs, m, user, program, now, choice, d);
    }
  }

  lemma SamePassesChain(a: seq<Pass>, b: seq<Pass>, c: seq<Pass>, d: seq<Pass>)
    requires SamePasses(b, a) && SamePasses(b, c) && SamePasses(c, d)
    ensures SamePasses(a, d)
  {
  }

  lemma SameUnlimited(passes: seq<Pass>, choice: Option<nat>, d: Option<int>)
    requires choice.Some? ==> choice.value < |passes|
    requires NoUnlimitedAfter(SpendMaybe(passes, choice), d)
    ensures NoUnlimitedAfter(passes, d)
  {
    var after := SpendMaybe(passes, choice);
    assert forall i :: 0 <= i < |passes| ==> SamePassTerms(after[i], passes[i]);
  }

  /** What spending pass `i` does to the score at threshold `d`: it falls by one only if the pass is dead by then. */
  lemma SpendScore(passes: seq<Pass>, i: nat, d: Option<int>)
    requires i < |passes| && passes[i].active && NoUnlimitedAfter(passes, d)
    ensures CreditsAfter(At(passes, i), d) == CreditsAfter(passes, d) - if Outlives(passes[i], d) then 1 else 0
  {
    CreditsUpdate(passes, i, Spend(passes[i]), d);
  }

  lemma RequestLeadsAt(ours: seq<Pass>, n: nat, theirs: seq<Pass>, m: nat, user: nat, program: nat, now: int,
                       choice: Option<nat>, d: Option<int>)
    requires Leading(ours, n, theirs, m, user, program, now)
    requires choice.Some? ==> choice.value < |theirs| && Usable(theirs[choice.value], user, program, now)
    requires (d.Some? ==> now <= d.value) && NoUnlimitedAfter(ours, d)
    ensures var pick := PickPass(ours, user, program, now);
            n + One(pick) + CreditsAfter(SpendMaybe(ours, pick), d)
            >= m + One(choice) + CreditsAfter(SpendMaybe(theirs, choice), d)
  {
    var pick := PickPass(ours, user, program, now);
    assert NoUnlimitedAfter(theirs, d);
    if choice.Some? {
      SpendScore(theirs, choice.value, d);
    }
    if pick.Some? {
      SpendScore(ours, pick.value, d);
    }
    // Their score rises by one exactly when they spend a pass dead by `d`; ours then rises too,
    // unless our earliest pass outlives `d` or we have none: then theirs was behind at `now` already.
    if choice.Some? && !Outlives(theirs[choice.value], d) && (pick.None? || Outlives(ours[pick.value], d)) {
      SlackAtNow(ours, n, theirs, m, user, program, now, choice.value, d);
    }
  }

  lemma SlackAtNow(ours: seq<Pass>, n: nat, theirs: seq<Pass>, m: nat, user: nat, program: nat, now: int,
                   c: nat, d: Option<int>)
    requires Leading(ours, n, theirs, m, user, program, now)
    requires c < |theirs| && Usable(theirs[c], user, program, now) && !Outlives(theirs[c], d)
    requires (d.Some? ==> now <= d.value) && NoUnlimitedAfter(ours, d)
    requires var pick := PickPass(ours, user, program, now); pick.None? || Outlives(ours[pick.value], d)
    ensures n + CreditsAfter(ours, d) >= m + CreditsAfter(theirs, d) + 1
  {
    var pick := PickPass(ours, user, program, now);
    assert NoUnlimitedAfter(ours, Some(now)) by {
      forall i | 0 <= i < |ours| && ours[i].active && ours[i].remaining.None? ensures !Outlives(ours[i], Some(now)) {
        if Outlives(ours[i], Some(now)) {
          assert Usable(ours[i], user, program, now);
          assert pick.Some?;
          assert pick.value == i || Before(ours, pick.value, i);
          assert Outlives(ours[i], d);
        }
      }
    }
    CreditsFall(theirs, now, d, c);
    assert theirs[c].remaining.Some?;
    if pick.None? {
      NoneUsable(ours, user, program, now);
      CreditsNonNegative(ours, d);
    } else {
      forall i | 0 <= i < |ours| && Usable(ours[i], user, program, now) ensures Outlives(ours[i], d) {
        assert i == pick.value || Before(ours, pick.value, i);
      }
      AllOutlive(ours, user, program, now, d);
    }
  }

  lemma {:induction false} CreditsNonNegative(passes: seq<Pass>, d: Option<int>)
    requires forall k :: 0 <= k < |passes| && passes[k].remaining.Some? ==> passes[k].remaining.value >= 0
    ensures CreditsAfter(passes, d) >= 0
  {
    if passes != [] {
      CreditsNonNegative(passes[..|passes| - 1], d);
    }
  }

  lemma {:induction false} StaysAhead(ours: seq<Pass>, n: nat, theirs: seq<Pass>, m: nat, user: nat, program: nat,
                                      now: int, events: seq<Event>, choices: seq<Option<nat>>)
    requires Leading(ours, n, theirs, m, user, program, now)
    requires Timeline(events, now, user, program) && Plays(theirs, events, choices, user, program)
    ensures n + ServedEarliestFirst(ours, events, user, program)
            >= m + ServedBy(theirs, events, choices, user, program)
    decreases |events|
  {
    if events == [] {
      LeadingServed(ours, n, theirs, m, user, program, now);
    } else {
      var at, rest := events[0].at, events[1..];
      LeadingLater(ours, n, theirs, m, user, program, now, at);
      match events[0] {
        case Granted(_, pass) =>
          GrantLeads(ours, n, theirs, m, user, program, at, pass);
          StaysAhead(ours + [pass], n, theirs + [pass], m, user, program, at, rest, choices);
        case Requested(_) =>
          var pick, choice := PickPass(ours, user, program, at), choices[0];
          RequestLeads(ours, n, theirs, m, user, program, at, choice);
          StaysAhead(SpendMaybe(ours, pick), n + One(pick), SpendMaybe(theirs, choice), m + One(choice),
                     user, program, at, rest, choices[1..]);
      }
    }
  }

  /** From any account, over any timeline, no policy serves more bookings than earliest-expiry first. */
  lemma EarliestFirstIsOptimal(passes: seq<Pass>, user: nat, program: nat, now: int,
                               events: seq<Event>, choices: seq<Option<nat>>)
    requires Account(passes, user, program, now)
    requires Timeline(events, now, user, program) && Plays(passes, events, choices, user, program)
    ensures ServedEarliestFirst(passes, events, user, program) >= ServedBy(passes, events, choices, user, program)
  {
    StaysAhead(passes, 0, passes, 0, user, program, now, events, choices);
  }
}
