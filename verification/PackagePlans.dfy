/**
 Class packages: what the request parsers accept, what the table's `class_packages_shape_chk` accepts, and the
 pass a sold package becomes.
 */
module PackagePlans {
  import opened Wrappers
  import opened ClassData
  import BookingSteps

  datatype PackageKind = DropIn | Pack | Unlimited

  /** A field of the request body: left out, `null`, something `Number` reads as a number, or anything else. */
  datatype Field = Absent | Null | Numeric(n: real) | NotANumber

  /** `kind` is `None` when left out and `Some(None)` when it is not one of the three names. */
  datatype Body = Body(kind: Option<Option<PackageKind>>, credits: Field, validityDays: Field)

  datatype Plan = Plan(kind: PackageKind, credits: Option<int>, validityDays: Option<int>)
  datatype Parsed<T> = Accepted(value: T) | Rejected

  function PositiveInt(f: Field): Parsed<int> {
    if f.Numeric? && f.n == f.n.Floor as real && f.n > 0.0 then Accepted(f.n.Floor) else Rejected
  }

  function ParsePackagePlan(body: Body): Parsed<Plan> {
    if body.kind.None? || body.kind.value.None? then Rejected
    else
      var kind := body.kind.value.value;
      var credits := match kind
        case DropIn => Accepted(Some(1))
        case Unlimited => Accepted(None)
        case Pack =>
          var n := PositiveInt(body.credits);
          if n.Rejected? then Rejected else Accepted(Some(n.value));
      var days := if body.validityDays.Absent? || body.validityDays.Null? then Accepted(None)
        else
          var n := PositiveInt(body.validityDays);
          if n.Rejected? then Rejected else Accepted(Some(n.value));
      if credits.Rejected? || days.Rejected? || (kind.Unlimited? && days.value.None?) then Rejected
      else Accepted(Plan(kind, credits.value, days.value))
  }

  /** The plan part of an update: `kind`, `credits` and `validityDays` change together or not at all. */
  function ParsePackageUpdate(body: Body): Parsed<Option<Plan>> {
    if body.kind.None? then Accepted(None)
    else
      var plan := ParsePackagePlan(body);
      if plan.Rejected? then Rejected else Accepted(Some(plan.value))
  }

  /** The `UPDATE`: `kind` is coalesced, the other two are replaced, with null where the plan has none. */
  function UpdatePackage(row: Plan, plan: Option<Plan>): Plan {
    Plan(if plan.Some? then plan.value.kind else row.kind,
         if plan.Some? then plan.value.credits else row.credits,
         if plan.Some? then plan.value.validityDays else row.validityDays)
  }

  /** The largest value of an `integer` column. */
  const INT4_MAX := 2147483647

  predicate ShapeCheck(p: Plan) {
    && (p.credits.Some? ==> p.credits.value > 0)
    && (p.validityDays.Some? ==> p.validityDays.value > 0)
    && (match p.kind
        case DropIn => p.credits == Some(1)
        case Pack => p.credits.Some? && p.credits.value > 1
        case Unlimited => p.credits.None? && p.validityDays.Some?)
  }

  predicate ColumnHolds(n: Option<int>) {
    n.Some? ==> -INT4_MAX - 1 <= n.value <= INT4_MAX
  }

  /** What `class_packages` stores: the columns hold the numbers, and the row passes the table's checks. */
  predicate Storable(p: Plan) {
    ColumnHolds(p.credits) && ColumnHolds(p.validityDays) && ShapeCheck(p)
  }

  /** The parser accepts a pack of one credit; the table does not. */
  predicate SingleCreditPack(body: Body) {
    body.kind == Some(Some(Pack)) && body.credits == Numeric(1.0)
  }

  /** The parser has no upper bound; the columns do. The credits of a body are read only for a pack. */
  predicate TooLarge(body: Body) {
    || (body.kind == Some(Some(Pack)) && body.credits.Numeric? && body.credits.n > INT4_MAX as real)
    || (body.kind.Some? && body.validityDays.Numeric? && body.validityDays.n > INT4_MAX as real)
  }

  lemma WholeNumbers(n: real)
    requires n == n.Floor as real
    ensures n > 0.0 <==> n.Floor > 0
    ensures n.Floor == 1 <==> n == 1.0
    ensures n > INT4_MAX as real <==> n.Floor > INT4_MAX
  {
  }

  /** Whatever package the parser accepts, the table stores, unless it is a pack of one credit or too large a number. */
  lemma AcceptedPlanIsStored(body: Body)
    requires ParsePackagePlan(body).Accepted?
    ensures Storable(ParsePackagePlan(body).value) <==> !SingleCreditPack(body) && !TooLarge(body)
  {
    if body.credits.Numeric? && body.credits.n == body.credits.n.Floor as real {
      WholeNumbers(body.credits.n);
    }
    if body.validityDays.Numeric? && body.validityDays.n == body.validityDays.n.Floor as real {
      WholeNumbers(body.validityDays.n);
    }
  }

  /** The same for an update, whatever the row was before: no mixture of old and new plan is ever refused. */
  lemma AcceptedUpdateIsStored(row: Plan, body: Body)
    requires Storable(row) && ParsePackageUpdate(body).Accepted?
    ensures var updated := UpdatePackage(row, ParsePackageUpdate(body).value);
            && (Storable(updated) <==> !SingleCreditPack(body) && !TooLarge(body))
            && (body.kind.None? ==> updated == row)
            && (body.kind.Some? ==> updated == ParsePackagePlan(body).value)
  {
    if body.kind.Some? {
      AcceptedPlanIsStored(body);
    }
  }

  /** Three thousand million credits are accepted and not stored. */
  lemma AcceptedTooLarge()
    ensures var body := Body(Some(Some(Pack)), Numeric(3000000000.0), Absent);
            && ParsePackagePlan(body) == Accepted(Plan(Pack, Some(3000000000), None)) && !SingleCreditPack(body)
            && !Storable(ParsePackagePlan(body).value)
  {
    assert 3000000000.0.Floor == 3000000000;
  }

  // ---------- The pass of a sold package ----------

  /** A `Date` ends 100 million days after 1970-01-01 in UTC, six hours ahead of Honduras' clock. */
  const LAST_INSTANT := 100000000 * DAY - 6 * HOUR

  /** `addDays`: no date when it lies past the last one. */
  function AddDays(from: int, days: int): Option<int> {
    if from + days * DAY > LAST_INSTANT then None else Some(from + days * DAY)
  }

  /** The pass minted for a sold package. An end date that is no date fails the insert, and nothing is minted. */
  function PassFor(p: Plan, user: nat, program: nat, now: int): Option<Pass> {
    var credits := if p.kind.Unlimited? then None else p.credits;
    if p.validityDays.Some? && p.validityDays.value != 0 then
      var end := AddDays(now, p.validityDays.value);
      if end.None? then None else Some(Pass(user, program, credits, credits, now, end, now, true))
    else Some(Pass(user, program, credits, credits, now, None, now, true))
  }

  /**
   A sold package becomes a pass unless its last day lies past the last date there is. That pass may enter the booking
   engine at any time, is usable at once, and if it is unlimited it expires: the only passes that never run out do end.
   */
  lemma SoldPassIsSound(p: Plan, user: nat, program: nat, now: int, s: BookingSteps.State)
    requires Storable(p)
    ensures PassFor(p, user, program, now).Some?
            <==> (p.validityDays.Some? ==> p.validityDays.value <= (LAST_INSTANT - now) / DAY)
    ensures PassFor(p, user, program, now).Some? ==>
              var pass := PassFor(p, user, program, now).value;
              && BookingSteps.StepOk(s, BookingSteps.Grant(pass))
              && Usable(pass, user, program, now)
              && (pass.total.None? <==> p.kind.Unlimited?)
              && (pass.total.None? ==> pass.expiresAt.Some? && pass.expiresAt.value >= now + DAY)
  {
  }

  /** A package valid for a hundred million days is accepted, stored and sold, and never becomes a pass. */
  lemma SoldForNothing(user: nat, program: nat, now: int)
    requires now > 0
    ensures var body := Body(Some(Some(Pack)), Numeric(10.0), Numeric(100000000.0));
            && ParsePackagePlan(body).Accepted? && Storable(ParsePackagePlan(body).value)
            && PassFor(ParsePackagePlan(body).value, user, program, now).None?
  {
    assert 10.0.Floor == 10 && 100000000.0.Floor == 100000000;
  }
}
