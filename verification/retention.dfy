/**
 * Retention curves: the fraction of an install cohort still active at a given
 * age in days (age 1 is the install day itself).
 *
 * Two families are modelled: the piecewise-linear curve read off a sparse
 * table of known points, and the exponential curves of the two new
 * acquisition sources.
 */
module Retention {
  import opened Outcomes

  /** Known retention points, as `{day: fraction}`. */
  type RetentionTable = map<int, real>

  /** A nonnegative real, the range of the exponential function. */
  type NonNegReal = x: real | 0.0 <= x

  /** Why a table lookup fails where the original code raises an exception. */
  datatype RetentionError =
    | EmptyTable        // the largest known day of an empty table is looked up
    | SingleKnownDay    // extrapolation needs the second-largest known day
    | NoKnownDayBefore  // interpolation needs a known day below the requested one

  ghost predicate IsLargest(d: int, keys: set<int>)
  {
    d in keys && forall k :: k in keys ==> k <= d
  }

  ghost predicate IsSmallest(d: int, keys: set<int>)
  {
    d in keys && forall k :: k in keys ==> d <= k
  }

  /** Some element of a nonempty key set. */
  ghost function AnyKey(keys: set<int>): (x: int)
    requires keys != {}
    ensures x in keys
  {
    // `keys != {}` does not by itself hand the solver a member of `keys`;
    // ruling out the empty case explicitly gives the such-that its witness.
    assert exists k :: k in keys by {
      if forall k :: k !in keys {
        assert false;
      }
    }
    var x :| x in keys;
    x
  }

  /** The last element of the sorted key list. */
  ghost function LargestKey(keys: set<int>): (d: int)
    requires keys != {}
    ensures IsLargest(d, keys)
  {
    var x := AnyKey(keys);
    var rest := keys - {x};
    assert forall k :: k in keys ==> k in rest || k == x;
    if rest == {} then x
    else
      var m := LargestKey(rest);
      if x < m then m else x
  }

  /** The first element of the sorted key list. */
  ghost function SmallestKey(keys: set<int>): (d: int)
    requires keys != {}
    ensures IsSmallest(d, keys)
  {
    var x := AnyKey(keys);
    var rest := keys - {x};
    assert forall k :: k in keys ==> k in rest || k == x;
    if rest == {} then x
    else
      var m := SmallestKey(rest);
      if m < x then m else x
  }

  /** The known days strictly before `day`. */
  ghost function KnownDaysBefore(points: RetentionTable, day: int): set<int>
  {
    set d | d in points && d < day
  }

  /** The known days strictly after `day`. */
  ghost function KnownDaysAfter(points: RetentionTable, day: int): set<int>
  {
    set d | d in points && day < d
  }

  function Max(a: real, b: real): real
  {
    if a < b then b else a
  }

  function Min(a: real, b: real): real
  {
    if a < b then a else b
  }

  /**
   * The straight line through `(d1, r1)` and `(d2, r2)`, evaluated at `day`.
   * Between the two points it stays between their values, and it passes
   * through both of them.
   */
  function Interpolate(d1: int, r1: real, d2: int, r2: real, day: int): (r: real)
    requires d1 < d2
    ensures d1 <= day <= d2 ==> Min(r1, r2) <= r <= Max(r1, r2)
    ensures day == d1 ==> r == r1
    ensures day == d2 ==> r == r2
  {
    var slope := (r2 - r1) / (d2 - d1) as real;
    var t := (day - d1) as real / (d2 - d1) as real;
    assert slope * (day - d1) as real == (r2 - r1) * t;
    r1 + slope * (day - d1) as real
  }

  /**
   * The line through the two last known points continued to `day`, clamped
   * below at 0.0: it is the interpolating line wherever that line is
   * nonnegative, and 0.0 elsewhere. No upper clamp is applied.
   */
  function Extrapolate(d1: int, r1: real, d2: int, r2: real, day: int): (r: real)
    requires d1 < d2
    ensures 0.0 <= r
    ensures 0.0 <= Interpolate(d1, r1, d2, r2, day) ==> r == Interpolate(d1, r1, d2, r2, day)
    ensures Interpolate(d1, r1, d2, r2, day) < 0.0 ==> r == 0.0
  {
    var slope := (r2 - r1) / (d2 - d1) as real;
    Max(0.0, r2 + slope * (day - d2) as real)
  }

  /** True when every known day precedes `day`, so that the curve is extrapolated. */
  ghost predicate BeyondKnownDays(points: RetentionTable, day: int)
  {
    forall k :: k in points ==> k < day
  }

  /** The two largest known days `(d1, d2)`: `known_days[-2]` and `known_days[-1]`. */
  ghost function LastTwoKnownDays(points: RetentionTable): (d: (int, int))
    requires |points| >= 2
    ensures d.0 in points && d.1 in points && d.0 < d.1
    ensures forall k :: k in points ==> k == d.1 || k <= d.0
  {
    var last := LargestKey(points.Keys);
    assert |points.Keys - {last}| == |points.Keys| - 1;
    (LargestKey(points.Keys - {last}), last)
  }

  /**
   * The nearest known days on either side of `day`: the largest known day
   * below it and the smallest known day above it. No known day lies strictly
   * between them other than `day` itself.
   */
  ghost function NearestKnownDays(points: RetentionTable, day: int): (d: (int, int))
    requires KnownDaysBefore(points, day) != {} && KnownDaysAfter(points, day) != {}
    ensures d.0 in points && d.1 in points && d.0 < day < d.1
    ensures forall k :: k in points ==> k <= d.0 || d.1 <= k || k == day
  {
    assert forall k :: k in points && k < day ==> k in KnownDaysBefore(points, day);
    assert forall k :: k in points && day < k ==> k in KnownDaysAfter(points, day);
    (LargestKey(KnownDaysBefore(points, day)), SmallestKey(KnownDaysAfter(points, day)))
  }

  /**
   * The point-table retention curve. In this order: every `day <= 1` is the
   * install day (1.0); a known day returns its table value unchanged; a day
   * after every known day extrapolates from the two largest known days; any
   * other day interpolates between the nearest known days on either side.
   * The lookups the original code cannot perform become errors; the lemma
   * LinearRetentionFailsExactly says when they occur.
   */
  ghost function LinearRetention(day: int, points: RetentionTable): (r: Result<real, RetentionError>)
    ensures day <= 1 ==> r == Ok(1.0)
    ensures 1 < day && day in points ==> r == Ok(points[day])
    ensures r.Ok? && BeyondKnownDays(points, day) ==> 0.0 <= r.value
  {
    if day <= 1 then Ok(1.0)
    else if day in points then Ok(points[day])
    else if |points| == 0 then Err(EmptyTable)
    else if LargestKey(points.Keys) < day then
      if |points| < 2 then Err(SingleKnownDay)
      else
        var d := LastTwoKnownDays(points);
        Ok(Extrapolate(d.0, points[d.0], d.1, points[d.1], day))
    else if KnownDaysBefore(points, day) == {} then Err(NoKnownDayBefore)
    else
      assert LargestKey(points.Keys) in KnownDaysAfter(points, day);
      var d := NearestKnownDays(points, day);
      Ok(Interpolate(d.0, points[d.0], d.1, points[d.1], day))
  }

  /**
   * The table lookup fails exactly when the install-day rule and the exact
   * hit do not apply and either extrapolation lacks two known days or
   * interpolation lacks a known day below `day`; each failure has its own
   * error.
   */
  lemma LinearRetentionFailsExactly(day: int, points: RetentionTable)
    ensures LinearRetention(day, points).Err? <==>
              1 < day && day !in points &&
              (if BeyondKnownDays(points, day) then |points| < 2 else KnownDaysBefore(points, day) == {})
    ensures LinearRetention(day, points) == Err(EmptyTable) <==> 1 < day && points == map[]
    ensures LinearRetention(day, points) == Err(SingleKnownDay) <==>
              1 < day && day !in points && |points| == 1 && BeyondKnownDays(points, day)
    ensures LinearRetention(day, points) == Err(NoKnownDayBefore) <==>
              1 < day && day !in points && !BeyondKnownDays(points, day) && KnownDaysBefore(points, day) == {}
  {
  }

  /**
   * A table with at least two points, one of them on or before the install
   * day, never makes the lookup fail.
   */
  lemma TableWithInstallDayNeverFails(points: RetentionTable, first: int)
    requires first in points && first <= 1 && |points| >= 2
    ensures forall day :: LinearRetention(day, points).Ok?
  {
    forall day
      ensures LinearRetention(day, points).Ok?
    {
      LinearRetentionFailsExactly(day, points);
      if 1 < day {
        assert first in KnownDaysBefore(points, day);
      }
    }
  }

  /**
   * Beyond the largest known day `d2` (and after the install day), the curve continues the line through
   * the two largest known days `d1 < d2`, clamped below at 0.0.
   */
  lemma ExtrapolationBeyondLastKnownDay(points: RetentionTable, day: int, d1: int, d2: int)
    requires d1 in points && d2 in points && d1 < d2 < day && 1 < day
    requires forall k :: k in points ==> k == d2 || k <= d1
    ensures LinearRetention(day, points) == Ok(Extrapolate(d1, points[d1], d2, points[d2], day))
    ensures 0.0 <= LinearRetention(day, points).value
  {
    assert LargestKey(points.Keys) == d2;
    assert |points| >= 2 by {
      assert d1 in points.Keys - {d2};
      assert |points.Keys - {d2}| == |points.Keys| - 1;
    }
    assert day !in points;
    var e := LastTwoKnownDays(points);
    assert e == (d1, d2);

  }

  /**
   * Strictly between two adjacent known days, the curve is the straight line
   * through them, so its value lies between their two values.
   */
  lemma InterpolationBetweenAdjacentKnownDays(points: RetentionTable, day: int, prev: int, next: int)
    requires prev in points && next in points && 1 < day && prev < day < next
    requires forall k :: k in points ==> k <= prev || next <= k
    ensures LinearRetention(day, points) == Ok(Interpolate(prev, points[prev], next, points[next], day))
    ensures Min(points[prev], points[next]) <= LinearRetention(day, points).value <= Max(points[prev], points[next])
  {
    assert day !in points;
    assert prev in KnownDaysBefore(points, day);
    assert next in KnownDaysAfter(points, day);
    assert LargestKey(points.Keys) >= next;
    var d := NearestKnownDays(points, day);
    assert d == (prev, next);
  }

  /**
   * The exponential decay curve `r0 * exp(-k * (day - 1))` of a new acquisition
   * source, with the exponential function as a parameter. Before the install
   * day it is 0.0, unlike the point-table curve, which is 1.0 there.
   */
  function ExponentialRetention(r0: NonNegReal, k: real, exp: real -> NonNegReal, day: int): (r: real)
    ensures day < 1 ==> r == 0.0
    ensures 0.0 <= r
    ensures day == 1 ==> r == r0 * exp(0.0)
  {
    if day < 1 then 0.0
    else
      var exponent := -k * (day - 1) as real;
      assert day == 1 ==> exponent == 0.0;
      r0 * exp(exponent)
  }

  /** Retention of the new source in variant A: `0.58 * exp(-0.12 * (day - 1))`. */
  function RetentionNewVariantA(day: int, exp: real -> NonNegReal): (r: real)
    ensures day < 1 ==> r == 0.0
    ensures 1 <= day ==> r == 0.58 * exp(-0.12 * (day - 1) as real)
    ensures 0.0 <= r
  {
    ExponentialRetention(0.58, 0.12, exp, day)
  }

  /** Retention of the new source in variant B: `0.52 * exp(-0.10 * (day - 1))`. */
  function RetentionNewVariantB(day: int, exp: real -> NonNegReal): (r: real)
    ensures day < 1 ==> r == 0.0
    ensures 1 <= day ==> r == 0.52 * exp(-0.10 * (day - 1) as real)
    ensures 0.0 <= r
  {
    ExponentialRetention(0.52, 0.10, exp, day)
  }
}
