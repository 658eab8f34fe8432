/**
 * Cohort accumulation: daily active users of one acquisition source, from its
 * daily install counts and a retention curve. Index `i` of every series is
 * calendar day `i + 1`; a cohort's age is 1 on its own install day.
 */
module Cohort {

  /**
   * Users active on calendar day `day` out of the cohorts installed on days
   * `1..upto`, added in install-day order: the cohort of day `s` contributes
   * `installs[s - 1] * retention(day - s + 1)`.
   */
  function CohortSum(installs: seq<int>, retention: int -> real, day: int, upto: nat): real
    requires upto <= |installs|
  {
    if upto == 0 then 0.0
    else CohortSum(installs, retention, day, upto - 1) + installs[upto - 1] as real * retention(day - upto + 1)
  }

  /** Expected active users on calendar day `day`: every cohort installed so far. */
  function Dau(installs: seq<int>, retention: int -> real, day: nat): real
    requires day <= |installs|
  {
    CohortSum(installs, retention, day, day)
  }

  /**
   * The DAU series of one source: one entry per day of the install series,
   * entry `t - 1` being the cohort sum for calendar day `t`.
   */
  method SimulateDau(dailyInstalls: seq<int>, retention: int -> real) returns (dau: seq<real>)
    ensures |dau| == |dailyInstalls|
    ensures forall t :: 1 <= t <= |dau| ==> dau[t - 1] == Dau(dailyInstalls, retention, t)
  {
    var days := |dailyInstalls|;
    dau := [];
    for currentDay := 1 to days + 1
      invariant |dau| == currentDay - 1
      invariant forall t :: 1 <= t < currentDay ==> dau[t - 1] == Dau(dailyInstalls, retention, t)
    {
      var activeUsers := 0.0;
      for installDay := 1 to currentDay + 1
        invariant activeUsers == CohortSum(dailyInstalls, retention, currentDay, installDay - 1)
      {
        var installs := dailyInstalls[installDay - 1];
        var age := currentDay - installDay + 1;
        activeUsers := activeUsers + installs as real * retention(age);
      }
      dau := dau + [activeUsers];
    }
  }

  /** With no installs at all, nobody is ever active. */
  lemma {:induction false} NoInstallsNoUsers(installs: seq<int>, retention: int -> real, day: int, upto: nat)
    requires upto <= |installs|
    requires forall s :: 0 <= s < |installs| ==> installs[s] == 0
    ensures CohortSum(installs, retention, day, upto) == 0.0
  {
    if upto > 0 {
      NoInstallsNoUsers(installs, retention, day, upto - 1);
    }
  }

  /** All-zero installs give an all-zero DAU series. */
  lemma ZeroInstallsZeroDau(installs: seq<int>, retention: int -> real)
    requires forall s :: 0 <= s < |installs| ==> installs[s] == 0
    ensures forall t :: 1 <= t <= |installs| ==> Dau(installs, retention, t) == 0.0
  {
    forall t | 1 <= t <= |installs|
      ensures Dau(installs, retention, t) == 0.0
    {
      NoInstallsNoUsers(installs, retention, t, t);
    }
  }

  lemma {:induction false} SingleCohortSum(installs: seq<int>, retention: int -> real, k: int, day: int, upto: nat)
    requires upto <= |installs| && 1 <= k <= |installs|
    requires forall s :: 0 <= s < |installs| && s != k - 1 ==> installs[s] == 0
    ensures CohortSum(installs, retention, day, upto) ==
              if k <= upto then installs[k - 1] as real * retention(day - k + 1) else 0.0
  {
    if upto > 0 {
      SingleCohortSum(installs, retention, k, day, upto - 1);
    }
  }

  /**
   * A single cohort installed on day `k` reproduces the retention curve,
   * scaled by its size, from day `k` on; before day `k` nobody is active.
   */
  lemma SingleCohortTracesRetention(installs: seq<int>, retention: int -> real, k: int, day: int)
    requires 1 <= k <= |installs| && 1 <= day <= |installs|
    requires forall s :: 0 <= s < |installs| && s != k - 1 ==> installs[s] == 0
    ensures k <= day ==> Dau(installs, retention, day) == installs[k - 1] as real * retention(day - k + 1)
    ensures day < k ==> Dau(installs, retention, day) == 0.0
  {
    SingleCohortSum(installs, retention, k, day, day);
  }

  lemma {:induction false} CohortSumReadsOnlyPrefix(a: seq<int>, b: seq<int>, retention: int -> real, day: int, upto: nat)
    requires upto <= |a| && upto <= |b| && a[..upto] == b[..upto]
    ensures CohortSum(a, retention, day, upto) == CohortSum(b, retention, day, upto)
  {
    if upto > 0 {
      assert a[upto - 1] == a[..upto][upto - 1] == b[..upto][upto - 1] == b[upto - 1];
      assert a[..upto - 1] == a[..upto][..upto - 1];
      assert b[..upto - 1] == b[..upto][..upto - 1];
      CohortSumReadsOnlyPrefix(a, b, retention, day, upto - 1);
    }
  }

  /** DAU on day `t` never reads installs of a later day. */
  lemma DauIgnoresFutureInstalls(a: seq<int>, b: seq<int>, retention: int -> real, day: nat)
    requires day <= |a| && day <= |b| && a[..day] == b[..day]
    ensures Dau(a, retention, day) == Dau(b, retention, day)
  {
    CohortSumReadsOnlyPrefix(a, b, retention, day, day);
  }

  lemma {:induction false} CohortSumReadsAgesFromOne(installs: seq<int>, r1: int -> real, r2: int -> real, day: int, upto: nat)
    requires upto <= |installs| && upto <= day
    requires forall age :: 1 <= age <= day ==> r1(age) == r2(age)
    ensures CohortSum(installs, r1, day, upto) == CohortSum(installs, r2, day, upto)
  {
    if upto > 0 {
      assert r1(day - upto + 1) == r2(day - upto + 1);
      CohortSumReadsAgesFromOne(installs, r1, r2, day, upto - 1);
    }
  }

  /**
   * DAU on day `t` asks the retention curve only for ages `1..t`, so how a
   * curve treats ages below 1 never reaches the simulation.
   */
  lemma DauReadsAgesFromOne(installs: seq<int>, r1: int -> real, r2: int -> real, day: nat)
    requires day <= |installs|
    requires forall age :: 1 <= age <= day ==> r1(age) == r2(age)
    ensures Dau(installs, r1, day) == Dau(installs, r2, day)
  {
    CohortSumReadsAgesFromOne(installs, r1, r2, day, day);
  }

  /** The element-wise sum of two install series of equal length. */
  function AddInstalls(a: seq<int>, b: seq<int>): (c: seq<int>)
    requires |a| == |b|
    ensures |c| == |a| && forall i :: 0 <= i < |c| ==> c[i] == a[i] + b[i]
  {
    seq(|a|, i requires 0 <= i < |a| => a[i] + b[i])
  }

  lemma {:induction false} CohortSumAdditive(a: seq<int>, b: seq<int>, retention: int -> real, day: int, upto: nat)
    requires |a| == |b| && upto <= |a|
    ensures CohortSum(AddInstalls(a, b), retention, day, upto) ==
              CohortSum(a, retention, day, upto) + CohortSum(b, retention, day, upto)
  {
    if upto > 0 {
      CohortSumAdditive(a, b, retention, day, upto - 1);
      var c := AddInstalls(a, b);
      var x := retention(day - upto + 1);
      assert c[upto - 1] as real * x == a[upto - 1] as real * x + b[upto - 1] as real * x;
    }
  }

  /**
   * Two sources that share a retention curve can be simulated separately and
   * summed, or summed first and simulated once: the DAU is the same.
   */
  lemma DauAdditive(a: seq<int>, b: seq<int>, retention: int -> real, day: nat)
    requires |a| == |b| && day <= |a|
    ensures Dau(AddInstalls(a, b), retention, day) == Dau(a, retention, day) + Dau(b, retention, day)
  {
    CohortSumAdditive(a, b, retention, day, day);
  }

  /** Retention summed over ages `1..age`. */
  function CumulativeRetention(retention: int -> real, age: nat): real
  {
    if age == 0 then 0.0 else CumulativeRetention(retention, age - 1) + retention(age)
  }

  lemma {:induction false} ConstantInstallsCohortSum(installs: seq<int>, n: int, retention: int -> real, day: nat, upto: nat)
    requires upto <= |installs| && upto <= day
    requires forall s :: 0 <= s < |installs| ==> installs[s] == n
    ensures CohortSum(installs, retention, day, upto) ==
              n as real * (CumulativeRetention(retention, day) - CumulativeRetention(retention, day - upto))
  {
    if upto > 0 {
      ConstantInstallsCohortSum(installs, n, retention, day, upto - 1);
      var a := day - upto + 1;
      assert CumulativeRetention(retention, a) == CumulativeRetention(retention, a - 1) + retention(a);
    }
  }

  /**
   * With the same number `n` of installs every day, DAU on day `t` is `n`
   * times the retention summed over ages `1..t`.
   */
  lemma ConstantInstallsDau(installs: seq<int>, n: int, retention: int -> real, day: nat)
    requires day <= |installs|
    requires forall s :: 0 <= s < |installs| ==> installs[s] == n
    ensures Dau(installs, retention, day) == n as real * CumulativeRetention(retention, day)
  {
    ConstantInstallsCohortSum(installs, n, retention, day, day);
  }

  /**
   * With a constant, nonnegative install count and a nonnegative retention
   * curve, DAU never decreases from one day to the next: each new day adds a
   * cohort and no cohort's contribution turns negative.
   */
  lemma ConstantInstallsDauNeverDecreases(installs: seq<int>, n: int, retention: int -> real, day: nat)
    requires 0 <= n && day + 1 <= |installs|
    requires forall s :: 0 <= s < |installs| ==> installs[s] == n
    requires forall age :: 1 <= age ==> 0.0 <= retention(age)
    ensures Dau(installs, retention, day) <= Dau(installs, retention, day + 1)
  {
    ConstantInstallsDau(installs, n, retention, day);
    ConstantInstallsDau(installs, n, retention, day + 1);
    assert 0.0 <= n as real * retention(day + 1);
  }
}
