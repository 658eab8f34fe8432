/**
 * The concrete inputs of the A/B study: the retention tables of the original
 * acquisition source and a revenue example, checked against the general
 * model.
 */
module Scenarios {
  import opened Outcomes
  import opened Retention
  import Cohort
  import Revenue

  /** Original-source retention of variant A: day 1 is the install day. */
  function RetentionPointsA(): RetentionTable
  {
    map[1 := 1.0, 2 := 0.53, 4 := 0.27, 8 := 0.17, 15 := 0.06]
  }

  /** Original-source retention of variant B. */
  function RetentionPointsB(): RetentionTable
  {
    map[1 := 1.0, 2 := 0.48, 4 := 0.25, 8 := 0.19, 15 := 0.09]
  }

  /** Table A read at the install day, at a known day, and between known days. */
  lemma RetentionPointsAInsideTable()
    ensures LinearRetention(1, RetentionPointsA()) == Ok(1.0)
    ensures LinearRetention(8, RetentionPointsA()) == Ok(0.17)
    ensures LinearRetention(3, RetentionPointsA()) == Ok(0.40)
  {
    InterpolationBetweenAdjacentKnownDays(RetentionPointsA(), 3, 2, 4);
  }

  /**
   * Table A read just past its last known day, and far enough past it that
   * the extrapolated line is clamped at 0.0.
   */
  lemma RetentionPointsABeyondTable()
    ensures LinearRetention(16, RetentionPointsA()) == Ok(0.31 / 7.0)
    ensures LinearRetention(30, RetentionPointsA()) == Ok(0.0)
  {
    var a := RetentionPointsA();
    ExtrapolationBeyondLastKnownDay(a, 16, 8, 15);
    ExtrapolationBeyondLastKnownDay(a, 30, 8, 15);
  }

  /** Neither table of the original acquisition source ever makes the lookup fail. */
  lemma RetentionTablesNeverFail()
    ensures forall day :: LinearRetention(day, RetentionPointsA()).Ok?
    ensures forall day :: LinearRetention(day, RetentionPointsB()).Ok?
  {
  }

  /**
   * The new source of variant A with 20000 installs a day for 30 days: on the
   * first day only the first cohort is active, at its install-day retention
   * 0.58 (taking exp(0) = 1).
   */
  method NewSourceFirstDayDau(exp: real -> NonNegReal) returns (dau: seq<real>)
    requires exp(0.0) == 1.0
    ensures |dau| == 30
    ensures dau[0] == 20000.0 * 0.58
  {
    var installs := seq(30, _ => 20000);
    var retention := (age: int) => RetentionNewVariantA(age, exp);
    dau := Cohort.SimulateDau(installs, retention);
    assert -0.12 * (1 - 1) as real == 0.0;
    assert retention(1) == 0.58;
    assert dau[0] == Cohort.Dau(installs, retention, 1);
    assert Cohort.Dau(installs, retention, 1) ==
           Cohort.CohortSum(installs, retention, 1, 0) + installs[0] as real * retention(1);
  }

  /**
   * 100 installs and 100 active users a day for five days, a 3% purchase
   * rate, ARPPU 5, eCPM 10 and 2 impressions per user: 17.0 a day without a
   * sale; a sale on days 2 to 4 with a one-point boost raises those days to
   * 22.0. Both runs rely on the default ARPPU of 5.0.
   */
  method RevenueExample() returns (noSale: seq<real>, withSale: seq<real>)
    ensures noSale == [17.0, 17.0, 17.0, 17.0, 17.0]
    ensures withSale == [17.0, 22.0, 22.0, 22.0, 17.0]
  {
    var variant := Revenue.VariantConfig("A", 0.03, 10.0, 2.0);
    var installs := [100, 100, 100, 100, 100];
    var dau := [100.0, 100.0, 100.0, 100.0, 100.0];
    var plain := Revenue.SimulateRevenue(variant, installs, dau);
    var sale := Revenue.SimulateRevenue(variant, installs, dau, Some(Revenue.SalePeriod(2, 4)), 0.01);
    noSale, withSale := plain.value, sale.value;
  }
}
