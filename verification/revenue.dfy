/**
 * Revenue simulation: daily in-app-purchase revenue from the day's new
 * installs plus advertising revenue from the day's active users, with an
 * optional sale window that raises the purchase rate by an absolute amount.
 */
module Revenue {
  import opened Outcomes

  /** One variant of the A/B test. The name is a label only. */
  datatype VariantConfig = VariantConfig(
    name: string,
    basePurchaseRate: real,     // daily purchase probability per install
    ecpm: real,                 // ad revenue per 1000 impressions
    adImpressionsPerDau: real)  // average ad impressions per active user and day

  /** Inclusive, 1-based calendar days of a sale. */
  datatype SalePeriod = SalePeriod(start: int, end: int)

  /** The failed `assert` on the lengths of the install and DAU series. */
  datatype RevenueError = LengthMismatch

  /** True when calendar day `dayNumber` lies inside the sale window, if any. */
  predicate InSale(salePeriod: Option<SalePeriod>, dayNumber: int)
  {
    salePeriod.Some? && salePeriod.value.start <= dayNumber <= salePeriod.value.end
  }

  /** The purchase rate of calendar day `dayNumber`. */
  function PurchaseRate(variant: VariantConfig, salePeriod: Option<SalePeriod>, saleBoostAbs: real, dayNumber: int): real
  {
    var rate := variant.basePurchaseRate;
    if InSale(salePeriod, dayNumber) then rate + saleBoostAbs else rate
  }

  /** IAP revenue from the day's installs plus ad revenue from the day's DAU. */
  function DayRevenue(variant: VariantConfig, installs: int, dau: real, purchaseRate: real, arppu: real): real
  {
    var iapRevenue := installs as real * purchaseRate * arppu;
    var adImpressions := dau * variant.adImpressionsPerDau;
    var adRevenue := adImpressions * variant.ecpm / 1000.0;
    iapRevenue + adRevenue
  }

  /** Revenue of the day at index `dayIdx` (calendar day `dayIdx + 1`). */
  function RevenueOnDay(variant: VariantConfig, installs: seq<int>, dau: seq<real>,
                        salePeriod: Option<SalePeriod>, saleBoostAbs: real, arppu: real, dayIdx: nat): real
    requires dayIdx < |installs| && dayIdx < |dau|
  {
    DayRevenue(variant, installs[dayIdx], dau[dayIdx], PurchaseRate(variant, salePeriod, saleBoostAbs, dayIdx + 1), arppu)
  }

  /**
   * The daily revenue series of one variant. Install and DAU series of
   * different lengths are rejected before any revenue is produced; otherwise
   * there is one revenue value per day. As in the original, there is no sale,
   * no boost and an ARPPU of 5.0 unless the caller says otherwise.
   */
  method SimulateRevenue(variant: VariantConfig, dailyInstallsTotal: seq<int>, dauTotal: seq<real>,
                         salePeriod: Option<SalePeriod> := None, saleBoostAbs: real := 0.0, arppu: real := 5.0)
    returns (result: Result<seq<real>, RevenueError>)
    ensures result.Err? <==> |dailyInstallsTotal| != |dauTotal|
    ensures result.Ok? ==> |result.value| == |dauTotal|
    ensures result.Ok? ==> forall i :: 0 <= i < |dauTotal| ==>
              result.value[i] == RevenueOnDay(variant, dailyInstallsTotal, dauTotal, salePeriod, saleBoostAbs, arppu, i)
  {
    if |dailyInstallsTotal| != |dauTotal| {
      return Err(LengthMismatch);
    }
    var dailyRevenue := [];
    for dayIdx := 0 to |dauTotal|
      invariant |dailyRevenue| == dayIdx
      invariant forall i :: 0 <= i < dayIdx ==>
                  dailyRevenue[i] == RevenueOnDay(variant, dailyInstallsTotal, dauTotal, salePeriod, saleBoostAbs, arppu, i)
    {
      var dayNumber := dayIdx + 1;
      var purchaseRate := variant.basePurchaseRate;
      if salePeriod.Some? {
        var SalePeriod(start, end) := salePeriod.value;
        if start <= dayNumber <= end {
          purchaseRate := purchaseRate + saleBoostAbs;
        }
      }
      var installs := dailyInstallsTotal[dayIdx];
      var dau := dauTotal[dayIdx];
      var iapRevenue := installs as real * purchaseRate * arppu;
      var adImpressions := dau * variant.adImpressionsPerDau;
      var adRevenue := adImpressions * variant.ecpm / 1000.0;
      var total := iapRevenue + adRevenue;
      assert purchaseRate == PurchaseRate(variant, salePeriod, saleBoostAbs, dayNumber);
      assert total == RevenueOnDay(variant, dailyInstallsTotal, dauTotal, salePeriod, saleBoostAbs, arppu, dayIdx);
      dailyRevenue := dailyRevenue + [total];
    }
    return Ok(dailyRevenue);
  }

  /**
   * Outside the sale window, or without a sale, a day earns exactly the
   * no-sale revenue; inside the window it earns exactly
   * `installs * saleBoostAbs * arppu` more.
   */
  lemma SaleEffect(variant: VariantConfig, installs: seq<int>, dau: seq<real>,
                   salePeriod: Option<SalePeriod>, saleBoostAbs: real, arppu: real, dayIdx: nat)
    requires dayIdx < |installs| && dayIdx < |dau|
    ensures !InSale(salePeriod, dayIdx + 1) ==>
              RevenueOnDay(variant, installs, dau, salePeriod, saleBoostAbs, arppu, dayIdx) ==
              RevenueOnDay(variant, installs, dau, None, saleBoostAbs, arppu, dayIdx)
    ensures InSale(salePeriod, dayIdx + 1) ==>
              RevenueOnDay(variant, installs, dau, salePeriod, saleBoostAbs, arppu, dayIdx) ==
              RevenueOnDay(variant, installs, dau, None, saleBoostAbs, arppu, dayIdx)
              + installs[dayIdx] as real * saleBoostAbs * arppu
  {
  }

  /**
   * With nonnegative inputs (installs, DAU, rates, ARPPU, eCPM and
   * impressions) every day's revenue is nonnegative; nothing clamps it
   * otherwise.
   */
  lemma RevenueNonnegative(variant: VariantConfig, installs: seq<int>, dau: seq<real>,
                           salePeriod: Option<SalePeriod>, saleBoostAbs: real, arppu: real, dayIdx: nat)
    requires dayIdx < |installs| && dayIdx < |dau|
    requires 0 <= installs[dayIdx] && 0.0 <= dau[dayIdx]
    requires 0.0 <= variant.basePurchaseRate && 0.0 <= saleBoostAbs && 0.0 <= arppu
    requires 0.0 <= variant.ecpm && 0.0 <= variant.adImpressionsPerDau
    ensures 0.0 <= RevenueOnDay(variant, installs, dau, salePeriod, saleBoostAbs, arppu, dayIdx)
  {
  }
}
