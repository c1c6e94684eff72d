/**
 * The fee rule: volume times weight, one per cent more per day in the depot, and a
 * twenty per cent discount for identifiers starting with "C". Arithmetic is exact
 * over `real`, an idealisation of Java's `double`.
 */
module FeeRule {
  import opened JavaStrings
  import opened ParcelModel
  import opened CustomerModel
  import ParcelStore

  /** `(length * width * height) * weight`. */
  function BaseFee(p: Parcel): real {
    (p.length * p.width * p.height) * p.weight
  }

  /** `1.0 + daysInDepot / 100.0`. */
  function DayFactor(days: int): real {
    1.0 + days as real / 100.0
  }

  /** `Worker.calculateFee`. It only reads the parcel. */
  function Fee(p: Parcel): real {
    var dayAdjusted := BaseFee(p) * DayFactor(p.daysInDepot);
    if StartsWithC(p.id) then dayAdjusted * 0.8 else dayAdjusted
  }

  /** The fee as one closed formula over the parcel's fields. */
  lemma FeeFormula(p: Parcel)
    ensures Fee(p) == p.length * p.width * p.height * p.weight * (1.0 + p.daysInDepot as real / 100.0)
                      * (if |p.id| > 0 && p.id[0] == 'C' then 0.8 else 1.0)
  {
  }

  /** With the same measurements, a "C" identifier pays exactly 0.8 times what any other identifier pays. */
  lemma DiscountRatio(p: Parcel, q: Parcel)
    requires p.length == q.length && p.width == q.width && p.height == q.height
    requires p.weight == q.weight && p.daysInDepot == q.daysInDepot
    requires StartsWithC(p.id) && !StartsWithC(q.id)
    ensures Fee(p) == 0.8 * Fee(q)
  {
  }

  /** The discount condition is case-sensitive: a lower-case "c" pays the full day-adjusted fee. */
  lemma LowerCaseNoDiscount(p: Parcel)
    requires |p.id| > 0 && p.id[0] == 'c'
    ensures Fee(p) == BaseFee(p) * DayFactor(p.daysInDepot)
  {
  }

  /** A zero length, width, height or weight makes the parcel free. */
  lemma ZeroMeasureIsFree(p: Parcel)
    requires p.length == 0.0 || p.width == 0.0 || p.height == 0.0 || p.weight == 0.0
    ensures Fee(p) == 0.0
  {
    assert BaseFee(p) == 0.0;
  }

  /** Non-negative measurements and days give a non-negative fee. */
  lemma FeeNonNegative(p: Parcel)
    requires p.length >= 0.0 && p.width >= 0.0 && p.height >= 0.0 && p.weight >= 0.0
    requires p.daysInDepot >= 0
    ensures Fee(p) >= 0.0
  {
    assert p.length * p.width >= 0.0;
    assert p.length * p.width * p.height >= 0.0;
    assert BaseFee(p) >= 0.0;
    assert DayFactor(p.daysInDepot) >= 1.0;
  }

  /** With a non-negative base fee, more days in the depot never lower the fee. */
  lemma FeeMonotoneInDays(p: Parcel, days: int)
    requires BaseFee(p) >= 0.0
    requires p.daysInDepot <= days
    ensures Fee(p) <= Fee(p.(daysInDepot := days))
  {
    var q := p.(daysInDepot := days);
    assert BaseFee(q) == BaseFee(p);
    assert DayFactor(p.daysInDepot) <= DayFactor(days);
    assert BaseFee(p) * DayFactor(p.daysInDepot) <= BaseFee(p) * DayFactor(days);
  }

  /** A parcel of 2 x 3 x 4, weight 5, ten days, with a "C" identifier costs 105.6. */
  lemma FeeExample()
    ensures Fee(NewParcel("C200", 2.0, 3.0, 4.0, 5.0, 10)) == 105.6
  {
  }

  /** `Worker.processCustomer`: an empty placeholder, so the parcel table comes back as it went in. */
  function ProcessCustomer(c: Customer, m: ParcelStore.Store): (r: ParcelStore.Store)
    ensures r == m
  {
    m
  }
}
