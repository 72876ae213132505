/**
 * The income-tax liability calculator of src/utils/taxCalculator.js.
 *
 * Amounts are exact reals; the JavaScript doubles they stand for are not
 * modelled. The calculator takes three raw inputs, normalises each with
 * `Number(x) || 0`, and returns a record with the band split, the two levies
 * (USC and PRSI), the totals and the effective rate.
 */
module TaxCalculator {

  /** A raw input as `Number(x)` sees it: missing, not a number, or a number. */
  datatype Amount = Absent | NotANumber | Num(value: real)

  // The 2023 single-person thresholds the calculator hard-codes. The rates
  // (20% and 40% income tax, 2% and 4.5% USC, 4% PRSI) are written as
  // literals where they are applied, so that every product stays linear.
  const StandardRateCutoff: real := 36800.0
  /** Tax on a fully used standard-rate band: 36,800 at 20%. */
  const FullStandardBandTax: real := 7360.0

  const UscExemptLimit: real := 13000.0
  const UscBandLimit: real := 22920.0

  const PrsiThreshold: real := 18304.0

  function Max(a: real, b: real): real { if a >= b then a else b }

  function Min(a: real, b: real): real { if a <= b then a else b }

  /**
   * `Number(x) || 0`: a missing input and NaN become 0; every number is kept,
   * negative numbers included.
   */
  function NumberOrZero(a: Amount): (x: real)
    ensures a.Num? ==> x == a.value
    ensures x == 0.0 <==> !a.Num? || a.value == 0.0
  {
    if a.Num? then a.value else 0.0
  }

  /** `Math.max(0, grossIncome - totalDeductions)`. */
  function TaxableIncome(gross: real, deductions: real): (t: real)
    ensures 0.0 <= t && gross - deductions <= t
    ensures t == 0.0 || t == gross - deductions
    ensures 0.0 <= gross && 0.0 <= deductions ==> t <= gross
  {
    Max(0.0, gross - deductions)
  }

  /** The tax charged in each of the two rate bands. */
  datatype Bands = Bands(standard: real, higher: real)

  /**
   * The two-band split with its cutoff at 36,800. Besides the two cases
   * `calculateTax` distinguishes, the contract gives the marginal form: 20% on the part of the
   * taxable income up to the cutoff and 40% on the part above it.
   */
  function SplitBands(taxable: real): (b: Bands)
    ensures taxable <= StandardRateCutoff ==> b.higher == 0.0 && b.standard == 0.2 * taxable
    ensures StandardRateCutoff < taxable ==>
      b.standard == FullStandardBandTax && b.higher == 0.4 * (taxable - StandardRateCutoff)
    ensures b.standard <= FullStandardBandTax
    ensures 0.0 <= taxable ==> 0.0 <= b.standard && 0.0 <= b.higher
    ensures b.standard == 0.2 * Min(taxable, StandardRateCutoff)
    ensures b.higher == 0.4 * Max(0.0, taxable - StandardRateCutoff)
  {
    if taxable <= StandardRateCutoff then
      Bands(taxable * 0.2, 0.0)
    else
      Bands(FullStandardBandTax, (taxable - StandardRateCutoff) * 0.4)
  }

  /** Gross tax: the sum of the two band taxes, between 20% and 40% of the taxable income. */
  function GrossTax(taxable: real): (g: real)
    ensures g == SplitBands(taxable).standard + SplitBands(taxable).higher
    ensures 0.0 <= taxable ==> 0.2 * taxable <= g <= 0.4 * taxable
  {
    var b := SplitBands(taxable);
    b.standard + b.higher
  }

  /** `Math.max(0, grossTax - totalTaxCredits)`. */
  function NetTax(grossTax: real, credits: real): (n: real)
    ensures 0.0 <= n && grossTax - credits <= n
    ensures n == 0.0 || n == grossTax - credits
    ensures 0.0 <= grossTax && 0.0 <= credits ==> n <= grossTax
  {
    Max(0.0, grossTax - credits)
  }

  /**
   * The simplified Universal Social Charge on gross income: nothing up to
   * 13,000, then 2% of the WHOLE income (a cliff, not a marginal band) up to
   * 22,920, then 4.5% on the part above 22,920.
   */
  function Usc(gross: real): (u: real)
    ensures gross <= UscExemptLimit ==> u == 0.0
    ensures UscExemptLimit < gross <= UscBandLimit ==> u == 0.02 * gross
    ensures UscBandLimit < gross ==> u == 458.4 + 0.045 * (gross - UscBandLimit)
    ensures 0.0 <= u
    ensures 0.0 < u <==> UscExemptLimit < gross
    ensures UscExemptLimit < gross ==> 260.0 < u
    ensures 0.0 <= gross ==> u <= 0.045 * gross
  {
    if gross > UscExemptLimit then
      if gross <= UscBandLimit then gross * 0.02
      else UscBandLimit * 0.02 + (gross - UscBandLimit) * 0.045
    else
      0.0
  }

  /** Pay Related Social Insurance: 4% of the whole gross income once it exceeds 18,304. */
  function Prsi(gross: real): (p: real)
    ensures 0.0 < p <==> PrsiThreshold < gross
    ensures PrsiThreshold < gross ==> p == 0.04 * gross
    ensures 0.0 <= p
    ensures 0.0 <= gross ==> p <= 0.04 * gross
    ensures PrsiThreshold < gross ==> 732.16 < p
  {
    if gross > PrsiThreshold then gross * 0.04 else 0.0
  }

  /**
   * Liability as a percentage of gross income, 0 when there is no positive
   * income (so nothing is divided by zero). EffectiveRateShare states the
   * percentage itself.
   */
  function EffectiveRate(total: real, gross: real): (rate: real)
    ensures gross <= 0.0 ==> rate == 0.0
    ensures 0.0 <= total ==> 0.0 <= rate
  {
    if gross > 0.0 then (total / gross) * 100.0 else 0.0
  }

  /** For a positive income the rate is the liability's share of it, in percent. */
  lemma EffectiveRateShare(total: real, gross: real)
    requires 0.0 < gross
    ensures EffectiveRate(total, gross) * gross == 100.0 * total
  {
  }

  /**
   * The record `calculateTax` returns. `effectiveTaxRate` holds the rate at
   * full precision; the two-decimal text `calculateTax` puts in the record is
   * RenderedRate below.
   */
  datatype TaxResult = TaxResult(
    grossIncome: real,
    taxableIncome: real,
    taxAtStandardRate: real,
    taxAtHigherRate: real,
    grossTax: real,
    taxCredits: real,
    netTax: real,
    usc: real,
    prsi: real,
    totalTaxLiability: real,
    netIncome: real,
    effectiveTaxRate: real)

  /** The relations every result of the calculator keeps between its fields. */
  predicate Consistent(r: TaxResult)
  {
    && 0.0 <= r.taxableIncome
    && r.taxAtStandardRate <= FullStandardBandTax
    && r.grossTax == r.taxAtStandardRate + r.taxAtHigherRate
    && 0.0 <= r.netTax && r.grossTax - r.taxCredits <= r.netTax
    && 0.0 <= r.usc && 0.0 <= r.prsi
    && r.totalTaxLiability == r.netTax + r.usc + r.prsi
    && r.netIncome + r.totalTaxLiability == r.grossIncome
    && (r.grossIncome <= 0.0 ==> r.effectiveTaxRate == 0.0)
  }

  /**
   * The computation of `calculateTax` once its three inputs are numbers: the
   * steps from taxable income to effective rate, in the order `calculateTax`
   * takes them. What it promises is stated by lemmas (ScheduleConsistent,
   * ScheduleDetermines, ScheduleMonotone, ScheduleBelowIncome) rather than as
   * a postcondition: every caller, the concrete examples included, would
   * otherwise carry all of it.
   */
  function Schedule(grossIncome: real, totalDeductions: real, totalTaxCredits: real): TaxResult
  {
    var taxableIncome := TaxableIncome(grossIncome, totalDeductions);
    var bands := SplitBands(taxableIncome);
    var grossTax := GrossTax(taxableIncome);
    var netTax := NetTax(grossTax, totalTaxCredits);
    var usc := Usc(grossIncome);
    var prsi := Prsi(grossIncome);
    var totalTaxLiability := netTax + usc + prsi;
    var netIncome := grossIncome - totalTaxLiability;
    var effectiveTaxRate := EffectiveRate(totalTaxLiability, grossIncome);
    TaxResult(grossIncome, taxableIncome, bands.standard, bands.higher, grossTax,
              totalTaxCredits, netTax, usc, prsi, totalTaxLiability, netIncome,
              effectiveTaxRate)
  }

  /**
   * `calculateTax(income, deductions, taxCredits)`: normalise the inputs, then
   * run the schedule. CalculateTaxConsistent and the lemmas after it state
   * what it promises.
   */
  function CalculateTax(income: Amount, deductions: Amount, taxCredits: Amount): TaxResult
  {
    Schedule(NumberOrZero(income), NumberOrZero(deductions), NumberOrZero(taxCredits))
  }

  /**
   * `effectiveTaxRate.toFixed(2)` read as a whole number of hundredths (2163
   * for "21.63"): the magnitude is rounded to the nearest hundredth, a tie
   * going up, and the sign is put back.
   */
  function RenderedRate(r: TaxResult): (n: int)
    ensures -0.005 <= (n as real) / 100.0 - r.effectiveTaxRate <= 0.005
    ensures 0.0 <= r.effectiveTaxRate ==> 0 <= n
  {
    var x := r.effectiveTaxRate;
    if x >= 0.0 then (x * 100.0 + 0.5).Floor
    else -((-x) * 100.0 + 0.5).Floor
  }

  // ---------------------------------------------------------------------
  // Properties of the band schedule

  /** Gross tax never falls when taxable income rises. */
  lemma GrossTaxMonotone(t1: real, t2: real)
    requires t1 <= t2
    ensures GrossTax(t1) <= GrossTax(t2)
  {
  }

  /**
   * Gross tax moves by at most 40% of any change in taxable income; in
   * particular it is continuous at the 36,800 cutoff, where both branches
   * give 7,360.
   */
  lemma GrossTaxLipschitz(t1: real, t2: real)
    requires t1 <= t2
    ensures 0.0 <= GrossTax(t2) - GrossTax(t1) <= 0.4 * (t2 - t1)
    ensures GrossTax(StandardRateCutoff) == FullStandardBandTax
  {
  }

  // ---------------------------------------------------------------------
  // Properties of the whole calculation

  /**
   * The schedule as a relation on a finished record: given the normalised
   * deductions, every computed field is the matching step of the schedule
   * applied to the record's own gross income and credits.
   */
  predicate FollowsSchedule(r: TaxResult, deductions: real)
  {
    && r.taxableIncome == TaxableIncome(r.grossIncome, deductions)
    && r.taxAtStandardRate == SplitBands(r.taxableIncome).standard
    && r.taxAtHigherRate == SplitBands(r.taxableIncome).higher
    && r.grossTax == GrossTax(r.taxableIncome)
    && r.netTax == NetTax(r.grossTax, r.taxCredits)
    && r.usc == Usc(r.grossIncome)
    && r.prsi == Prsi(r.grossIncome)
    && r.totalTaxLiability == r.netTax + r.usc + r.prsi
    && r.netIncome == r.grossIncome - r.totalTaxLiability
    && r.effectiveTaxRate == EffectiveRate(r.totalTaxLiability, r.grossIncome)
  }

  /**
   * The schedule's record follows the schedule for its deductions and echoes
   * its income and credits.
   */
  lemma ScheduleFollowsSchedule(gross: real, deductions: real, credits: real)
    ensures FollowsSchedule(Schedule(gross, deductions, credits), deductions)
    ensures Schedule(gross, deductions, credits).grossIncome == gross
    ensures Schedule(gross, deductions, credits).taxCredits == credits
  {
  }

  /**
   * The calculator's result follows the schedule for the normalised
   * deductions, and echoes the normalised income and credits.
   */
  lemma CalculateTaxFollowsSchedule(income: Amount, deductions: Amount, taxCredits: Amount)
    ensures FollowsSchedule(CalculateTax(income, deductions, taxCredits), NumberOrZero(deductions))
    ensures CalculateTax(income, deductions, taxCredits).grossIncome == NumberOrZero(income)
    ensures CalculateTax(income, deductions, taxCredits).taxCredits == NumberOrZero(taxCredits)
  {
    ScheduleFollowsSchedule(NumberOrZero(income), NumberOrZero(deductions), NumberOrZero(taxCredits));
  }

  /** A record that follows the schedule keeps the field relations of Consistent. */
  lemma ScheduleConsistent(r: TaxResult, deductions: real)
    requires FollowsSchedule(r, deductions)
    ensures Consistent(r)
  {
  }

  /**
   * The schedule determines the record: two records that follow it for the
   * same deductions, gross income and credits are equal.
   */
  lemma ScheduleDetermines(r1: TaxResult, r2: TaxResult, deductions: real)
    requires FollowsSchedule(r1, deductions) && FollowsSchedule(r2, deductions)
    requires r1.grossIncome == r2.grossIncome && r1.taxCredits == r2.taxCredits
    ensures r1 == r2
  {
  }

  /**
   * Every result of the calculator keeps the field relations of Consistent,
   * in particular net income + total liability = gross income; its total
   * liability is never below its net tax, whatever the sign of the income;
   * and it echoes the normalised income and credits, not the raw inputs.
   */
  lemma CalculateTaxConsistent(income: Amount, deductions: Amount, taxCredits: Amount)
    ensures Consistent(CalculateTax(income, deductions, taxCredits))
    ensures CalculateTax(income, deductions, taxCredits).netTax
         <= CalculateTax(income, deductions, taxCredits).totalTaxLiability
    ensures CalculateTax(income, deductions, taxCredits).grossIncome == NumberOrZero(income)
    ensures CalculateTax(income, deductions, taxCredits).taxCredits == NumberOrZero(taxCredits)
  {
    CalculateTaxFollowsSchedule(income, deductions, taxCredits);
    ScheduleConsistent(CalculateTax(income, deductions, taxCredits), NumberOrZero(deductions));
  }

  /**
   * Between two records that follow the schedule for the same deductions and
   * credits, the one with the higher gross income has no lower gross tax, net
   * tax, levies or total liability.
   */
  lemma ScheduleMonotone(r1: TaxResult, r2: TaxResult, deductions: real)
    requires FollowsSchedule(r1, deductions) && FollowsSchedule(r2, deductions)
    requires r1.grossIncome <= r2.grossIncome && r1.taxCredits == r2.taxCredits
    ensures r1.grossTax <= r2.grossTax && r1.netTax <= r2.netTax
    ensures r1.usc <= r2.usc && r1.prsi <= r2.prsi
    ensures r1.totalTaxLiability <= r2.totalTaxLiability
  {
    GrossTaxMonotone(r1.taxableIncome, r2.taxableIncome);
    UscMonotone(r1.grossIncome, r2.grossIncome);
    PrsiMonotone(r1.grossIncome, r2.grossIncome);
  }

  /**
   * Holding deductions and credits fixed, a higher gross income never lowers
   * the gross tax, the net tax, either levy or the total liability.
   */
  lemma LiabilityMonotoneInIncome(g1: real, g2: real, deductions: Amount, credits: Amount)
    requires g1 <= g2
    ensures CalculateTax(Num(g1), deductions, credits).grossTax <= CalculateTax(Num(g2), deductions, credits).grossTax
    ensures CalculateTax(Num(g1), deductions, credits).netTax <= CalculateTax(Num(g2), deductions, credits).netTax
    ensures CalculateTax(Num(g1), deductions, credits).usc <= CalculateTax(Num(g2), deductions, credits).usc
    ensures CalculateTax(Num(g1), deductions, credits).prsi <= CalculateTax(Num(g2), deductions, credits).prsi
    ensures CalculateTax(Num(g1), deductions, credits).totalTaxLiability
         <= CalculateTax(Num(g2), deductions, credits).totalTaxLiability
  {
    CalculateTaxFollowsSchedule(Num(g1), deductions, credits);
    CalculateTaxFollowsSchedule(Num(g2), deductions, credits);
    ScheduleMonotone(CalculateTax(Num(g1), deductions, credits), CalculateTax(Num(g2), deductions, credits),
                     NumberOrZero(deductions));
  }

  lemma UscMonotone(g1: real, g2: real)
    requires g1 <= g2
    ensures Usc(g1) <= Usc(g2)
  {
  }

  lemma PrsiMonotone(g1: real, g2: real)
    requires g1 <= g2
    ensures Prsi(g1) <= Prsi(g2)
  {
  }

  /**
   * A liability below the share `k` of a positive income gives an effective
   * rate below `100 * k` percent.
   */
  lemma EffectiveRateBelow(total: real, gross: real, k: real)
    requires 0.0 < gross && total < k * gross
    ensures EffectiveRate(total, gross) < 100.0 * k
  {
    var q := total / gross;
    assert q * gross == total;
    if q >= k {
      assert q * gross >= k * gross;
    }
  }

  /**
   * For a record that follows the schedule with non-negative deductions and
   * credits and a positive income, the liability stays below 48.5% of the
   * income (40% top band + 4.5% USC + 4% PRSI), so net income is positive
   * and the rate is below 48.5%.
   */
  lemma ScheduleBelowIncome(r: TaxResult, deductions: real)
    requires FollowsSchedule(r, deductions)
    requires 0.0 < r.grossIncome && 0.0 <= deductions && 0.0 <= r.taxCredits
    ensures r.totalTaxLiability < 0.485 * r.grossIncome
    ensures 0.0 < r.netIncome
    ensures 0.0 <= r.effectiveTaxRate < 48.5
  {
    assert r.taxableIncome <= r.grossIncome;
    assert r.netTax <= 0.4 * r.grossIncome;
    assert r.usc < 0.045 * r.grossIncome;
    EffectiveRateBelow(r.totalTaxLiability, r.grossIncome, 0.485);
  }

  /**
   * The calculator with non-negative deductions and credits and a positive
   * income: liability below 48.5% of income, positive net income, and a
   * rendered rate of at most "48.50".
   */
  lemma LiabilityBelowIncome(income: real, deductions: Amount, credits: Amount)
    requires 0.0 < income
    requires 0.0 <= NumberOrZero(deductions) && 0.0 <= NumberOrZero(credits)
    ensures CalculateTax(Num(income), deductions, credits).totalTaxLiability < 0.485 * income
    ensures 0.0 < CalculateTax(Num(income), deductions, credits).netIncome
    ensures 0.0 <= CalculateTax(Num(income), deductions, credits).effectiveTaxRate < 48.5
    ensures RenderedRate(CalculateTax(Num(income), deductions, credits)) <= 4850
  {
    CalculateTaxFollowsSchedule(Num(income), deductions, credits);
    ScheduleBelowIncome(CalculateTax(Num(income), deductions, credits), NumberOrZero(deductions));
  }

  /**
   * With a gross income of 0 (missing, not a number, or 0) and non-negative
   * deductions, nothing is taxable, both levies and the rate are 0, and the
   * rate renders as "0.00".
   */
  lemma ZeroIncome(income: Amount, deductions: Amount, credits: Amount)
    requires NumberOrZero(income) == 0.0
    requires 0.0 <= NumberOrZero(deductions)
    ensures CalculateTax(income, deductions, credits).taxableIncome == 0.0
    ensures CalculateTax(income, deductions, credits).grossTax == 0.0
    ensures CalculateTax(income, deductions, credits).usc == 0.0
    ensures CalculateTax(income, deductions, credits).prsi == 0.0
    ensures CalculateTax(income, deductions, credits).effectiveTaxRate == 0.0
    ensures RenderedRate(CalculateTax(income, deductions, credits)) == 0
  {
    var r := CalculateTax(income, deductions, credits);
    CalculateTaxFollowsSchedule(income, deductions, credits);
    assert r.grossIncome == 0.0;
    assert r.taxableIncome == 0.0;
    assert r.effectiveTaxRate == 0.0;
  }

  /**
   * Negative inputs are not clamped: a negative deduction puts taxable income
   * above gross income, and a negative credit puts net tax above gross tax.
   */
  lemma NegativeInputsPassThrough(income: Amount, deductions: Amount, credits: Amount)
    ensures NumberOrZero(deductions) < 0.0 ==>
      CalculateTax(income, deductions, credits).taxableIncome > NumberOrZero(income)
    ensures NumberOrZero(credits) < 0.0 ==>
      CalculateTax(income, deductions, credits).netTax > CalculateTax(income, deductions, credits).grossTax
  {
    CalculateTaxFollowsSchedule(income, deductions, credits);
  }

  /**
   * For instance, income 1,000 with a deduction of -500 is taxed on 1,500, and
   * with a credit of -2,000 the net tax is 2,200, more than the income itself.
   */
  lemma NegativeInputsExample()
    ensures CalculateTax(Num(1000.0), Num(-500.0), Absent).taxableIncome == 1500.0
    ensures CalculateTax(Num(1000.0), Absent, Num(-2000.0)).netTax == 2200.0
    ensures CalculateTax(Num(1000.0), Absent, Num(-2000.0)).netIncome < 0.0
  {
  }

  /** A full record: income 50,000, deductions 5,000 and credits 3,500. */
  lemma WorkedExample()
    ensures CalculateTax(Num(50000.0), Num(5000.0), Num(3500.0)) ==
      TaxResult(50000.0, 45000.0, 7360.0, 3280.0, 10640.0, 3500.0, 7140.0,
                1677.0, 2000.0, 10817.0, 39183.0, 21.634)
    ensures RenderedRate(CalculateTax(Num(50000.0), Num(5000.0), Num(3500.0))) == 2163
  {
    var r := CalculateTax(Num(50000.0), Num(5000.0), Num(3500.0));
    assert r.taxableIncome == 45000.0;
    assert r.grossTax == 10640.0;
    assert r.netTax == 7140.0;
    assert r.usc == 1677.0;
    assert r.prsi == 2000.0;
    assert r.totalTaxLiability == 10817.0;
    assert EffectiveRate(10817.0, 50000.0) == 21.634;
  }

  /** At the band edge the 1-euro excess over 36,800 is taxed at 40%. */
  lemma BandEdge()
    ensures CalculateTax(Num(36800.0), Absent, Absent).taxAtStandardRate == 7360.0
    ensures CalculateTax(Num(36800.0), Absent, Absent).taxAtHigherRate == 0.0
    ensures CalculateTax(Num(36801.0), Absent, Absent).taxAtStandardRate == 7360.0
    ensures CalculateTax(Num(36801.0), Absent, Absent).taxAtHigherRate == 0.4
  {
  }

  /**
   * The USC cliff: income of exactly 13,000 pays no USC, one euro more pays
   * 2% on the whole amount, so net income falls.
   */
  lemma UscCliff()
    ensures CalculateTax(Num(13000.0), Absent, Absent).usc == 0.0
    ensures CalculateTax(Num(13001.0), Absent, Absent).usc == 260.02
    ensures CalculateTax(Num(13001.0), Absent, Absent).netIncome
          < CalculateTax(Num(13000.0), Absent, Absent).netIncome
  {
  }

  /**
   * The PRSI cliff: income of exactly 18,304 pays no PRSI, one euro more
   * pays 4% on the whole amount, so net income falls.
   */
  lemma PrsiCliff()
    ensures CalculateTax(Num(18304.0), Absent, Absent).prsi == 0.0
    ensures CalculateTax(Num(18305.0), Absent, Absent).prsi == 732.2
    ensures CalculateTax(Num(18305.0), Absent, Absent).netIncome
          < CalculateTax(Num(18304.0), Absent, Absent).netIncome
  {
  }
}
