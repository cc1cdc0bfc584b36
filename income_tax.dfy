/**
 * The progressive bracket tax engine of the income tax calculator: a tax
 * per jurisdiction from an ordered table of (rate, upper bound) brackets, a
 * flat FICA tax, and the report that sums them over one deduction-adjusted
 * income.
 */
module IncomeTax {

  /** One row of a bracket table: a marginal rate in percent and the upper income bound it applies up to. */
  datatype Bracket = Bracket(rate: real, bound: real)

  /** A tax amount together with its effective rate in percent. */
  datatype TaxResult = TaxResult(amount: real, effectiveRate: real)

  /** The report for all jurisdictions on one income. */
  datatype TaxReport = TaxReport(
    federal: TaxResult,
    state: TaxResult,
    local: TaxResult,
    fica: TaxResult,
    summary: TaxResult,
    netIncome: real)

  /** The table shape the bracket algorithm is designed for: bounds strictly increasing, and non-negative rates from index 1 on (the walk never reads the rate of row 0). */
  predicate WellFormed(b: seq<Bracket>)
  {
    (forall i, j :: 0 <= i < j < |b| ==> b[i].bound < b[j].bound) &&
    (forall i :: 1 <= i < |b| ==> b[i].rate >= 0.0)
  }

  /** Tax on the whole slice of bracket `i`, from the previous bound up to its own. */
  function FullSlice(b: seq<Bracket>, i: nat): real
    requires 1 <= i < |b|
  {
    (b[i].bound - b[i - 1].bound) * b[i].rate / 100.0
  }

  /** Tax on the part of bracket `i` that `income` reaches; nothing when it stays at or below the previous bound. */
  function PartialSlice(income: real, b: seq<Bracket>, i: nat): real
    requires 1 <= i < |b|
  {
    if income > b[i - 1].bound then (income - b[i - 1].bound) * b[i].rate / 100.0 else 0.0
  }

  /**
   * The tax the bracket walk still adds when it arrives at index `i`: the
   * full slice of every bracket whose bound the income exceeds, then the
   * partial slice of the first one it does not exceed, and then it stops.
   */
  function TaxFrom(income: real, b: seq<Bracket>, i: nat): real
    requires 1 <= i <= |b|
    decreases |b| - i
  {
    if i == |b| then 0.0
    else if income > b[i].bound then FullSlice(b, i) + TaxFrom(income, b, i + 1)
    else PartialSlice(income, b, i)
  }

  /** The bracket tax owed on `income`; an empty table owes nothing. */
  function BracketTax(income: real, b: seq<Bracket>): real
  {
    if |b| == 0 then 0.0 else TaxFrom(income, b, 1)
  }

  /**
   * The (tax, effective rate) pair of the bracket engine. The rate is the
   * tax as a percentage of income, so a non-empty table needs a non-zero
   * income.
   */
  function BracketTaxResult(income: real, b: seq<Bracket>): (r: TaxResult)
    requires |b| > 0 ==> income != 0.0
    ensures r.amount == BracketTax(income, b)
    ensures |b| == 0 ==> r == TaxResult(0.0, 0.0)
    ensures r.effectiveRate * income == r.amount * 100.0
  {
    if |b| == 0 then TaxResult(0.0, 0.0)
    else TaxResult(BracketTax(income, b), BracketTax(income, b) / income * 100.0)
  }

  /** The bracket engine as the source runs it: one pass from index 1 with a running total and an early exit. */
  method CalculateBracketTax(income: real, b: seq<Bracket>) returns (tax: real, rate: real)
    requires |b| > 0 ==> income != 0.0
    ensures TaxResult(tax, rate) == BracketTaxResult(income, b)
  {
    if |b| == 0 {
      return 0.0, 0.0;
    }
    tax := 0.0;
    for i := 1 to |b|
      invariant tax + TaxFrom(income, b, i) == TaxFrom(income, b, 1)
    {
      if income > b[i].bound {
        tax := tax + (b[i].bound - b[i - 1].bound) * b[i].rate / 100.0;
      } else {
        tax := tax + if income > b[i - 1].bound then (income - b[i - 1].bound) * b[i].rate / 100.0 else 0.0;
        break;
      }
    }
    rate := tax / income * 100.0;
  }

  // ---------------------------------------------------------------------
  // The closed form: full slices up to the terminal bracket, then its part.
  // ---------------------------------------------------------------------

  /** The first index from `i` on whose bound `income` does not exceed, or `|b|` when there is none. */
  function FirstWithin(income: real, b: seq<Bracket>, i: nat): (k: nat)
    requires 1 <= i <= |b|
    ensures i <= k <= |b|
    ensures forall j :: i <= j < k ==> income > b[j].bound
    ensures k < |b| ==> income <= b[k].bound
    decreases |b| - i
  {
    if i == |b| then i
    else if income > b[i].bound then FirstWithin(income, b, i + 1)
    else i
  }

  /** The sum of the full slices of brackets `lo` up to but excluding `hi`. */
  function SumFull(b: seq<Bracket>, lo: nat, hi: nat): real
    requires 1 <= lo <= hi <= |b|
    decreases hi - lo
  {
    if lo == hi then 0.0 else FullSlice(b, lo) + SumFull(b, lo + 1, hi)
  }

  lemma {:induction false} TaxFromClosedForm(income: real, b: seq<Bracket>, i: nat)
    requires 1 <= i <= |b|
    ensures var k := FirstWithin(income, b, i);
            TaxFrom(income, b, i) == SumFull(b, i, k) + (if k < |b| then PartialSlice(income, b, k) else 0.0)
    decreases |b| - i
  {
    if i < |b| && income > b[i].bound {
      TaxFromClosedForm(income, b, i + 1);
    }
  }

  /**
   * The bracket tax is the sum of the full slices of every bracket before
   * the terminal one `k` (the first whose bound the income does not
   * exceed), plus the partial slice of bracket `k` itself.
   */
  lemma BracketTaxClosedForm(income: real, b: seq<Bracket>)
    requires |b| > 0
    ensures var k := FirstWithin(income, b, 1);
            BracketTax(income, b) == SumFull(b, 1, k) + (if k < |b| then PartialSlice(income, b, k) else 0.0)
  {
    TaxFromClosedForm(income, b, 1);
  }

  lemma {:induction false} TaxFromIgnoresLaterBrackets(income: real, b: seq<Bracket>, c: seq<Bracket>, i: nat)
    requires 1 <= i <= |b|
    requires FirstWithin(income, b, i) < |b|
    requires |c| > FirstWithin(income, b, i)
    requires c[..FirstWithin(income, b, i) + 1] == b[..FirstWithin(income, b, i) + 1]
    ensures TaxFrom(income, c, i) == TaxFrom(income, b, i)
    decreases |b| - i
  {
    var k := FirstWithin(income, b, i);
    assert b[i] == b[..k + 1][i] == c[..k + 1][i] == c[i];
    assert b[i - 1] == b[..k + 1][i - 1] == c[..k + 1][i - 1] == c[i - 1];
    if income > b[i].bound {
      TaxFromIgnoresLaterBrackets(income, b, c, i + 1);
    }
  }

  /**
   * The walk halts at the terminal bracket `k`: any table that agrees with
   * `b` up to and including index `k` yields the same tax, whatever
   * follows.
   */
  lemma NoLaterBracketContributes(income: real, b: seq<Bracket>, c: seq<Bracket>)
    requires |b| > 0
    requires FirstWithin(income, b, 1) < |b|
    requires |c| > FirstWithin(income, b, 1)
    requires c[..FirstWithin(income, b, 1) + 1] == b[..FirstWithin(income, b, 1) + 1]
    ensures BracketTax(income, c) == BracketTax(income, b)
  {
    TaxFromIgnoresLaterBrackets(income, b, c, 1);
  }

  /**
   * An income above every bound from index 1 on has every bracket taxed in
   * full and the excess not taxed at all, so the tax there no longer
   * depends on income. On a table with increasing bounds this is any
   * income above the top bound.
   */
  lemma TopBoundCapsTax(income: real, b: seq<Bracket>)
    requires |b| > 0
    requires forall j :: 1 <= j < |b| ==> income > b[j].bound
    ensures BracketTax(income, b) == SumFull(b, 1, |b|)
  {
    assert FirstWithin(income, b, 1) == |b|;
    TaxFromClosedForm(income, b, 1);
  }

  // ---------------------------------------------------------------------
  // Sign and monotonicity on well-formed tables.
  // ---------------------------------------------------------------------

  lemma FullSliceNonNegative(b: seq<Bracket>, i: nat)
    requires 1 <= i < |b| && WellFormed(b)
    ensures FullSlice(b, i) >= 0.0
  {
    assert b[i - 1].bound < b[i].bound && b[i].rate >= 0.0;
    MulNonNegative(b[i].bound - b[i - 1].bound, b[i].rate);
  }

  lemma MulNonNegative(x: real, y: real)
    requires x >= 0.0 && y >= 0.0
    ensures x * y / 100.0 >= 0.0
  {}

  lemma MulMonotone(x: real, x': real, y: real)
    requires x <= x' && y >= 0.0
    ensures x * y / 100.0 <= x' * y / 100.0
  {
    MulNonNegative(x' - x, y);
  }

  lemma {:induction false} TaxFromNonNegative(income: real, b: seq<Bracket>, i: nat)
    requires 1 <= i <= |b| && WellFormed(b)
    ensures TaxFrom(income, b, i) >= 0.0
    decreases |b| - i
  {
    if i < |b| {
      assert b[i].rate >= 0.0;
      if income > b[i].bound {
        FullSliceNonNegative(b, i);
        TaxFromNonNegative(income, b, i + 1);
      } else if income > b[i - 1].bound {
        MulNonNegative(income - b[i - 1].bound, b[i].rate);
      }
    }
  }

  /** On a well-formed table the bracket tax is never negative. */
  lemma BracketTaxNonNegative(income: real, b: seq<Bracket>)
    requires WellFormed(b)
    ensures BracketTax(income, b) >= 0.0
  {
    if |b| > 0 {
      TaxFromNonNegative(income, b, 1);
    }
  }

  /** The partial slice of a bracket never exceeds its full slice. */
  lemma PartialAtMostFull(income: real, b: seq<Bracket>, i: nat)
    requires 1 <= i < |b| && WellFormed(b)
    requires income <= b[i].bound
    ensures PartialSlice(income, b, i) <= FullSlice(b, i)
  {
    assert b[i].rate >= 0.0;
    if income > b[i - 1].bound {
      MulMonotone(income - b[i - 1].bound, b[i].bound - b[i - 1].bound, b[i].rate);
    } else {
      FullSliceNonNegative(b, i);
    }
  }

  lemma {:induction false} TaxFromMonotone(x: real, y: real, b: seq<Bracket>, i: nat)
    requires 1 <= i <= |b| && WellFormed(b)
    requires x <= y
    ensures TaxFrom(x, b, i) <= TaxFrom(y, b, i)
    decreases |b| - i
  {
    if i < |b| {
      assert b[i].rate >= 0.0;
      if x > b[i].bound {
        TaxFromMonotone(x, y, b, i + 1);
      } else if y > b[i].bound {
        PartialAtMostFull(x, b, i);
        TaxFromNonNegative(y, b, i + 1);
      } else {
        PartialSliceMonotone(x, y, b, i);
      }
    }
  }

  lemma PartialSliceMonotone(x: real, y: real, b: seq<Bracket>, i: nat)
    requires 1 <= i < |b| && b[i].rate >= 0.0
    requires x <= y
    ensures PartialSlice(x, b, i) <= PartialSlice(y, b, i)
  {
    if x > b[i - 1].bound {
      MulMonotone(x - b[i - 1].bound, y - b[i - 1].bound, b[i].rate);
    } else if y > b[i - 1].bound {
      assert PartialSlice(x, b, i) == 0.0;
      MulNonNegative(y - b[i - 1].bound, b[i].rate);
      assert PartialSlice(y, b, i) == (y - b[i - 1].bound) * b[i].rate / 100.0;
    }
  }

  /** On a well-formed table a higher income never owes less tax. */
  lemma BracketTaxMonotone(x: real, y: real, b: seq<Bracket>)
    requires WellFormed(b) && x <= y
    ensures BracketTax(x, b) <= BracketTax(y, b)
  {
    if |b| > 0 {
      TaxFromMonotone(x, y, b, 1);
    }
  }

  // ---------------------------------------------------------------------
  // Worked figures for the table [(0, 0), (10, 10000), (20, 50000)].
  // ---------------------------------------------------------------------

  function SampleBrackets(): seq<Bracket>
  {
    [Bracket(0.0, 0.0), Bracket(10.0, 10000.0), Bracket(20.0, 50000.0)]
  }

  /**
   * Income inside the second bracket is taxed on its part only; income
   * above the top bound is taxed on both full slices and nothing more; and
   * the effective rate falls from 18% at 50000 to 15% at 60000, so it is
   * not monotone in income even though the amount is.
   */
  lemma SampleFigures()
    ensures BracketTaxResult(5000.0, SampleBrackets()) == TaxResult(500.0, 10.0)
    ensures BracketTaxResult(60000.0, SampleBrackets()) == TaxResult(9000.0, 15.0)
    ensures BracketTaxResult(50000.0, SampleBrackets()) == TaxResult(9000.0, 18.0)
  {
    var b := SampleBrackets();
    assert FullSlice(b, 1) == 1000.0;
    assert FullSlice(b, 2) == 8000.0;
  }

  // ---------------------------------------------------------------------
  // FICA and the report over all jurisdictions.
  // ---------------------------------------------------------------------

  /** The flat FICA tax; its reported rate is the flat rate itself. */
  function FicaTax(income: real, fica: real): (r: TaxResult)
    ensures r.effectiveRate == fica
    ensures r.effectiveRate * income == r.amount * 100.0
    ensures income >= 0.0 && fica >= 0.0 ==> r.amount >= 0.0
  {
    TaxResult(income * fica / 100.0, fica)
  }

  /** 7.65% of 100000 is 7650. */
  lemma FicaFigure()
    ensures FicaTax(100000.0, 7.65) == TaxResult(7650.0, 7.65)
  {}

  /** An income the three bracket computations can take: non-zero whenever one of the tables is not empty. */
  predicate RateDefined(income: real, federal: seq<Bracket>, state: seq<Bracket>, local: seq<Bracket>)
  {
    (|federal| > 0 || |state| > 0 || |local| > 0) ==> income != 0.0
  }

  /**
   * Amounts each reported with their effective rate on the same income add
   * up to an amount whose effective rate is the sum of the rates.
   */
  lemma RatesAddUp(income: real, a: TaxResult, b: TaxResult, c: TaxResult, d: TaxResult, total: TaxResult)
    requires a.effectiveRate * income == a.amount * 100.0
    requires b.effectiveRate * income == b.amount * 100.0
    requires c.effectiveRate * income == c.amount * 100.0
    requires d.effectiveRate * income == d.amount * 100.0
    requires total.amount == a.amount + b.amount + c.amount + d.amount
    requires total.effectiveRate == a.effectiveRate + b.effectiveRate + c.effectiveRate + d.effectiveRate
    ensures total.effectiveRate * income == total.amount * 100.0
  {
    assert total.effectiveRate * income
           == a.effectiveRate * income + b.effectiveRate * income + c.effectiveRate * income
              + d.effectiveRate * income;
  }

  /**
   * The full report: the deductions come off once, every jurisdiction is
   * taxed independently on that same adjusted income, the summary adds up
   * the four amounts and the four rates, and net income is what the
   * summary leaves of the adjusted income.
   */
  function CalculateTax(grossIncome: real, preTaxDeducts: real,
                        federal: seq<Bracket>, state: seq<Bracket>, local: seq<Bracket>,
                        fica: real): (r: TaxReport)
    requires RateDefined(grossIncome - preTaxDeducts, federal, state, local)
    ensures r.federal == BracketTaxResult(grossIncome - preTaxDeducts, federal)
    ensures r.state == BracketTaxResult(grossIncome - preTaxDeducts, state)
    ensures r.local == BracketTaxResult(grossIncome - preTaxDeducts, local)
    ensures r.fica == FicaTax(grossIncome - preTaxDeducts, fica)
    ensures r.summary.amount == r.federal.amount + r.state.amount + r.local.amount + r.fica.amount
    ensures r.summary.effectiveRate
            == r.federal.effectiveRate + r.state.effectiveRate + r.local.effectiveRate + r.fica.effectiveRate
    ensures r.summary.effectiveRate * (grossIncome - preTaxDeducts) == r.summary.amount * 100.0
    ensures r.netIncome + r.summary.amount == grossIncome - preTaxDeducts
  {
    var income := grossIncome - preTaxDeducts;
    var fed := BracketTaxResult(income, federal);
    var st := BracketTaxResult(income, state);
    var loc := BracketTaxResult(income, local);
    var fi := FicaTax(income, fica);
    var total := fed.amount + st.amount + loc.amount + fi.amount;
    var summary := TaxResult(total, fed.effectiveRate + st.effectiveRate + loc.effectiveRate + fi.effectiveRate);
    RatesAddUp(income, fed, st, loc, fi, summary);
    TaxReport(fed, st, loc, fi, summary, income - total)
  }

  /** Deducting up front is the same as taxing the already-reduced income with no deduction. */
  lemma DeductionAppliedOnce(grossIncome: real, preTaxDeducts: real,
                             federal: seq<Bracket>, state: seq<Bracket>, local: seq<Bracket>, fica: real)
    requires RateDefined(grossIncome - preTaxDeducts, federal, state, local)
    ensures CalculateTax(grossIncome, preTaxDeducts, federal, state, local, fica)
            == CalculateTax(grossIncome - preTaxDeducts, 0.0, federal, state, local, fica)
  {}

  /** The tax owed on an adjusted income over the three bracket tables and the flat FICA rate. */
  function TotalTax(income: real, federal: seq<Bracket>, state: seq<Bracket>, local: seq<Bracket>,
                    fica: real): real
  {
    BracketTax(income, federal) + BracketTax(income, state) + BracketTax(income, local) + income * fica / 100.0
  }

  /** The report's summary amount is the total tax on the adjusted income, and the net income is what it leaves. */
  lemma TotalAmount(grossIncome: real, preTaxDeducts: real,
                    federal: seq<Bracket>, state: seq<Bracket>, local: seq<Bracket>, fica: real)
    requires RateDefined(grossIncome - preTaxDeducts, federal, state, local)
    ensures var r := CalculateTax(grossIncome, preTaxDeducts, federal, state, local, fica);
            var total := TotalTax(grossIncome - preTaxDeducts, federal, state, local, fica);
            r.summary.amount == total && r.netIncome == grossIncome - preTaxDeducts - total
  {}

  lemma SumOfFourMonotone(a: real, b: real, c: real, d: real, a': real, b': real, c': real, d': real)
    requires a <= a' && b <= b' && c <= c' && d <= d'
    ensures a + b + c + d <= a' + b' + c' + d'
  {}

  /**
   * With well-formed tables and a non-negative FICA rate, a higher income
   * never owes less in total (together with TotalAmount: a higher gross
   * income never gets a smaller summary amount).
   */
  lemma TotalTaxMonotone(x: real, y: real, federal: seq<Bracket>, state: seq<Bracket>, local: seq<Bracket>,
                         fica: real)
    requires WellFormed(federal) && WellFormed(state) && WellFormed(local) && fica >= 0.0
    requires x <= y
    ensures TotalTax(x, federal, state, local, fica) <= TotalTax(y, federal, state, local, fica)
  {
    BracketTaxMonotone(x, y, federal);
    BracketTaxMonotone(x, y, state);
    BracketTaxMonotone(x, y, local);
    MulMonotone(x, y, fica);
    SumOfFourMonotone(BracketTax(x, federal), BracketTax(x, state), BracketTax(x, local), x * fica / 100.0,
                      BracketTax(y, federal), BracketTax(y, state), BracketTax(y, local), y * fica / 100.0);
  }

  /**
   * With well-formed tables, a non-negative FICA rate and a non-negative
   * income, the total tax is never negative (together with TotalAmount: net
   * income never exceeds the adjusted income).
   */
  lemma TotalTaxNonNegative(income: real, federal: seq<Bracket>, state: seq<Bracket>, local: seq<Bracket>,
                            fica: real)
    requires WellFormed(federal) && WellFormed(state) && WellFormed(local) && fica >= 0.0
    requires income >= 0.0
    ensures TotalTax(income, federal, state, local, fica) >= 0.0
  {
    BracketTaxNonNegative(income, federal);
    BracketTaxNonNegative(income, state);
    BracketTaxNonNegative(income, local);
    MulNonNegative(income, fica);
  }
}
