# Finance calculators, modelled in Dafny

This project models the computing core of three small personal-finance
calculators and proves properties of that model.

- **Income tax** (`income_tax.dfy`, module `IncomeTax`):
  - The progressive bracket engine. An ordered table of (marginal rate in
    percent, upper bound) rows is walked from index 1. Every bracket whose
    bound the income exceeds is taxed in full, then the part of the first
    bracket it does not exceed, and the walk stops there.
  - A flat FICA tax.
  - The report, which taxes one deduction-adjusted income in three
    jurisdictions plus FICA and sums the amounts and the effective rates.
- **Budget** (`budget.dfy`, module `Budget`): one annual budget from a base
  salary, a flat tax rate, a post-tax bonus, 401k and Roth IRA
  contributions, employer match periods, monthly expenses and a few savings
  settings. It has these sections:
  - income;
  - stock purchase;
  - retirement;
  - expenses;
  - emergency fund;
  - additional savings;
  - a summary comparing the accumulated spending with the net salary.
- **Bonus** (`bonus.dfy`, module `Bonus`): a bonus split into federal,
  state, local and FICA shares and the net bonus.
- `sums.dfy` (module `Sums`) holds the left-to-right sum used for the
  employer match total and the expense total. It proves that a sum splits
  over concatenation and does not depend on the order of the elements.

How each part is modelled:

- All amounts are Dafny `real`s, computed exactly.
- The bracket loop is a method with a `for` loop and an early `break`. It is
  proved equal to a recursive specification (`TaxFrom`), about which the
  closed form, sign, monotonicity and halting properties are proved.
- The budget calculation is a method. It keeps the source's accumulating
  loop over the employer match periods. The straight-line arithmetic of
  each section is a small method, including the in-place addition of the
  bonus to the post-stock salary and paycheck. Each section method is
  specified by a predicate stated without division: an amount "per
  paycheck" is one that, paid `f` times, gives the annual amount, where `f`
  is the paycheck frequency. For each section a lemma proves that its
  predicate admits at most one value. So the specification fixes every
  field the code computes.
- The textual advice of the budget summary becomes the datatype `Advice`.
  It is `Balanced`, or `Overspending` with the excess per year and per
  paycheck, or `Underspending` with the surplus per year and per paycheck.

Two consequences of the code are worth knowing:

- **Effective rate.** The effective rate is not monotone in income. The
  code taxes nothing above the top bound, so the rate falls there.
  `IncomeTax.SampleFigures` shows this: 18% at 50000 and 15% at 60000 on
  the table [(0, 0), (10, 10000), (20, 50000)]. The tax amount itself is
  monotone (`IncomeTax.BracketTaxMonotone`).
- **Zero income.** A zero income with a non-empty table makes the code
  divide by zero. The model makes a non-zero income a precondition in
  exactly the cases where the code divides:
  - for the bracket engine, a non-empty table;
  - for the report, any of the three tables non-empty;
  - for the budget, the paycheck frequency.

## Model

| member | source | states |
|---|---|---|
| IncomeTax.CalculateBracketTax | Income_Tax_Calculator/income_tax_calculator.py:58-75 | The loop with its early exit returns exactly the tax and rate of the bracket specification. An empty table gives (0, 0). |
| IncomeTax.BracketTaxResult | Income_Tax_Calculator/income_tax_calculator.py:58-75 | The amount is the bracket tax. The effective rate is that amount as a percentage of the income. An empty table gives (0, 0). |
| IncomeTax.FirstWithin | Income_Tax_Calculator/income_tax_calculator.py:64-73 | The bracket where the walk stops: the income exceeds every earlier bound and does not exceed this one. With no such bracket it is the table length. |
| IncomeTax.BracketTaxClosedForm | Income_Tax_Calculator/income_tax_calculator.py:64-73 | The tax is the sum of the full slices of the brackets before the terminal one, plus the partial slice of the terminal bracket. |
| IncomeTax.NoLaterBracketContributes | Income_Tax_Calculator/income_tax_calculator.py:67-73 | The walk halts at the terminal bracket: any table agreeing up to and including it gives the same tax. |
| IncomeTax.TopBoundCapsTax | Income_Tax_Calculator/income_tax_calculator.py:64-66 | When the income exceeds every bound from index 1 on (on a table with increasing bounds: any income above the top bound), every bracket is taxed in full and nothing more. |
| IncomeTax.BracketTaxNonNegative | Income_Tax_Calculator/income_tax_calculator.py:64-73 | On a table with increasing bounds and non-negative rates from index 1 on (the rate of row 0 is never read), the tax is never negative. |
| IncomeTax.BracketTaxMonotone | Income_Tax_Calculator/income_tax_calculator.py:64-73 | On such a table, a higher income never owes less tax. |
| IncomeTax.SampleFigures | Income_Tax_Calculator/income_tax_calculator.py:58-75 | 5000 owes 500 at 10%, and 60000 owes 9000 at 15%. 50000 also owes 9000, at 18%, so the effective rate is not monotone. |
| IncomeTax.FicaTax | Income_Tax_Calculator/income_tax_calculator.py:78-79 | The reported rate is the flat rate and is the effective rate of the amount. The amount is non-negative for a non-negative income and rate. |
| IncomeTax.FicaFigure | Income_Tax_Calculator/income_tax_calculator.py:78-79 | 7.65% of 100000 is 7650. |
| IncomeTax.CalculateTax | Income_Tax_Calculator/income_tax_calculator.py:15-55 | Each jurisdiction is taxed independently on the same adjusted income. The summary adds the amounts and adds the rates, and the summed rate is the effective rate of the summed amount. The net income is the adjusted income less the summary amount. |
| IncomeTax.DeductionAppliedOnce | Income_Tax_Calculator/income_tax_calculator.py:18 | Deducting up front equals reporting on the reduced income with no deduction. |
| IncomeTax.TotalAmount | Income_Tax_Calculator/income_tax_calculator.py:18-54 | The summary amount is the three bracket taxes plus FICA on the adjusted income, and the net income is what that leaves. |
| IncomeTax.TotalTaxMonotone | Income_Tax_Calculator/income_tax_calculator.py:19-25 | On well-formed tables with a non-negative FICA rate, a higher income never owes less in total. |
| IncomeTax.TotalTaxNonNegative | Income_Tax_Calculator/income_tax_calculator.py:19-25 | On well-formed tables with a non-negative FICA rate and income, the total tax is non-negative, so the net income is at most the adjusted income. |
| Budget.EmployerMatchIsShareOfSalary | Budget_Calculator/budget_calculator.py:126-128 | The employer match is the base salary times the sum over the periods of percentage/100 times duration. |
| Budget.EmployerMatchOrderIrrelevant | Budget_Calculator/budget_calculator.py:126-128 | Listing the match periods in another order gives the same total. |
| Budget.ExpensesOrderIrrelevant | Budget_Calculator/budget_calculator.py:160 | Listing the expenses in another order gives the same monthly total. |
| Budget.StockOf | Budget_Calculator/budget_calculator.py:140-141 | The company matches a share of the employee's stock purchase. The total is the purchase times one plus the matching share. |
| Budget.StockMatchRaisesNetSalary | Budget_Calculator/budget_calculator.py:140-157 | Of the stock plan only the company's match reaches the net salary, taxed at the flat rate first; the employee's own purchase is never deducted. Against the same income without the match, the net salary rises by base salary times stock share times matching share times one less the tax rate. |
| Budget.ComputeIncome | Budget_Calculator/budget_calculator.py:119-157 | Tax is levied on the base salary, not on the salary after the 401k contribution. After the stock match and the bonus are added, each paycheck is still its salary spread over `f` paychecks. The net salary is the post-bonus salary less the Roth IRA contribution. |
| Budget.ComputeRetirement | Budget_Calculator/budget_calculator.py:122-153 | The 401k total is the individual contribution plus the match. The 401k and Roth IRA contributions are spread over the paychecks, and the Roth IRA also over twelve months. |
| Budget.ComputeExpenses | Budget_Calculator/budget_calculator.py:160-163 | Over `f` paychecks, the per-paycheck share pays twelve months of expenses. |
| Budget.ComputeSavings | Budget_Calculator/budget_calculator.py:166-169 | The savings per paycheck are the rate applied to the net paycheck. Twelve monthly amounts equal `f` per-paycheck amounts. |
| Budget.ComputeEmergencyFund | Budget_Calculator/budget_calculator.py:172-180 | The fund covers the given months of expenses. With a positive payoff period, saving the monthly amount that many months gives exactly the fund. Otherwise nothing is saved. |
| Budget.Summarize | Budget_Calculator/budget_calculator.py:182-241 | The spending is the five per-paycheck items over `f` paychecks. The budget passes only when the spending is below the net salary. The advice is balanced, overspending or underspending exactly as the spending equals, exceeds or falls short of the net salary, with the gaps per year and per paycheck. |
| Budget.Calculate | Budget_Calculator/budget_calculator.py:81-243 | The loop sums the employer match periods in list order. The resulting budget meets every section's specification, with the match total and the expense total as their sums. |
| Budget.AccumulatedSpendingIsAnnualTotal | Budget_Calculator/budget_calculator.py:182-188 | The accumulated spending is an annual total: the 401k and Roth IRA contributions, twelve months of expenses and of emergency fund saving, and the savings rate times the net salary. |
| Budget.SavingsAreShareOfNetSalary | Budget_Calculator/budget_calculator.py:166-169 | Over a year, the additional savings are the savings rate applied to the net salary. |
| Budget.AdviceGapPerPaycheck | Budget_Calculator/budget_calculator.py:235-239 | The per-paycheck excess or surplus in the advice is the annual one spread over `f` paychecks. |
| Budget.NetSalaryShifts | Budget_Calculator/budget_calculator.py:132-156 | A larger bonus raises the net salary by the same amount. A larger 401k contribution lowers it by the full amount, because tax does not fall with it. |
| Budget.IncomeSpecDetermined | Budget_Calculator/budget_calculator.py:119-157 | With `f` non-zero, at most one income section meets its specification. |
| Budget.RetirementSpecDetermined | Budget_Calculator/budget_calculator.py:122-153 | With `f` non-zero, at most one retirement section meets its specification. |
| Budget.ExpensesSpecDetermined | Budget_Calculator/budget_calculator.py:160-163 | With `f` non-zero, at most one expenses section meets its specification. |
| Budget.EmergencyFundSpecDetermined | Budget_Calculator/budget_calculator.py:172-180 | With `f` non-zero, at most one emergency fund section meets its specification. |
| Budget.SavingsSpecDetermined | Budget_Calculator/budget_calculator.py:166-169 | At most one savings section meets its specification. |
| Budget.SummarySpecDetermined | Budget_Calculator/budget_calculator.py:182-241 | With `f` non-zero, at most one summary meets its specification. |
| Bonus.CalculateBonusPostTax | Bonus_Calculator/bonus_calculator.py:22-31 | Each tax share is its rate applied to the whole bonus. The shares and the net bonus add back up to the bonus. The net bonus is the bonus less the total rate's share. |
| Bonus.UntaxedBonusKept | Bonus_Calculator/bonus_calculator.py:23 | With all four rates zero, the net bonus is the bonus. |
| Bonus.NetBonusWithinBonus | Bonus_Calculator/bonus_calculator.py:23 | With non-negative rates summing to at most 1, a non-negative bonus nets between 0 and the bonus. |
| Bonus.NetBonusMonotone | Bonus_Calculator/bonus_calculator.py:23 | With rates summing to at most 1, a larger bonus never nets less. |

## Left out

- Command-line handling, JSON loading, console printing and the `run` functions of all three calculators. These are I/O around the calculations.
- The chart functions `plot_tax`, `plot_budget_pie_chart` and `plot_bonus`. They only hand values to a charting library.
- Floating-point rounding: amounts are exact reals, so results may differ from the program's in the last bits.
- The `,.2f` currency formatting of the budget advice. The advice is a datatype carrying the same figures.
- A bracket table given as Python `None` behaves as the empty table, which is how it is modelled.
- A zero income with a non-empty bracket table, or a zero paycheck frequency, makes the program fail with a division by zero. With an empty table a zero income returns (0, 0) before any division, and the model keeps that case. The model states a precondition in exactly the failing cases instead.
- The default paycheck frequency of 26 in `calculate` is not modelled. The frequency is always passed explicitly, as `run` does.
- Dictionary inputs (expenses, misc settings) are records and sequences. Unique expense names are not required, since only the values are summed.
- Budget.Calculate: the straight-line lines of `calculate` are split into one method per output section and run section by section. Their relative order and the order of the independent lines differ from the source; none of them reads a value another section writes later.
- Budget.Calculate: the post-tax bonus is added in place inside `ComputeIncome`. Its effect on the final budget is stated through `IncomeSpec`, not as a separate step of `Calculate`.
- The command-line overwrite of the pre-tax deduction in `run` is outside the model, like the rest of `run`. `calculate` takes the deduction as an input.
