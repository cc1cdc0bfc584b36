/**
 * The budget calculator: from a salary, a flat tax rate, retirement
 * contributions, employer match periods, monthly expenses and a few
 * savings settings, one annual budget broken down per year, per month and
 * per paycheck, with a verdict on whether the planned spending fits the
 * net salary.
 */
module Budget {
  import opened Sums

  /** One employer match period: a match percentage of base salary, applied for `duration` (a factor, such as a fraction of the year). */
  datatype EmployerMatch = EmployerMatch(percentage: real, duration: real)

  /** One named monthly expense. */
  datatype Expense = Expense(name: string, monthly: real)

  /** The miscellaneous settings: savings rate and emergency fund plan, stock purchase and match, pre-tax deductions. */
  datatype Misc = Misc(
    savingsRate: real,
    emergencyFundMonths: real,
    emergencyFundPayoffMonths: real,
    stock: real,
    stockMatching: real,
    preTaxDeductions: real)

  datatype IncomeSection = IncomeSection(
    baseSalary: real,
    grossPaycheck: real,
    postTaxSalary: real,
    postTaxPaycheck: real,
    postStockBonusSalary: real,
    postStockBonusPaycheck: real,
    netSalary: real,
    netPaycheck: real)

  datatype StockSection = StockSection(
    stockContribution: real,
    companyContribution: real,
    totalContribution: real)

  datatype RetirementSection = RetirementSection(
    individual401k: real,
    employerMatch: real,
    total401k: real,
    individual401kPerPaycheck: real,
    rothIra: real,
    rothIraPerMonth: real,
    rothIraPerPaycheck: real)

  datatype ExpensesSection = ExpensesSection(perPaycheck: real, monthly: real)

  datatype EmergencyFundSection = EmergencyFundSection(required: real, perPaycheck: real, perMonth: real)

  datatype SavingsSection = SavingsSection(perPaycheck: real, perMonth: real)

  /**
   * The verdict on the planned spending against the net salary, with the
   * gap per year and per paycheck when there is one.
   */
  datatype Advice =
    | Balanced
    | Overspending(annualExcess: real, perPaycheckExcess: real)
    | Underspending(annualSurplus: real, perPaycheckSurplus: real)

  datatype Summary = Summary(accumulatedSpending: real, pass: bool, advice: Advice)

  datatype Budget = Budget(
    income: IncomeSection,
    stock: StockSection,
    retirement: RetirementSection,
    expenses: ExpensesSection,
    emergencyFund: EmergencyFundSection,
    additionalSavings: SavingsSection,
    summary: Summary)

  /** The employer contribution of one match period. */
  function MatchAmount(baseSalary: real, m: EmployerMatch): real
  {
    baseSalary * (m.percentage / 100.0) * m.duration
  }

  function MatchTerm(baseSalary: real): EmployerMatch -> real
  {
    m => MatchAmount(baseSalary, m)
  }

  /** The total employer match: the contributions of all match periods, summed in list order. */
  function EmployerMatchTotal(baseSalary: real, matches: seq<EmployerMatch>): real
  {
    SumOf(matches, MatchTerm(baseSalary))
  }

  /** The share of base salary that one match period contributes. */
  function MatchShare(m: EmployerMatch): real
  {
    m.percentage / 100.0 * m.duration
  }

  function Monthly(e: Expense): real
  {
    e.monthly
  }

  /** The total of the monthly expenses. */
  function TotalMonthlyExpenses(expenses: seq<Expense>): real
  {
    SumOf(expenses, Monthly)
  }

  /** The listed order of the match periods does not change the total match. */
  lemma EmployerMatchOrderIrrelevant(baseSalary: real, ms: seq<EmployerMatch>, ns: seq<EmployerMatch>)
    requires multiset(ms) == multiset(ns)
    ensures EmployerMatchTotal(baseSalary, ms) == EmployerMatchTotal(baseSalary, ns)
  {
    SumOfPermutation(ms, ns, MatchTerm(baseSalary));
  }

  /** The listed order of the expenses does not change their total. */
  lemma ExpensesOrderIrrelevant(es: seq<Expense>, fs: seq<Expense>)
    requires multiset(es) == multiset(fs)
    ensures TotalMonthlyExpenses(es) == TotalMonthlyExpenses(fs)
  {
    SumOfPermutation(es, fs, Monthly);
  }

  /** The employer match is a fixed share of base salary: the sum of the periods' percentage times duration. */
  lemma {:induction false} EmployerMatchIsShareOfSalary(baseSalary: real, ms: seq<EmployerMatch>)
    ensures EmployerMatchTotal(baseSalary, ms) == baseSalary * SumOf(ms, MatchShare)
    decreases |ms|
  {
    if ms != [] {
      EmployerMatchIsShareOfSalary(baseSalary, ms[..|ms| - 1]);
    }
  }

  /** The stock section: the employee buys a share of base salary and the company matches a share of that. */
  function StockOf(baseSalary: real, stock: real, stockMatching: real): (s: StockSection)
    ensures s.stockContribution == baseSalary * stock
    ensures s.companyContribution == s.stockContribution * stockMatching
    ensures s.totalContribution == s.stockContribution * (1.0 + stockMatching)
  {
    var stockContribution := baseSalary * stock;
    var companyContribution := stockContribution * stockMatching;
    StockSection(stockContribution, companyContribution, stockContribution + companyContribution)
  }

  /*
   * What each section of the budget must hold, stated without division:
   * an amount "per paycheck" is one that, paid `f` times, gives the annual
   * amount, and one "per month" is one that, paid twelve times, does.
   */

  /**
   * The income section. Tax is levied on the base salary, not on what is
   * left after the 401k contribution; the company's stock contribution is
   * added after tax, then the post-tax bonus; the Roth IRA contribution
   * comes out last; each paycheck is its salary spread over `f` paychecks.
   */
  predicate IncomeSpec(inc: IncomeSection, baseSalary: real, taxRate: real, postTaxBonus: real,
                       max401kContribution: real, maxRothIraContribution: real,
                       preTaxDeductions: real, companyContribution: real, f: real)
  {
    && inc.baseSalary == baseSalary
    && inc.grossPaycheck * f == baseSalary
    && inc.postTaxSalary == baseSalary - max401kContribution - preTaxDeductions - baseSalary * taxRate / 100.0
    && inc.postTaxPaycheck * f == inc.postTaxSalary
    && inc.postStockBonusSalary
       == inc.postTaxSalary + companyContribution * (1.0 - taxRate / 100.0) + postTaxBonus
    && inc.postStockBonusPaycheck * f == inc.postStockBonusSalary
    && inc.netSalary == inc.postStockBonusSalary - maxRothIraContribution
    && inc.netPaycheck * f == inc.netSalary
  }

  /**
   * The retirement section: the 401k total is the individual contribution
   * plus the employer match; the 401k and Roth IRA contributions are spread
   * over the paychecks, and the Roth IRA one over the months.
   */
  predicate RetirementSpec(ret: RetirementSection, max401kContribution: real, totalEmployerMatch: real,
                           maxRothIraContribution: real, f: real)
  {
    && ret.individual401k == max401kContribution
    && ret.employerMatch == totalEmployerMatch
    && ret.total401k == ret.individual401k + ret.employerMatch
    && ret.individual401kPerPaycheck * f == max401kContribution
    && ret.rothIra == maxRothIraContribution
    && ret.rothIraPerMonth * 12.0 == maxRothIraContribution
    && ret.rothIraPerPaycheck * f == maxRothIraContribution
  }

  /** The expenses section: the per-paycheck share pays twelve months of expenses over `f` paychecks. */
  predicate ExpensesSpec(e: ExpensesSection, monthlyExpenses: real, f: real)
  {
    e.monthly == monthlyExpenses && e.perPaycheck * f == 12.0 * monthlyExpenses
  }

  /**
   * The emergency fund section: the fund covers `months` months of
   * expenses; paying the monthly amount for `payoffMonths` months saves
   * exactly the fund, and with no positive payoff period nothing is saved.
   */
  predicate EmergencyFundSpec(ef: EmergencyFundSection, monthlyExpenses: real, months: real,
                              payoffMonths: real, f: real)
  {
    && ef.required == monthlyExpenses * months
    && (payoffMonths <= 0.0 ==> ef.perMonth == 0.0)
    && (payoffMonths > 0.0 ==> ef.perMonth * payoffMonths == ef.required)
    && ef.perPaycheck * f == 12.0 * ef.perMonth
  }

  /** The additional savings section: a share of each net paycheck, and the same yearly amount counted by month. */
  predicate SavingsSpec(s: SavingsSection, netPaycheck: real, savingsRate: real, f: real)
  {
    s.perPaycheck == netPaycheck * savingsRate && s.perMonth * 12.0 == s.perPaycheck * f
  }

  /**
   * The summary: the accumulated spending is the five per-paycheck items
   * over `f` paychecks; the budget passes when it is below the net salary;
   * the advice is balanced, overspending or underspending exactly as the
   * spending equals, exceeds or falls short of the net salary, with the gap
   * per year and the gap between one paycheck's share of the spending and
   * the net paycheck.
   */
  predicate SummarySpec(s: Summary, f: real, income: IncomeSection, retirement: RetirementSection,
                        expenses: ExpensesSection, emergencyFund: EmergencyFundSection, savings: SavingsSection)
  {
    var b := s.accumulatedSpending;
    && b == f * (retirement.individual401kPerPaycheck + retirement.rothIraPerPaycheck
                 + expenses.perPaycheck + emergencyFund.perPaycheck + savings.perPaycheck)
    && (s.pass <==> b < income.netSalary)
    && (s.advice.Balanced? <==> b == income.netSalary)
    && (s.advice.Overspending? <==> b > income.netSalary)
    && (s.advice.Underspending? <==> b < income.netSalary)
    && (s.advice.Overspending? ==>
          s.advice.annualExcess == b - income.netSalary &&
          s.advice.perPaycheckExcess * f == b - income.netPaycheck * f)
    && (s.advice.Underspending? ==>
          s.advice.annualSurplus == income.netSalary - b &&
          s.advice.perPaycheckSurplus * f == income.netPaycheck * f - b)
  }

  /** The whole budget for the given inputs, section by section. */
  predicate BudgetSpec(r: Budget, baseSalary: real, taxRate: real, postTaxBonus: real,
                       max401kContribution: real, maxRothIraContribution: real,
                       totalEmployerMatch: real, monthlyExpenses: real, misc: Misc, f: real)
  {
    && r.stock == StockOf(baseSalary, misc.stock, misc.stockMatching)
    && IncomeSpec(r.income, baseSalary, taxRate, postTaxBonus, max401kContribution, maxRothIraContribution,
                  misc.preTaxDeductions, r.stock.companyContribution, f)
    && RetirementSpec(r.retirement, max401kContribution, totalEmployerMatch,
                      maxRothIraContribution, f)
    && ExpensesSpec(r.expenses, monthlyExpenses, f)
    && EmergencyFundSpec(r.emergencyFund, monthlyExpenses, misc.emergencyFundMonths,
                         misc.emergencyFundPayoffMonths, f)
    && SavingsSpec(r.additionalSavings, r.income.netPaycheck, misc.savingsRate, f)
    && SummarySpec(r.summary, f, r.income, r.retirement, r.expenses, r.emergencyFund, r.additionalSavings)
  }

  /** The income lines of the calculation, with the bonus added to the salary and the paycheck in place. */
  method ComputeIncome(baseSalary: real, taxRate: real, postTaxBonus: real,
                       max401kContribution: real, maxRothIraContribution: real,
                       preTaxDeductions: real, companyContribution: real, f: real)
    returns (inc: IncomeSection)
    requires f != 0.0
    ensures IncomeSpec(inc, baseSalary, taxRate, postTaxBonus, max401kContribution, maxRothIraContribution,
                       preTaxDeductions, companyContribution, f)
  {
    var grossPaycheck := baseSalary / f;
    var post401kSalary := baseSalary - max401kContribution - preTaxDeductions;
    var annualTax := baseSalary * (taxRate / 100.0);
    var postTaxSalary := post401kSalary - annualTax;
    var postTaxPaycheck := postTaxSalary / f;
    var postStockBonusSalary := postTaxSalary + companyContribution * (1.0 - taxRate / 100.0);
    var postStockBonusPaycheck := postStockBonusSalary / f;
    postStockBonusSalary := postStockBonusSalary + postTaxBonus;
    postStockBonusPaycheck := postStockBonusPaycheck + postTaxBonus / f;
    var netAnnualSalary := postStockBonusSalary - maxRothIraContribution;
    var netPaycheck := netAnnualSalary / f;
    inc := IncomeSection(baseSalary, grossPaycheck, postTaxSalary, postTaxPaycheck,
                         postStockBonusSalary, postStockBonusPaycheck, netAnnualSalary, netPaycheck);
  }

  /** The retirement lines of the calculation, given the summed employer match. */
  method ComputeRetirement(max401kContribution: real, totalEmployerMatch: real,
                           maxRothIraContribution: real, f: real)
    returns (ret: RetirementSection)
    requires f != 0.0
    ensures RetirementSpec(ret, max401kContribution, totalEmployerMatch, maxRothIraContribution, f)
  {
    var individual401kPerPaycheck := max401kContribution / f;
    var total401kContribution := max401kContribution + totalEmployerMatch;
    var rothIraPerPaycheck := maxRothIraContribution / f;
    var rothIraPerMonth := maxRothIraContribution / 12.0;
    ret := RetirementSection(max401kContribution, totalEmployerMatch, total401kContribution,
                             individual401kPerPaycheck, maxRothIraContribution, rothIraPerMonth, rothIraPerPaycheck);
  }

  /** The expenses lines of the calculation. */
  method ComputeExpenses(monthlyExpenses: real, f: real) returns (e: ExpensesSection)
    requires f != 0.0
    ensures ExpensesSpec(e, monthlyExpenses, f)
  {
    e := ExpensesSection(monthlyExpenses * 12.0 / f, monthlyExpenses);
  }

  /** The additional savings lines of the calculation. */
  method ComputeSavings(netPaycheck: real, savingsRate: real, f: real) returns (s: SavingsSection)
    ensures SavingsSpec(s, netPaycheck, savingsRate, f)
  {
    var perPaycheck := netPaycheck * savingsRate;
    s := SavingsSection(perPaycheck, perPaycheck * (f / 12.0));
  }

  /** The emergency fund lines of the calculation: nothing is set aside unless the payoff period is positive. */
  method ComputeEmergencyFund(monthlyExpenses: real, months: real, payoffMonths: real, f: real)
    returns (ef: EmergencyFundSection)
    requires f != 0.0
    ensures EmergencyFundSpec(ef, monthlyExpenses, months, payoffMonths, f)
  {
    var required := monthlyExpenses * months;
    var perMonth := 0.0;
    if payoffMonths > 0.0 {
      perMonth := required / payoffMonths;
    }
    ef := EmergencyFundSection(required, perMonth / (f / 12.0), perMonth);
  }

  /** The summary lines of the calculation: the accumulated spending, the pass flag and the advice. */
  method Summarize(f: real, income: IncomeSection, retirement: RetirementSection,
                   expenses: ExpensesSection, emergencyFund: EmergencyFundSection, savings: SavingsSection)
    returns (s: Summary)
    requires f != 0.0
    ensures SummarySpec(s, f, income, retirement, expenses, emergencyFund, savings)
  {
    var balance := f * (retirement.individual401kPerPaycheck + retirement.rothIraPerPaycheck
                        + expenses.perPaycheck + emergencyFund.perPaycheck + savings.perPaycheck);
    var netAnnualSalary := income.netSalary;
    var advice;
    if balance == netAnnualSalary {
      advice := Balanced;
    } else if balance > netAnnualSalary {
      advice := Overspending(balance - netAnnualSalary, balance / f - income.netPaycheck);
    } else {
      advice := Underspending(netAnnualSalary - balance, income.netPaycheck - balance / f);
    }
    s := Summary(balance, balance < netAnnualSalary, advice);
  }

  /**
   * The accumulated spending is an annual total: the 401k and Roth IRA
   * contributions, twelve months of expenses and of emergency fund saving,
   * and the savings rate applied to the net salary.
   */
  lemma AccumulatedSpendingIsAnnualTotal(f: real, income: IncomeSection, retirement: RetirementSection,
                                         expenses: ExpensesSection, emergencyFund: EmergencyFundSection,
                                         savings: SavingsSection, summary: Summary, savingsRate: real)
    requires income.netPaycheck * f == income.netSalary
    requires RetirementSpec(retirement, retirement.individual401k, retirement.employerMatch, retirement.rothIra, f)
    requires ExpensesSpec(expenses, expenses.monthly, f)
    requires emergencyFund.perPaycheck * f == 12.0 * emergencyFund.perMonth
    requires SavingsSpec(savings, income.netPaycheck, savingsRate, f)
    requires SummarySpec(summary, f, income, retirement, expenses, emergencyFund, savings)
    ensures summary.accumulatedSpending
            == retirement.individual401k + retirement.rothIra + 12.0 * expenses.monthly
               + 12.0 * emergencyFund.perMonth + savingsRate * income.netSalary
  {
    assert savings.perPaycheck * f == savingsRate * income.netSalary by {
      assert savings.perPaycheck * f == income.netPaycheck * f * savingsRate;
    }
  }

  /** Over the year, the additional savings are the savings rate applied to the net salary. */
  lemma SavingsAreShareOfNetSalary(f: real, income: IncomeSection, savings: SavingsSection, savingsRate: real)
    requires income.netPaycheck * f == income.netSalary
    requires SavingsSpec(savings, income.netPaycheck, savingsRate, f)
    ensures savings.perMonth * 12.0 == savingsRate * income.netSalary
  {
    assert savings.perPaycheck * f == income.netPaycheck * f * savingsRate;
  }

  /** The gap in the advice, per paycheck, is the annual gap spread over the `f` paychecks. */
  lemma AdviceGapPerPaycheck(f: real, income: IncomeSection, retirement: RetirementSection,
                             expenses: ExpensesSection, emergencyFund: EmergencyFundSection,
                             savings: SavingsSection, summary: Summary)
    requires income.netPaycheck * f == income.netSalary
    requires SummarySpec(summary, f, income, retirement, expenses, emergencyFund, savings)
    ensures summary.advice.Overspending? ==> summary.advice.perPaycheckExcess * f == summary.advice.annualExcess
    ensures summary.advice.Underspending? ==> summary.advice.perPaycheckSurplus * f == summary.advice.annualSurplus
  {
  }

  /** The budget calculation: the employer match periods summed in list order, then the budget section by section. */
  method Calculate(baseSalary: real, taxRate: real, postTaxBonus: real,
                   max401kContribution: real, maxRothIraContribution: real,
                   expenses: seq<Expense>, employerMatch: seq<EmployerMatch>,
                   misc: Misc, paycheckFrequency: real)
    returns (r: Budget)
    requires paycheckFrequency != 0.0
    ensures BudgetSpec(r, baseSalary, taxRate, postTaxBonus, max401kContribution, maxRothIraContribution,
                       EmployerMatchTotal(baseSalary, employerMatch), TotalMonthlyExpenses(expenses),
                       misc, paycheckFrequency)
  {
    var f := paycheckFrequency;
    var totalEmployerMatch := 0.0;
    for i := 0 to |employerMatch|
      invariant totalEmployerMatch == EmployerMatchTotal(baseSalary, employerMatch[..i])
    {
      SumOfSnoc(employerMatch, i, MatchTerm(baseSalary));
      totalEmployerMatch := totalEmployerMatch
                            + baseSalary * (employerMatch[i].percentage / 100.0) * employerMatch[i].duration;
    }
    assert employerMatch[..|employerMatch|] == employerMatch;

    var stock := StockOf(baseSalary, misc.stock, misc.stockMatching);
    var income := ComputeIncome(baseSalary, taxRate, postTaxBonus, max401kContribution, maxRothIraContribution,
                                misc.preTaxDeductions, stock.companyContribution, f);
    var retirement := ComputeRetirement(max401kContribution, totalEmployerMatch, maxRothIraContribution, f);
    var monthlyExpenses := TotalMonthlyExpenses(expenses);
    var expensesSection := ComputeExpenses(monthlyExpenses, f);
    var savings := ComputeSavings(income.netPaycheck, misc.savingsRate, f);
    var emergencyFund := ComputeEmergencyFund(monthlyExpenses, misc.emergencyFundMonths,
                                              misc.emergencyFundPayoffMonths, f);
    var summary := Summarize(f, income, retirement, expensesSection, emergencyFund, savings);
    r := Budget(income, stock, retirement, expensesSection, emergencyFund, savings, summary);
  }

  /**
   * The post-tax bonus passes straight through to the net salary, and a
   * larger 401k contribution comes out of it in full: tax is levied on the
   * base salary either way.
   */
  lemma NetSalaryShifts(inc: IncomeSection, inc': IncomeSection, baseSalary: real, taxRate: real,
                        postTaxBonus: real, max401kContribution: real, maxRothIraContribution: real,
                        preTaxDeductions: real, companyContribution: real, f: real,
                        extraBonus: real, extra401k: real)
    requires IncomeSpec(inc, baseSalary, taxRate, postTaxBonus, max401kContribution, maxRothIraContribution,
                        preTaxDeductions, companyContribution, f)
    requires IncomeSpec(inc', baseSalary, taxRate, postTaxBonus + extraBonus, max401kContribution + extra401k,
                        maxRothIraContribution, preTaxDeductions, companyContribution, f)
    ensures inc'.netSalary == inc.netSalary + extraBonus - extra401k
  {
  }

  /**
   * Of the stock purchase plan only the company's match reaches the net
   * salary, and it is taxed at the flat rate first; the employee's own
   * purchase is never deducted. Against the same income with no stock
   * match, the net salary rises by exactly the taxed match.
   */
  lemma StockMatchRaisesNetSalary(inc: IncomeSection, inc0: IncomeSection, baseSalary: real, taxRate: real,
                                  postTaxBonus: real, max401kContribution: real, maxRothIraContribution: real,
                                  preTaxDeductions: real, stock: real, stockMatching: real, f: real)
    requires IncomeSpec(inc, baseSalary, taxRate, postTaxBonus, max401kContribution, maxRothIraContribution,
                        preTaxDeductions, StockOf(baseSalary, stock, stockMatching).companyContribution, f)
    requires IncomeSpec(inc0, baseSalary, taxRate, postTaxBonus, max401kContribution, maxRothIraContribution,
                        preTaxDeductions, 0.0, f)
    ensures inc.netSalary - inc0.netSalary == baseSalary * stock * stockMatching * (1.0 - taxRate / 100.0)
  {
  }

  /** Two amounts that give the same total over `f` (non-zero) payments are equal. */
  lemma SameTotalSameAmount(x: real, y: real, f: real)
    requires f != 0.0 && x * f == y * f
    ensures x == y
  {
    assert (x - y) * f == 0.0;
  }

  /*
   * Each section's specification pins the section down: with a non-zero
   * paycheck frequency at most one value meets it, so the specification
   * says everything the calculation computes.
   */

  lemma IncomeSpecDetermined(inc: IncomeSection, inc': IncomeSection, baseSalary: real, taxRate: real,
                             postTaxBonus: real, max401kContribution: real, maxRothIraContribution: real,
                             preTaxDeductions: real, companyContribution: real, f: real)
    requires f != 0.0
    requires IncomeSpec(inc, baseSalary, taxRate, postTaxBonus, max401kContribution, maxRothIraContribution,
                        preTaxDeductions, companyContribution, f)
    requires IncomeSpec(inc', baseSalary, taxRate, postTaxBonus, max401kContribution, maxRothIraContribution,
                        preTaxDeductions, companyContribution, f)
    ensures inc == inc'
  {
    SameTotalSameAmount(inc.grossPaycheck, inc'.grossPaycheck, f);
    SameTotalSameAmount(inc.postTaxPaycheck, inc'.postTaxPaycheck, f);
    SameTotalSameAmount(inc.postStockBonusPaycheck, inc'.postStockBonusPaycheck, f);
    SameTotalSameAmount(inc.netPaycheck, inc'.netPaycheck, f);
  }

  lemma RetirementSpecDetermined(ret: RetirementSection, ret': RetirementSection, max401kContribution: real,
                                 totalEmployerMatch: real, maxRothIraContribution: real, f: real)
    requires f != 0.0
    requires RetirementSpec(ret, max401kContribution, totalEmployerMatch, maxRothIraContribution, f)
    requires RetirementSpec(ret', max401kContribution, totalEmployerMatch, maxRothIraContribution, f)
    ensures ret == ret'
  {
    SameTotalSameAmount(ret.individual401kPerPaycheck, ret'.individual401kPerPaycheck, f);
    SameTotalSameAmount(ret.rothIraPerPaycheck, ret'.rothIraPerPaycheck, f);
  }

  lemma ExpensesSpecDetermined(e: ExpensesSection, e': ExpensesSection, monthlyExpenses: real, f: real)
    requires f != 0.0
    requires ExpensesSpec(e, monthlyExpenses, f) && ExpensesSpec(e', monthlyExpenses, f)
    ensures e == e'
  {
    SameTotalSameAmount(e.perPaycheck, e'.perPaycheck, f);
  }

  lemma EmergencyFundSpecDetermined(ef: EmergencyFundSection, ef': EmergencyFundSection, monthlyExpenses: real,
                                    months: real, payoffMonths: real, f: real)
    requires f != 0.0
    requires EmergencyFundSpec(ef, monthlyExpenses, months, payoffMonths, f)
    requires EmergencyFundSpec(ef', monthlyExpenses, months, payoffMonths, f)
    ensures ef == ef'
  {
    if payoffMonths > 0.0 {
      SameTotalSameAmount(ef.perMonth, ef'.perMonth, payoffMonths);
    }
    SameTotalSameAmount(ef.perPaycheck, ef'.perPaycheck, f);
  }

  lemma SavingsSpecDetermined(s: SavingsSection, s': SavingsSection, netPaycheck: real, savingsRate: real, f: real)
    requires SavingsSpec(s, netPaycheck, savingsRate, f) && SavingsSpec(s', netPaycheck, savingsRate, f)
    ensures s == s'
  {
  }

  lemma SummarySpecDetermined(s: Summary, s': Summary, f: real, income: IncomeSection,
                              retirement: RetirementSection, expenses: ExpensesSection,
                              emergencyFund: EmergencyFundSection, savings: SavingsSection)
    requires f != 0.0
    requires SummarySpec(s, f, income, retirement, expenses, emergencyFund, savings)
    requires SummarySpec(s', f, income, retirement, expenses, emergencyFund, savings)
    ensures s == s'
  {
    if s.advice.Overspending? {
      SameTotalSameAmount(s.advice.perPaycheckExcess, s'.advice.perPaycheckExcess, f);
    } else if s.advice.Underspending? {
      SameTotalSameAmount(s.advice.perPaycheckSurplus, s'.advice.perPaycheckSurplus, f);
    }
  }
}
