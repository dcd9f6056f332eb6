/** The financial service (`FinancialService`): monthly, date-range and
    annual reports built as `FinancialReport` objects, and the figures derived
    from payments and expenses over a period. "Today" is a parameter. */
module Finance {
  import opened Common
  import opened Calendar
  import opened Ledger
  import opened Sorting
  import opened Records
  import opened Stores
  import opened Reports
  import opened Billing

  /** `Double.MAX_VALUE`, exactly. */
  const MaxDouble: real := 179769313486231570814527423731704356798070567525844996598917476803157260780028538760589558632766878171540458953514382464234321326889464182768467546703537516986049910576551282076245490090389328944075868508455133942304583236903222948165808559332123348274797826204144723168738177180919299881250404026184124858368.0

  /** The expenses of a month (`ExpenseDAO.findByMonth`, summed). */
  function MonthlyExpenses(es: seq<Expense>, month: int, year: int): (total: real)
    ensures 1 <= month <= 12 ==>
              total == ExpensesByDateRange(es, DateOf(year, month, 1), DateOf(year, month, LengthOfMonth(year, month)))
  {
    if 1 <= month <= 12 then MonthIsRange(es, ExpenseDate, month, year); Total(InMonth(es, ExpenseDate, month, year), ExpenseAmount)
    else Total(InMonth(es, ExpenseDate, month, year), ExpenseAmount)
  }

  /** The expenses of a date range, both ends included
      (`ExpenseDAO.findByDateRange`, summed). */
  function ExpensesByDateRange(es: seq<Expense>, lo: int, hi: int): (total: real)
    ensures hi < lo ==> total == 0.0
  {
    NoExpensesInEmptyRange(es, lo, hi);
    Total(InRange(es, ExpenseDate, lo, hi), ExpenseAmount)
  }

  lemma {:induction false} NoExpensesInEmptyRange(es: seq<Expense>, lo: int, hi: int)
    ensures hi < lo ==> InRange(es, ExpenseDate, lo, hi) == []
  {
    if es != [] {
      NoExpensesInEmptyRange(es[1..], lo, hi);
    }
  }

  /** The revenue of a calendar year as `generateAnnualReport` computes it,
      from January 1st to December 31st: it is the year's total and the sum
      of its twelve monthly revenues. */
  function AnnualRevenue(ps: seq<Payment>, year: int): (total: real)
    ensures total == Total(InYear(ps, PaymentDate, year), PaymentAmount)
    ensures total == MonthSum(ps, PaymentDate, PaymentAmount, year, 12)
  {
    YearIsRange(ps, PaymentDate, year);
    MonthsCoverYear(ps, PaymentDate, PaymentAmount, year);
    RevenueByDateRange(ps, DateOf(year, 1, 1), DateOf(year, 12, 31))
  }

  /** The expenses of a calendar year, likewise. */
  function AnnualExpenses(es: seq<Expense>, year: int): (total: real)
    ensures total == Total(InYear(es, ExpenseDate, year), ExpenseAmount)
    ensures total == MonthSum(es, ExpenseDate, ExpenseAmount, year, 12)
  {
    YearIsRange(es, ExpenseDate, year);
    MonthsCoverYear(es, ExpenseDate, ExpenseAmount, year);
    ExpensesByDateRange(es, DateOf(year, 1, 1), DateOf(year, 12, 31))
  }

  /** `calculateProfitMargin` on a report's figures: 0 without revenue,
      otherwise the net profit as a percentage of the revenue. */
  function Margin(revenue: real, expenses: real): (m: real)
    ensures revenue == 0.0 ==> m == 0.0
    ensures revenue != 0.0 ==> m * revenue == (revenue - expenses) * 100.0
    ensures revenue > 0.0 && expenses >= 0.0 ==> m <= 100.0
    ensures revenue > 0.0 ==> (m > 0.0 <==> revenue - expenses > 0.0)
  {
    if revenue == 0.0 then 0.0 else (revenue - expenses) / revenue * 100.0
  }

  /** `calculateProfitMargin(start, end)`. */
  function ProfitMargin(ps: seq<Payment>, es: seq<Expense>, lo: int, hi: int): (m: real)
    ensures RevenueByDateRange(ps, lo, hi) > 0.0 ==> (m > 0.0 <==> IsProfitable(ps, es, lo, hi))
  {
    Margin(RevenueByDateRange(ps, lo, hi), ExpensesByDateRange(es, lo, hi))
  }

  /** `isProfitable(start, end)`: the net profit of the range is positive. */
  predicate IsProfitable(ps: seq<Payment>, es: seq<Expense>, lo: int, hi: int) {
    RevenueByDateRange(ps, lo, hi) - ExpensesByDateRange(es, lo, hi) > 0.0
  }

  /** `g` is the growth of `current` over `previous` in percent, 0 when
      there is no previous revenue. Exactly one `g` meets it for any pair. */
  predicate IsGrowth(g: real, current: real, previous: real) {
    (previous == 0.0 ==> g == 0.0) && (previous != 0.0 ==> g * previous == (current - previous) * 100.0)
  }

  lemma GrowthIsUnique(g1: real, g2: real, current: real, previous: real)
    requires IsGrowth(g1, current, previous) && IsGrowth(g2, current, previous)
    ensures g1 == g2
  {
    if previous != 0.0 {
      assert (g1 - g2) * previous == 0.0;
    }
  }

  /** The growth of `current` over `previous` in percent; 0 when there is no
      previous revenue. */
  function Growth(current: real, previous: real): (g: real)
    ensures IsGrowth(g, current, previous)
    ensures previous > 0.0 ==> (g > 0.0 <==> current > previous) && (g == 0.0 <==> current == previous)
  {
    if previous == 0.0 then 0.0 else (current - previous) / previous * 100.0
  }

  /** `calculateYearOverYearGrowth`. */
  function YearOverYearGrowth(ps: seq<Payment>, currentYear: int, previousYear: int): (g: real)
    ensures currentYear == previousYear ==> g == 0.0
    ensures AnnualRevenue(ps, previousYear) > 0.0 ==>
              (g > 0.0 <==> AnnualRevenue(ps, currentYear) > AnnualRevenue(ps, previousYear))
  {
    Growth(AnnualRevenue(ps, currentYear), AnnualRevenue(ps, previousYear))
  }

  /** `getExpenseToRevenueRatio`: `Double.MAX_VALUE` without revenue,
      otherwise expenses over revenue. */
  function ExpenseToRevenueRatio(ps: seq<Payment>, es: seq<Expense>, lo: int, hi: int): (ratio: real)
    ensures RevenueByDateRange(ps, lo, hi) == 0.0 ==> ratio == MaxDouble
    ensures RevenueByDateRange(ps, lo, hi) != 0.0 ==>
              ratio * RevenueByDateRange(ps, lo, hi) == ExpensesByDateRange(es, lo, hi)
    ensures RevenueByDateRange(ps, lo, hi) > 0.0 ==>
              (ratio < 1.0 <==> IsProfitable(ps, es, lo, hi))
  {
    var revenue := RevenueByDateRange(ps, lo, hi);
    var spent := ExpensesByDateRange(es, lo, hi);
    if revenue == 0.0 then MaxDouble
    else
      QuotientBelowOne(spent, revenue);
      spent / revenue
  }

  lemma QuotientBelowOne(a: real, b: real)
    requires b != 0.0
    ensures (a / b) * b == a
    ensures b > 0.0 ==> (a / b < 1.0 <==> a < b)
  {
    if b > 0.0 {
      if a / b < 1.0 {
        assert (a / b) * b < 1.0 * b;
      }
      if a < b {
        assert a / b < b / b;
      }
    }
  }

  /** `getRevenueByPaymentType(type, start, end)`. */
  function RangeRevenueByType(ps: seq<Payment>, kind: PaymentType, lo: int, hi: int): real {
    Total(PaymentsOfType(InRange(ps, PaymentDate, lo, hi), kind), PaymentAmount)
  }

  /** `getExpensesByCategory(category, start, end)`. */
  function RangeExpensesByCategory(es: seq<Expense>, category: ExpenseCategory, lo: int, hi: int): real {
    Total(ExpensesOfCategory(InRange(es, ExpenseDate, lo, hi), category), ExpenseAmount)
  }

  /** Over a range, the revenue by type adds up to the range's revenue. */
  lemma RangeTypesCoverRevenue(ps: seq<Payment>, lo: int, hi: int)
    ensures RangeRevenueByType(ps, MembershipPayment, lo, hi) + RangeRevenueByType(ps, ClassPayment, lo, hi)
            + RangeRevenueByType(ps, OtherPayment, lo, hi)
         == RevenueByDateRange(ps, lo, hi)
  {
    TypeTotalsCoverAll(InRange(ps, PaymentDate, lo, hi));
  }

  /** Over a range, the expenses by category add up to the range's expenses. */
  lemma RangeCategoriesCoverExpenses(es: seq<Expense>, lo: int, hi: int)
    ensures RangeExpensesByCategory(es, Salary, lo, hi) + RangeExpensesByCategory(es, Equipment, lo, hi)
            + RangeExpensesByCategory(es, Maintenance, lo, hi) + RangeExpensesByCategory(es, Utilities, lo, hi)
            + RangeExpensesByCategory(es, Marketing, lo, hi) + RangeExpensesByCategory(es, OtherExpense, lo, hi)
         == ExpensesByDateRange(es, lo, hi)
  {
    CategoryTotalsCoverAll(InRange(es, ExpenseDate, lo, hi));
  }

  function LargestPaymentFirst(p: Payment): real { -p.amount }
  function LargestExpenseFirst(e: Expense): real { -e.amount }

  /** `getTopPaymentsByAmount(limit)`: a negative limit is refused (as
      `Stream.limit` does); otherwise the `limit` largest payments, largest
      first, and no payment left out is larger than one returned. */
  function TopPayments(ps: seq<Payment>, limit: int): (r: Result<seq<Payment>>)
    ensures limit < 0 <==> r == Failure(NegativeLimit(limit))
    ensures r.Success? ==> |r.value| == (if limit < |ps| then limit else |ps|)
    ensures r.Success? ==> forall i, j :: 0 <= i < j < |r.value| ==> r.value[i].amount >= r.value[j].amount
    ensures r.Success? ==> multiset(r.value) <= multiset(ps)
    ensures r.Success? ==> forall i, p :: 0 <= i < |r.value| && p in multiset(ps) - multiset(r.value)
                             ==> p.amount <= r.value[i].amount
  {
    if limit < 0 then Failure(NegativeLimit(limit))
    else
      var top := TopBy(ps, LargestPaymentFirst, limit);
      assert forall i :: 0 <= i < |top| ==> LargestPaymentFirst(top[i]) == -top[i].amount;
      Success(top)
  }

  /** `getTopExpensesByAmount(limit)`, likewise. */
  function TopExpenses(es: seq<Expense>, limit: int): (r: Result<seq<Expense>>)
    ensures limit < 0 <==> r == Failure(NegativeLimit(limit))
    ensures r.Success? ==> |r.value| == (if limit < |es| then limit else |es|)
    ensures r.Success? ==> forall i, j :: 0 <= i < j < |r.value| ==> r.value[i].amount >= r.value[j].amount
    ensures r.Success? ==> multiset(r.value) <= multiset(es)
    ensures r.Success? ==> forall i, e :: 0 <= i < |r.value| && e in multiset(es) - multiset(r.value)
                             ==> e.amount <= r.value[i].amount
  {
    if limit < 0 then Failure(NegativeLimit(limit))
    else
      var top := TopBy(es, LargestExpenseFirst, limit);
      assert forall i :: 0 <= i < |top| ==> LargestExpenseFirst(top[i]) == -top[i].amount;
      Success(top)
  }

  /** The loop of `getAverageMonthlyRevenue` and `getAverageMonthlyExpenses`:
      the twelve monthly totals of the year, summed month by month, over 12.
      The average is a twelfth of the year's total. */
  method MonthlyAverage<T(!new)>(s: seq<T>, date: T -> int, amount: T -> real, year: int) returns (avg: real)
    ensures avg * 12.0 == Total(InYear(s, date, year), amount)
  {
    var total := 0.0;
    var month := 1;
    while month <= 12
      invariant 1 <= month <= 13
      invariant total == MonthSum(s, date, amount, year, month - 1)
    {
      total := total + Total(InMonth(s, date, month, year), amount);
      month := month + 1;
    }
    MonthsCoverYear(s, date, amount, year);
    avg := total / 12.0;
  }

  /** `months / 2` in Java: the quotient rounded toward zero. */
  function HalfTowardZero(n: int): (h: int)
    ensures -1 <= n - 2 * h <= 1
    ensures n >= 0 ==> 0 <= h <= n && n - 2 * h >= 0
    ensures n < 0 ==> n <= h <= 0 && n - 2 * h <= 0
  {
    if n >= 0 then n / 2 else -((-n) / 2)
  }

  /** The start and the middle of the window `getRevenueGrowthRate` splits:
      `months` back from today, and half of them forward again. For a
      non-negative count the middle lies between the start and today. */
  function GrowthWindow(months: int, today: int): (w: (int, int))
    ensures months >= 0 ==> w.0 <= w.1 <= today
  {
    var start := AddMonths(today, -months);
    if months >= 0 then BackThenForward(today, months, HalfTowardZero(months)); (start, AddMonths(start, HalfTowardZero(months)))
    else (start, AddMonths(start, HalfTowardZero(months)))
  }

  /** The revenue from the start of the window to its middle. */
  function FirstHalfRevenue(ps: seq<Payment>, months: int, today: int): real {
    RevenueByDateRange(ps, GrowthWindow(months, today).0, GrowthWindow(months, today).1)
  }

  /** The revenue from the middle of the window to today. */
  function SecondHalfRevenue(ps: seq<Payment>, months: int, today: int): real {
    RevenueByDateRange(ps, GrowthWindow(months, today).1, today)
  }

  /** `getRevenueGrowthRate(months)`: the second half's revenue against the
      first half's, in percent; 0 when the first half earned nothing. */
  function RevenueGrowthRate(ps: seq<Payment>, months: int, today: int): (g: real)
    ensures IsGrowth(g, SecondHalfRevenue(ps, months, today), FirstHalfRevenue(ps, months, today))
  {
    Growth(SecondHalfRevenue(ps, months, today), FirstHalfRevenue(ps, months, today))
  }

  /** The two halves cover the whole window, and the middle day, which both
      ranges include, is counted twice. */
  lemma GrowthHalvesCoverWindow(ps: seq<Payment>, months: int, today: int)
    requires months >= 0
    ensures FirstHalfRevenue(ps, months, today) + SecondHalfRevenue(ps, months, today)
         == RevenueByDateRange(ps, GrowthWindow(months, today).0, today)
            + RevenueByDateRange(ps, GrowthWindow(months, today).1, GrowthWindow(months, today).1)
  {
    var w := GrowthWindow(months, today);
    RangeSplit(ps, PaymentDate, PaymentAmount, w.0, w.1, today);
  }

  /** The net profit of a month, as its monthly report shows it. */
  function MonthNet(ps: seq<Payment>, es: seq<Expense>, month: int, year: int): real {
    MonthlyRevenue(ps, month, year) - MonthlyExpenses(es, month, year)
  }

  /** A payment of 500 and an expense of 300 on the same day: that day's
      month nets 200, and every other month of the year nets nothing. */
  lemma MonthNetExample(day: int, month: int)
    ensures MonthNet([Payment(1, 1, 500.0, day, MembershipPayment)],
                     [Expense(1, "Rent", 300.0, day, OtherExpense)], MonthOf(day), YearOf(day)) == 200.0
    ensures month != MonthOf(day) ==>
              MonthNet([Payment(1, 1, 500.0, day, MembershipPayment)],
                       [Expense(1, "Rent", 300.0, day, OtherExpense)], month, YearOf(day)) == 0.0
  {
    var p, e := Payment(1, 1, 500.0, day, MembershipPayment), Expense(1, "Rent", 300.0, day, OtherExpense);
    assert InMonth([p], PaymentDate, MonthOf(day), YearOf(day)) == [p];
    assert InMonth([e], ExpenseDate, MonthOf(day), YearOf(day)) == [e];
    assert Total([p], PaymentAmount) == 500.0 by { assert [p][1..] == []; }
    assert Total([e], ExpenseAmount) == 300.0 by { assert [e][1..] == []; }
    assert MonthlyRevenue([p], MonthOf(day), YearOf(day)) == 500.0;
    assert MonthlyExpenses([e], MonthOf(day), YearOf(day)) == 300.0;
    if month != MonthOf(day) {
      assert InMonth([p], PaymentDate, month, YearOf(day)) == [];
      assert InMonth([e], ExpenseDate, month, YearOf(day)) == [];
    }
  }

  function PaymentDates(ps: seq<Payment>): (ds: seq<int>)
    ensures forall d :: d in ds <==> exists p :: p in ps && p.date == d
  {
    if ps == [] then []
    else
      assert forall p :: p in ps <==> p == ps[0] || p in ps[1..];
      [ps[0].date] + PaymentDates(ps[1..])
  }

  /** Day `d` lies in `year` and its month made a net profit. */
  predicate ProfitableDay(ps: seq<Payment>, es: seq<Expense>, year: int, d: int) {
    YearOf(d) == year && MonthNet(ps, es, MonthOf(d), year) > 0.0
  }

  function ProfitableIn(ds: seq<int>, ps: seq<Payment>, es: seq<Expense>, year: int): (r: seq<int>)
    requires StrictlyIncreasing(ds)
    ensures StrictlyIncreasing(r)
    ensures forall d :: d in r <==> d in ds && ProfitableDay(ps, es, year, d)
  {
    if ds == [] then []
    else
      var rest := ProfitableIn(ds[1..], ps, es, year);
      assert forall d :: d in ds <==> d == ds[0] || d in ds[1..];
      if ProfitableDay(ps, es, year, ds[0]) then
        PrependIncreasing(ds, rest);
        [ds[0]] + rest
      else rest
  }

  /** Putting the head of an increasing sequence before an increasing
      selection of its tail keeps the order. */
  lemma PrependIncreasing(ds: seq<int>, rest: seq<int>)
    requires ds != [] && StrictlyIncreasing(ds) && StrictlyIncreasing(rest)
    requires forall d :: d in rest ==> d in ds[1..]
    ensures StrictlyIncreasing([ds[0]] + rest)
  {
    forall k | 0 <= k < |rest|
      ensures ds[0] < rest[k]
    {
      assert rest[k] in rest;
      var j :| 0 <= j < |ds[1..]| && ds[1..][j] == rest[k];
      assert ds[j + 1] == rest[k];
    }
  }

  /** `getProfitableMonths(year)`: the distinct payment dates of the year,
      ascending, whose month made a net profit. A month with several payment
      days contributes each of those days. */
  function ProfitableMonths(ps: seq<Payment>, es: seq<Expense>, year: int): (r: seq<int>)
    ensures StrictlyIncreasing(r)
    ensures forall d :: d in r <==> (exists p :: p in ps && p.date == d) && YearOf(d) == year
                                    && MonthNet(ps, es, MonthOf(d), year) > 0.0
  {
    ProfitableIn(DistinctSorted(PaymentDates(ps)), ps, es, year)
  }

  class FinancialService {
    const payments: PaymentStore
    const expenses: ExpenseStore

    constructor (payments: PaymentStore, expenses: ExpenseStore)
      ensures this.payments == payments && this.expenses == expenses
    {
      this.payments, this.expenses := payments, expenses;
    }

    /** `generateMonthlyReport`: a month outside 1..12 is refused (as
        `LocalDate.of` does); otherwise a new report for that month with its
        revenue as income and its expenses. */
    method GenerateMonthlyReport(month: int, year: int) returns (r: Result<FinancialReport>)
      ensures !(1 <= month <= 12) ==> r == Failure(InvalidMonth(month))
      ensures 1 <= month <= 12 ==>
                && r.Success? && fresh(r.value) && r.value.Valid()
                && r.value.month == month && r.value.year == year
                && r.value.totalIncome == MonthlyRevenue(payments.rows, month, year)
                && r.value.totalExpenses == MonthlyExpenses(expenses.rows, month, year)
    {
      if !(1 <= month <= 12) {
        return Failure(InvalidMonth(month));
      }
      var income := MonthlyRevenue(payments.rows, month, year);
      var spent := MonthlyExpenses(expenses.rows, month, year);
      var report := new FinancialReport.Create(month, year, income, spent);
      r := Success(report);
    }

    /** `generateDateRangeReport`: a new report dated today with the range's
        revenue as income and its expenses, both ends of the range included. */
    method GenerateDateRangeReport(lo: int, hi: int, today: int) returns (report: FinancialReport)
      ensures fresh(report) && report.Valid()
      ensures report.month == MonthOf(today) && report.year == YearOf(today)
      ensures report.totalIncome == RevenueByDateRange(payments.rows, lo, hi)
      ensures report.totalExpenses == ExpensesByDateRange(expenses.rows, lo, hi)
    {
      var income := RevenueByDateRange(payments.rows, lo, hi);
      var spent := ExpensesByDateRange(expenses.rows, lo, hi);
      report := new FinancialReport.Create(MonthOf(today), YearOf(today), income, spent);
    }

    /** `generateAnnualReport`: the range report from January 1st to
        December 31st, whose income is the sum of the year's twelve monthly
        revenues and whose expenses the sum of its twelve monthly expenses. */
    method GenerateAnnualReport(year: int, today: int) returns (report: FinancialReport)
      ensures fresh(report) && report.Valid()
      ensures report.month == MonthOf(today) && report.year == YearOf(today)
      ensures report.totalIncome == AnnualRevenue(payments.rows, year)
      ensures report.totalExpenses == AnnualExpenses(expenses.rows, year)
      ensures report.totalIncome == MonthSum(payments.rows, PaymentDate, PaymentAmount, year, 12)
      ensures report.totalExpenses == MonthSum(expenses.rows, ExpenseDate, ExpenseAmount, year, 12)
    {
      report := GenerateDateRangeReport(DateOf(year, 1, 1), DateOf(year, 12, 31), today);
    }

    /** `getAverageMonthlyRevenue`: a twelfth of the year's revenue, which is
        the income of the year's annual report. */
    method AverageMonthlyRevenue(year: int) returns (avg: real)
      ensures avg * 12.0 == AnnualRevenue(payments.rows, year)
    {
      avg := MonthlyAverage(payments.rows, PaymentDate, PaymentAmount, year);
    }

    /** `getAverageMonthlyExpenses`: a twelfth of the year's expenses. */
    method AverageMonthlyExpenses(year: int) returns (avg: real)
      ensures avg * 12.0 == AnnualExpenses(expenses.rows, year)
    {
      avg := MonthlyAverage(expenses.rows, ExpenseDate, ExpenseAmount, year);
    }
  }
}
