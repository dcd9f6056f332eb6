/** The `FinancialReport` entity. Its one rule: the net cash flow is the
    income minus the expenses, re-established by every setter of a total. */
module Reports {

  class FinancialReport {
    var month: int
    var year: int
    var totalIncome: real
    var totalExpenses: real
    var netCashFlow: real

    ghost predicate Valid()
      reads this
    {
      netCashFlow == totalIncome - totalExpenses
    }

    /** The no-argument constructor: every field keeps Java's default, zero. */
    constructor Empty()
      ensures Valid()
      ensures month == 0 && year == 0 && totalIncome == 0.0 && totalExpenses == 0.0
    {
      month, year := 0, 0;
      totalIncome, totalExpenses, netCashFlow := 0.0, 0.0, 0.0;
    }

    constructor Create(month: int, year: int, totalIncome: real, totalExpenses: real)
      ensures Valid()
      ensures this.month == month && this.year == year
      ensures this.totalIncome == totalIncome && this.totalExpenses == totalExpenses
      ensures netCashFlow == totalIncome - totalExpenses
    {
      this.month, this.year := month, year;
      this.totalIncome, this.totalExpenses := totalIncome, totalExpenses;
      netCashFlow := totalIncome - totalExpenses;
    }

    method SetMonth(month: int)
      requires Valid()
      modifies this
      ensures Valid()
      ensures this.month == month && year == old(year)
      ensures totalIncome == old(totalIncome) && totalExpenses == old(totalExpenses)
      ensures netCashFlow == old(netCashFlow)
    {
      this.month := month;
    }

    method SetYear(year: int)
      requires Valid()
      modifies this
      ensures Valid()
      ensures this.year == year && month == old(month)
      ensures totalIncome == old(totalIncome) && totalExpenses == old(totalExpenses)
      ensures netCashFlow == old(netCashFlow)
    {
      this.year := year;
    }

    /** Holds for any prior state: the setter recomputes the net itself. */
    method SetTotalIncome(totalIncome: real)
      modifies this
      ensures Valid()
      ensures this.totalIncome == totalIncome && totalExpenses == old(totalExpenses)
      ensures month == old(month) && year == old(year)
      ensures netCashFlow == totalIncome - old(totalExpenses)
    {
      this.totalIncome := totalIncome;
      netCashFlow := this.totalIncome - totalExpenses;
    }

    method SetTotalExpenses(totalExpenses: real)
      modifies this
      ensures Valid()
      ensures this.totalExpenses == totalExpenses && totalIncome == old(totalIncome)
      ensures month == old(month) && year == old(year)
      ensures netCashFlow == old(totalIncome) - totalExpenses
    {
      this.totalExpenses := totalExpenses;
      netCashFlow := totalIncome - this.totalExpenses;
    }

    function GetNetCashFlow(): (net: real)
      reads this
      requires Valid()
      ensures net == totalIncome - totalExpenses
    {
      netCashFlow
    }
  }

  /** One call of a report setter. */
  datatype ReportEdit =
    | SetMonthTo(month: int)
    | SetYearTo(year: int)
    | SetIncomeTo(income: real)
    | SetExpensesTo(expenses: real)

  /** The income after a run of edits: the last one set, if any. */
  function LastIncome(income: real, edits: seq<ReportEdit>): real
    decreases |edits|
  {
    if edits == [] then income
    else LastIncome(if edits[0].SetIncomeTo? then edits[0].income else income, edits[1..])
  }

  /** The expenses after a run of edits: the last one set, if any. */
  function LastExpenses(expenses: real, edits: seq<ReportEdit>): real
    decreases |edits|
  {
    if edits == [] then expenses
    else LastExpenses(if edits[0].SetExpensesTo? then edits[0].expenses else expenses, edits[1..])
  }

  /** Builds a report with the four-argument constructor, applies any sequence
      of setters, and reads the totals and the net back: the net is still the
      income minus the expenses, those being the values set last. */
  method NetAfterEdits(month: int, year: int, income: real, expenses: real, edits: seq<ReportEdit>)
    returns (net: real, finalIncome: real, finalExpenses: real)
    ensures finalIncome == LastIncome(income, edits)
    ensures finalExpenses == LastExpenses(expenses, edits)
    ensures net == finalIncome - finalExpenses
  {
    var r := new FinancialReport.Create(month, year, income, expenses);
    var i := 0;
    while i < |edits|
      invariant 0 <= i <= |edits|
      invariant r.Valid()
      invariant LastIncome(r.totalIncome, edits[i..]) == LastIncome(income, edits)
      invariant LastExpenses(r.totalExpenses, edits[i..]) == LastExpenses(expenses, edits)
    {
      assert edits[i..][1..] == edits[i + 1..];
      match edits[i] {
        case SetMonthTo(m) => r.SetMonth(m);
        case SetYearTo(y) => r.SetYear(y);
        case SetIncomeTo(v) => r.SetTotalIncome(v);
        case SetExpensesTo(v) => r.SetTotalExpenses(v);
      }
      i := i + 1;
    }
    net := r.GetNetCashFlow();
    finalIncome, finalExpenses := r.totalIncome, r.totalExpenses;
  }
}
