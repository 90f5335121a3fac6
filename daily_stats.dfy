/**
 * The daily cash position of the station (`getTodayStats` of the main
 * calculator screen): the four record lists are cut down to the selected day
 * and folded into cash, credit, litre, income and expense totals.
 */
module DailyStats {
  import opened Ledger

  datatype DayStats = DayStats(
    fuelCashSales: real,
    adjustedCashSales: real,
    creditAmount: real,
    totalLiters: real,
    totalSales: real,
    otherIncome: real,
    totalIncome: real,
    totalExpenses: real,
    netCash: real)

  /** What a sale puts in the till: its amount when it was paid in cash, nothing otherwise. */
  const SaleCash: SaleRecord -> real := (s: SaleRecord) => if s.saleType == "cash" then s.amount else 0.0
  const SaleLiters: SaleRecord -> real := (s: SaleRecord) => s.liters
  const CreditAmount: CreditRecord -> real := (c: CreditRecord) => c.amount
  const MoneyAmount: MoneyRecord -> real := (m: MoneyRecord) => m.amount

  /**
   * The totals for day `d`. Each total counts exactly the records dated `d`
   * (read off the unfiltered lists: other days count as zero), sales count
   * towards cash only when paid in cash, and the cash in hand is income minus
   * expenses minus what went out on credit, with no lower bound.
   */
  function GetTodayStats(sales: seq<SaleRecord>, credits: seq<CreditRecord>,
                         incomes: seq<MoneyRecord>, expenses: seq<MoneyRecord>, d: Date): (st: DayStats)
    ensures st.fuelCashSales == SumOnDate(sales, SaleDate, d, SaleCash)
    ensures st.totalLiters == SumOnDate(sales, SaleDate, d, SaleLiters)
    ensures st.creditAmount == SumOnDate(credits, CreditDate, d, CreditAmount)
    ensures st.otherIncome == SumOnDate(incomes, MoneyDate, d, MoneyAmount)
    ensures st.totalExpenses == SumOnDate(expenses, MoneyDate, d, MoneyAmount)
    ensures st.netCash == st.adjustedCashSales == st.totalIncome - st.totalExpenses - st.creditAmount
    ensures st.totalIncome - st.otherIncome == st.totalSales - st.creditAmount == st.fuelCashSales
  {
    var todaySales := OnDate(sales, SaleDate, d);
    var todayCredits := OnDate(credits, CreditDate, d);
    var todayIncome := OnDate(incomes, MoneyDate, d);
    var todayExpenses := OnDate(expenses, MoneyDate, d);
    var fuelCashSales := Sum(todaySales, SaleCash);
    var otherIncome := Sum(todayIncome, MoneyAmount);
    var totalExpenses := Sum(todayExpenses, MoneyAmount);
    var creditAmount := Sum(todayCredits, CreditAmount);
    var adjustedCashSales := fuelCashSales + otherIncome - totalExpenses - creditAmount;
    var totalLiters := Sum(todaySales, SaleLiters);
    var totalIncome := fuelCashSales + otherIncome;
    SumOfOnDate(sales, SaleDate, d, SaleCash);
    SumOfOnDate(sales, SaleDate, d, SaleLiters);
    SumOfOnDate(credits, CreditDate, d, CreditAmount);
    SumOfOnDate(incomes, MoneyDate, d, MoneyAmount);
    SumOfOnDate(expenses, MoneyDate, d, MoneyAmount);
    DayStats(fuelCashSales, adjustedCashSales, creditAmount, totalLiters,
             fuelCashSales + creditAmount, otherIncome, totalIncome, totalExpenses, adjustedCashSales)
  }

  /** The figures depend only on the day's records: pre-filtering the lists changes nothing. */
  lemma StatsOfFilteredLists(sales: seq<SaleRecord>, credits: seq<CreditRecord>,
                             incomes: seq<MoneyRecord>, expenses: seq<MoneyRecord>, d: Date)
    ensures GetTodayStats(OnDate(sales, SaleDate, d), OnDate(credits, CreditDate, d),
                          OnDate(incomes, MoneyDate, d), OnDate(expenses, MoneyDate, d), d)
         == GetTodayStats(sales, credits, incomes, expenses, d)
  {
    FilteredDaySum(sales, SaleDate, d, SaleCash);
    FilteredDaySum(sales, SaleDate, d, SaleLiters);
    FilteredDaySum(credits, CreditDate, d, CreditAmount);
    FilteredDaySum(incomes, MoneyDate, d, MoneyAmount);
    FilteredDaySum(expenses, MoneyDate, d, MoneyAmount);
    var filtered := GetTodayStats(OnDate(sales, SaleDate, d), OnDate(credits, CreditDate, d),
                                  OnDate(incomes, MoneyDate, d), OnDate(expenses, MoneyDate, d), d);
    SameTotalsSameStats(filtered, GetTodayStats(sales, credits, incomes, expenses, d));
  }

  /** The five sums determine all nine figures. */
  lemma SameTotalsSameStats(a: DayStats, b: DayStats)
    requires a.netCash == a.adjustedCashSales == a.totalIncome - a.totalExpenses - a.creditAmount
    requires a.totalIncome - a.otherIncome == a.totalSales - a.creditAmount == a.fuelCashSales
    requires b.netCash == b.adjustedCashSales == b.totalIncome - b.totalExpenses - b.creditAmount
    requires b.totalIncome - b.otherIncome == b.totalSales - b.creditAmount == b.fuelCashSales
    requires a.fuelCashSales == b.fuelCashSales && a.totalLiters == b.totalLiters
    requires a.creditAmount == b.creditAmount && a.otherIncome == b.otherIncome
    requires a.totalExpenses == b.totalExpenses
    ensures a == b
  {
  }

  lemma FilteredDaySum<T>(xs: seq<T>, dateOf: T -> Date, d: Date, f: T -> real)
    ensures SumOnDate(OnDate(xs, dateOf, d), dateOf, d, f) == SumOnDate(xs, dateOf, d, f)
  {
    SumOfOnDate(OnDate(xs, dateOf, d), dateOf, d, f);
    OnDateIdempotent(xs, dateOf, d);
    SumOfOnDate(xs, dateOf, d, f);
  }

  /**
   * A record of another day, wherever it sits in its list, leaves every figure
   * unchanged; shown for sales and credits (income and expenses share the sum).
   */
  lemma OtherDaySaleIgnored(a: seq<SaleRecord>, s: SaleRecord, b: seq<SaleRecord>,
                            credits: seq<CreditRecord>, incomes: seq<MoneyRecord>,
                            expenses: seq<MoneyRecord>, d: Date)
    requires s.date != d
    ensures GetTodayStats(a + [s] + b, credits, incomes, expenses, d)
         == GetTodayStats(a + b, credits, incomes, expenses, d)
  {
    SumOnDateConcat(a + [s], b, SaleDate, d, SaleCash);
    SumOnDateConcat(a, [s], SaleDate, d, SaleCash);
    SumOnDateConcat(a, b, SaleDate, d, SaleCash);
    SumOnDateConcat(a + [s], b, SaleDate, d, SaleLiters);
    SumOnDateConcat(a, [s], SaleDate, d, SaleLiters);
    SumOnDateConcat(a, b, SaleDate, d, SaleLiters);
  }

  lemma OtherDayCreditIgnored(sales: seq<SaleRecord>, a: seq<CreditRecord>, c: CreditRecord,
                              b: seq<CreditRecord>, incomes: seq<MoneyRecord>,
                              expenses: seq<MoneyRecord>, d: Date)
    requires c.date != d
    ensures GetTodayStats(sales, a + [c] + b, incomes, expenses, d)
         == GetTodayStats(sales, a + b, incomes, expenses, d)
  {
    SumOnDateConcat(a + [c], b, CreditDate, d, CreditAmount);
    SumOnDateConcat(a, [c], CreditDate, d, CreditAmount);
    SumOnDateConcat(a, b, CreditDate, d, CreditAmount);
  }

  /**
   * Recording a sale (new sales go to the front of the list) moves the litres
   * by its litres and the cash figures by its amount, the latter only for a
   * cash sale of the day; credit, income and expenses do not move.
   */
  lemma NewSaleEffect(s: SaleRecord, sales: seq<SaleRecord>, credits: seq<CreditRecord>,
                      incomes: seq<MoneyRecord>, expenses: seq<MoneyRecord>, d: Date)
    ensures var before := GetTodayStats(sales, credits, incomes, expenses, d);
            var after := GetTodayStats([s] + sales, credits, incomes, expenses, d);
            var cash := if s.date == d && s.saleType == "cash" then s.amount else 0.0;
            && after.totalLiters == before.totalLiters + (if s.date == d then s.liters else 0.0)
            && after.fuelCashSales == before.fuelCashSales + cash
            && after.netCash == before.netCash + cash
            && after.creditAmount == before.creditAmount
            && after.otherIncome == before.otherIncome
            && after.totalExpenses == before.totalExpenses
  {
    assert ([s] + sales)[0] == s && ([s] + sales)[1..] == sales;
  }

  /** Marking a credit paid (or any other status change) leaves every figure unchanged. */
  lemma CreditStatusIgnored(sales: seq<SaleRecord>, credits: seq<CreditRecord>, i: nat, status: string,
                            incomes: seq<MoneyRecord>, expenses: seq<MoneyRecord>, d: Date)
    requires i < |credits|
    ensures GetTodayStats(sales, credits[i := credits[i].(status := status)], incomes, expenses, d)
         == GetTodayStats(sales, credits, incomes, expenses, d)
  {
    var changed := credits[i := credits[i].(status := status)];
    SumOnDateCongruent(changed, credits, CreditDate, d, CreditAmount);
  }

  /** A day with no records has every figure zero. */
  lemma EmptyDayIsZero(sales: seq<SaleRecord>, credits: seq<CreditRecord>,
                       incomes: seq<MoneyRecord>, expenses: seq<MoneyRecord>, d: Date)
    requires forall i :: 0 <= i < |sales| ==> sales[i].date != d
    requires forall i :: 0 <= i < |credits| ==> credits[i].date != d
    requires forall i :: 0 <= i < |incomes| ==> incomes[i].date != d
    requires forall i :: 0 <= i < |expenses| ==> expenses[i].date != d
    ensures GetTodayStats(sales, credits, incomes, expenses, d) == DayStats(0.0, 0.0, 0.0, 0.0, 0.0, 0.0, 0.0, 0.0, 0.0)
  {
    SumOnDateEmptyDay(sales, SaleDate, d, SaleCash);
    SumOnDateEmptyDay(sales, SaleDate, d, SaleLiters);
    SumOnDateEmptyDay(credits, CreditDate, d, CreditAmount);
    SumOnDateEmptyDay(incomes, MoneyDate, d, MoneyAmount);
    SumOnDateEmptyDay(expenses, MoneyDate, d, MoneyAmount);
  }

  /** Cash in hand is not clamped: a day with a single expense of `e` shows `-e`. */
  lemma CashInHandNotClamped(e: real, d: Date)
    ensures GetTodayStats([], [], [], [MoneyRecord(1, d, "Electricity", e, "")], d).netCash == -e
  {
    assert [MoneyRecord(1, d, "Electricity", e, "")][1..] == [];
  }

  /**
   * The screen's own sample day: two cash sales on 2024-01-15 (2536.88 and
   * 1593.88) and one the day before, a pending credit of 4487.50, income of
   * 15000 and an expense of 3000 on the 15th, and one of each on the 14th.
   */
  const SampleSales: seq<SaleRecord> := [
    SaleRecord(1, "2024-01-15", "P1", "Petrol", 1250.50, 1275.25, 102.50, 24.75, 2536.88, "cash"),
    SaleRecord(2, "2024-01-14", "D1", "Diesel", 890.20, 905.50, 89.75, 15.30, 1373.18, "cash"),
    SaleRecord(3, "2024-01-15", "P2", "Petrol", 2340.20, 2355.75, 102.50, 15.55, 1593.88, "cash")]
  const SampleCredits: seq<CreditRecord> := [
    CreditRecord(1, "2024-01-15", "ABC Transport Ltd.", "MH 12 AB 1234", "Diesel", 50.0, 89.75, 4487.50, "2024-02-15", "pending"),
    CreditRecord(2, "2024-01-14", "XYZ Logistics", "MH 14 CD 5678", "Petrol", 30.0, 102.50, 3075.00, "2024-02-10", "paid")]
  const SampleIncome: seq<MoneyRecord> := [
    MoneyRecord(1, "2024-01-15", "Fuel Sales", 15000.00, "Daily fuel sales revenue"),
    MoneyRecord(2, "2024-01-14", "Service Charges", 2500.00, "Vehicle service and maintenance charges")]
  const SampleExpenses: seq<MoneyRecord> := [
    MoneyRecord(1, "2024-01-15", "Staff Salaries", 3000.00, "Daily staff wages"),
    MoneyRecord(2, "2024-01-14", "Electricity", 1200.00, "Monthly electricity bill")]

  /** On the sample's first day the cash in hand is 4130.76 + 15000 - 3000 - 4487.50 = 11643.26. */
  lemma SampleDay()
    ensures var st := GetTodayStats(SampleSales, SampleCredits, SampleIncome, SampleExpenses, "2024-01-15");
            && st.fuelCashSales == 4130.76
            && st.totalLiters == 40.30
            && st.creditAmount == 4487.50
            && st.otherIncome == 15000.00
            && st.totalExpenses == 3000.00
            && st.netCash == 11643.26
  {
    assert SampleSales[1..][1..][1..] == [];
    assert SampleCredits[1..][1..] == [];
    assert SampleIncome[1..][1..] == [];
    assert SampleExpenses[1..][1..] == [];
  }
}
