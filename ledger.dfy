/**
 * The four record collections of the daily ledger (fuel sales, credit sales,
 * other income, expenses), the same-day filter every view applies to them,
 * and the running totals (`reduce((sum, x) => sum + f(x), 0)`) computed over
 * them. Money and litres are exact reals.
 */
module Ledger {

  /** A ledger day as the string `YYYY-MM-DD`; days are compared as strings. */
  type Date = string

  /** A fuel sale read off a nozzle's meter. `saleType` is the record's `type` tag ('cash'). */
  datatype SaleRecord = SaleRecord(
    id: int, date: Date, nozzle: string, fuelType: string,
    startReading: real, endReading: real, rate: real,
    liters: real, amount: real, saleType: string)

  /** Fuel handed out on credit; `status` is 'pending' or 'paid'. */
  datatype CreditRecord = CreditRecord(
    id: int, date: Date, customerName: string, vehicleNumber: string,
    fuelType: string, liters: real, rate: real, amount: real,
    dueDate: Date, status: string)

  /** Other income and expenses share one shape. */
  datatype MoneyRecord = MoneyRecord(
    id: int, date: Date, category: string, amount: real, description: string)

  const SaleDate: SaleRecord -> Date := (s: SaleRecord) => s.date
  const CreditDate: CreditRecord -> Date := (c: CreditRecord) => c.date
  const MoneyDate: MoneyRecord -> Date := (m: MoneyRecord) => m.date

  /** `xs.filter(item => item.date === d)`. */
  function OnDate<T>(xs: seq<T>, dateOf: T -> Date, d: Date): (r: seq<T>)
    ensures |r| <= |xs|
    ensures forall i :: 0 <= i < |r| ==> dateOf(r[i]) == d
    ensures forall i :: 0 <= i < |xs| && dateOf(xs[i]) == d ==> xs[i] in r
    ensures forall i :: 0 <= i < |r| ==> r[i] in xs
  {
    if xs == [] then []
    else (if dateOf(xs[0]) == d then [xs[0]] else []) + OnDate(xs[1..], dateOf, d)
  }

  /** Filtering a concatenation filters each part and keeps them in order. */
  lemma {:induction false} OnDateConcat<T>(a: seq<T>, b: seq<T>, dateOf: T -> Date, d: Date)
    ensures OnDate(a + b, dateOf, d) == OnDate(a, dateOf, d) + OnDate(b, dateOf, d)
  {
    if a != [] {
      assert (a + b)[0] == a[0] && (a + b)[1..] == a[1..] + b;
      OnDateConcat(a[1..], b, dateOf, d);
    } else {
      assert a + b == b;
    }
  }

  /** The filter keeps every record of the day, as often as it occurs, and nothing else. */
  lemma {:induction false} OnDateMultiset<T>(xs: seq<T>, dateOf: T -> Date, d: Date)
    ensures forall x :: multiset(OnDate(xs, dateOf, d))[x] == if dateOf(x) == d then multiset(xs)[x] else 0
  {
    if xs != [] {
      OnDateMultiset(xs[1..], dateOf, d);
      assert xs == [xs[0]] + xs[1..];
    }
  }

  /** A list that holds only records of the day passes the filter unchanged. */
  lemma {:induction false} OnDateAllOfDay<T>(xs: seq<T>, dateOf: T -> Date, d: Date)
    requires forall i :: 0 <= i < |xs| ==> dateOf(xs[i]) == d
    ensures OnDate(xs, dateOf, d) == xs
  {
    if xs != [] {
      OnDateAllOfDay(xs[1..], dateOf, d);
    }
  }

  /** `xs.reduce((sum, x) => sum + f(x), 0)`; real addition is exact, so the fold order does not matter. */
  function Sum<T>(xs: seq<T>, f: T -> real): real
  {
    if xs == [] then 0.0 else f(xs[0]) + Sum(xs[1..], f)
  }

  /** The sum over the day's records read straight off the unfiltered list. */
  function SumOnDate<T>(xs: seq<T>, dateOf: T -> Date, d: Date, f: T -> real): real
  {
    if xs == [] then 0.0
    else (if dateOf(xs[0]) == d then f(xs[0]) else 0.0) + SumOnDate(xs[1..], dateOf, d, f)
  }

  /** Summing the filtered list is summing the whole list with other days counted as zero. */
  lemma {:induction false} SumOfOnDate<T>(xs: seq<T>, dateOf: T -> Date, d: Date, f: T -> real)
    ensures Sum(OnDate(xs, dateOf, d), f) == SumOnDate(xs, dateOf, d, f)
  {
    if xs != [] {
      SumOfOnDate(xs[1..], dateOf, d, f);
      var rest := OnDate(xs[1..], dateOf, d);
      if dateOf(xs[0]) == d {
        assert OnDate(xs, dateOf, d) == [xs[0]] + rest;
        assert ([xs[0]] + rest)[1..] == rest;
      } else {
        assert OnDate(xs, dateOf, d) == rest;
      }
    }
  }

  /** A day without records sums to zero. */
  lemma {:induction false} SumOnDateEmptyDay<T>(xs: seq<T>, dateOf: T -> Date, d: Date, f: T -> real)
    requires forall i :: 0 <= i < |xs| ==> dateOf(xs[i]) != d
    ensures SumOnDate(xs, dateOf, d, f) == 0.0
  {
    if xs != [] {
      SumOnDateEmptyDay(xs[1..], dateOf, d, f);
    }
  }

  /**
   * Two lists that agree, position by position, on which records belong to the
   * day and on what those records contribute have the same day sum.
   */
  lemma {:induction false} SumOnDateCongruent<T>(xs: seq<T>, ys: seq<T>, dateOf: T -> Date, d: Date, f: T -> real)
    requires |xs| == |ys|
    requires forall i :: 0 <= i < |xs| ==> (dateOf(xs[i]) == d) == (dateOf(ys[i]) == d)
    requires forall i :: 0 <= i < |xs| && dateOf(xs[i]) == d ==> f(xs[i]) == f(ys[i])
    ensures SumOnDate(xs, dateOf, d, f) == SumOnDate(ys, dateOf, d, f)
  {
    if xs != [] {
      SumOnDateCongruent(xs[1..], ys[1..], dateOf, d, f);
    }
  }

  /** The day sum of a concatenation is the sum of the parts' day sums. */
  lemma {:induction false} SumOnDateConcat<T>(a: seq<T>, b: seq<T>, dateOf: T -> Date, d: Date, f: T -> real)
    ensures SumOnDate(a + b, dateOf, d, f) == SumOnDate(a, dateOf, d, f) + SumOnDate(b, dateOf, d, f)
  {
    if a == [] {
      assert a + b == b;
    } else {
      assert (a + b)[0] == a[0] && (a + b)[1..] == a[1..] + b;
      SumOnDateConcat(a[1..], b, dateOf, d, f);
    }
  }

  /** Filtering twice filters once. */
  lemma OnDateIdempotent<T>(xs: seq<T>, dateOf: T -> Date, d: Date)
    ensures OnDate(OnDate(xs, dateOf, d), dateOf, d) == OnDate(xs, dateOf, d)
  {
    OnDateAllOfDay(OnDate(xs, dateOf, d), dateOf, d);
  }
}
