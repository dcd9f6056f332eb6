/** Sums and date filters shared by the payment and expense stores. Both record
    kinds have an amount and a date; the two projections are passed in as named
    functions. The filters follow the stores' SQL: a date range is an inclusive
    `BETWEEN`, a month filter matches both the month and the year. */
module Ledger {
  import opened Calendar

  /** `stream().mapToDouble(amount).sum()`. */
  function Total<T>(s: seq<T>, amount: T -> real): real {
    if s == [] then 0.0 else amount(s[0]) + Total(s[1..], amount)
  }

  /** `WHERE date BETWEEN lo AND hi`. */
  function InRange<T(!new)>(s: seq<T>, date: T -> int, lo: int, hi: int): (r: seq<T>)
    ensures |r| <= |s|
    ensures forall x :: x in r <==> x in s && lo <= date(x) <= hi
  {
    if s == [] then []
    else if lo <= date(s[0]) <= hi then [s[0]] + InRange(s[1..], date, lo, hi)
    else InRange(s[1..], date, lo, hi)
  }

  /** `WHERE strftime('%m', date) = month AND strftime('%Y', date) = year`. */
  function InMonth<T(!new)>(s: seq<T>, date: T -> int, month: int, year: int): (r: seq<T>)
    ensures |r| <= |s|
    ensures forall x :: x in r <==> x in s && MonthOf(date(x)) == month && YearOf(date(x)) == year
  {
    if s == [] then []
    else if MonthOf(date(s[0])) == month && YearOf(date(s[0])) == year then [s[0]] + InMonth(s[1..], date, month, year)
    else InMonth(s[1..], date, month, year)
  }

  /** The records dated in the given year. */
  function InYear<T(!new)>(s: seq<T>, date: T -> int, year: int): (r: seq<T>)
    ensures |r| <= |s|
    ensures forall x :: x in r <==> x in s && YearOf(date(x)) == year
  {
    if s == [] then []
    else if YearOf(date(s[0])) == year then [s[0]] + InYear(s[1..], date, year)
    else InYear(s[1..], date, year)
  }

  /** The sum of the monthly totals of months 1 .. k of a year. */
  function MonthSum<T(!new)>(s: seq<T>, date: T -> int, amount: T -> real, year: int, k: nat): real {
    if k == 0 then 0.0
    else MonthSum(s, date, amount, year, k - 1) + Total(InMonth(s, date, k, year), amount)
  }

  lemma {:induction false} TotalAppend<T>(a: seq<T>, b: seq<T>, amount: T -> real)
    ensures Total(a + b, amount) == Total(a, amount) + Total(b, amount)
  {
    if a == [] {
      assert a + b == b;
    } else {
      assert (a + b)[1..] == a[1..] + b;
      TotalAppend(a[1..], b, amount);
    }
  }

  /** Two ranges sharing the day `mid` cover the whole range once and `mid`
      twice: a record dated `mid` is counted in both halves. */
  lemma {:induction false} RangeSplit<T(!new)>(s: seq<T>, date: T -> int, amount: T -> real, lo: int, mid: int, hi: int)
    requires lo <= mid <= hi
    ensures Total(InRange(s, date, lo, mid), amount) + Total(InRange(s, date, mid, hi), amount)
         == Total(InRange(s, date, lo, hi), amount) + Total(InRange(s, date, mid, mid), amount)
  {
    if s != [] {
      RangeSplit(s[1..], date, amount, lo, mid, hi);
    }
  }

  /** Adding one record in front changes the sum of months 1 .. k by its
      amount exactly when it falls in one of those months of the year. */
  lemma {:induction false} MonthSumCons<T(!new)>(x: T, s: seq<T>, date: T -> int, amount: T -> real, year: int, k: nat)
    ensures MonthSum([x] + s, date, amount, year, k)
         == MonthSum(s, date, amount, year, k)
            + (if YearOf(date(x)) == year && MonthOf(date(x)) <= k then amount(x) else 0.0)
  {
    var xs := [x] + s;
    assert xs[0] == x && xs[1..] == s;
    if k > 0 {
      MonthSumCons(x, s, date, amount, year, k - 1);
      var hit := MonthOf(date(x)) == k && YearOf(date(x)) == year;
      assert InMonth(xs, date, k, year) == if hit then [x] + InMonth(s, date, k, year) else InMonth(s, date, k, year);
      assert Total(InMonth(xs, date, k, year), amount)
          == Total(InMonth(s, date, k, year), amount) + (if hit then amount(x) else 0.0);
    }
  }

  /** The twelve monthly totals of a year add up to the year's total. */
  lemma {:induction false} MonthsCoverYear<T(!new)>(s: seq<T>, date: T -> int, amount: T -> real, year: int)
    ensures MonthSum(s, date, amount, year, 12) == Total(InYear(s, date, year), amount)
  {
    if s == [] {
      MonthSumEmpty(date, amount, year, 12);
    } else {
      assert s == [s[0]] + s[1..];
      MonthSumCons(s[0], s[1..], date, amount, year, 12);
      MonthsCoverYear(s[1..], date, amount, year);
    }
  }

  lemma {:induction false} MonthSumEmpty<T(!new)>(date: T -> int, amount: T -> real, year: int, k: nat)
    ensures MonthSum([], date, amount, year, k) == 0.0
  {
    if k > 0 {
      MonthSumEmpty(date, amount, year, k - 1);
    }
  }

  /** The month filter is the date-range filter over that month's first and
      last day: `findByMonth` and `findByDateRange` agree on whole months. */
  lemma {:induction false} MonthIsRange<T(!new)>(s: seq<T>, date: T -> int, month: int, year: int)
    requires 1 <= month <= 12
    ensures InMonth(s, date, month, year)
         == InRange(s, date, DateOf(year, month, 1), DateOf(year, month, LengthOfMonth(year, month)))
  {
    if s != [] {
      MonthAsRange(date(s[0]), year, month);
      MonthIsRange(s[1..], date, month, year);
    }
  }

  /** The year filter is the date-range filter from January 1st to
      December 31st. */
  lemma {:induction false} YearIsRange<T(!new)>(s: seq<T>, date: T -> int, year: int)
    ensures InYear(s, date, year) == InRange(s, date, DateOf(year, 1, 1), DateOf(year, 12, 31))
  {
    if s != [] {
      YearAsRange(date(s[0]), year);
      YearIsRange(s[1..], date, year);
    }
  }
}
