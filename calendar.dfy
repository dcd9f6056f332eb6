/** Dates and times as the services see them. A date (`LocalDate`) is a day
    ordinal, day 0 being 1970-01-01; a time (`LocalDateTime`) is a count of
    seconds. The proleptic Gregorian calendar below gives the year, month and
    month arithmetic that `java.time` provides, with the round trip between
    ordinals and civil dates and the ordering facts the services rely on. */
module Calendar {

  const SecondsPerHour: int := 3600

  const EpochYear: int := 1970

  datatype Civil = Civil(year: int, month: int, day: int)

  predicate IsLeap(y: int) {
    y % 4 == 0 && (y % 100 != 0 || y % 400 == 0)
  }

  function YearLength(y: int): (n: int)
    ensures 365 <= n <= 366
  {
    if IsLeap(y) then 366 else 365
  }

  function LengthOfMonth(y: int, m: int): (n: int)
    ensures 28 <= n <= 31
  {
    if m == 2 then (if IsLeap(y) then 29 else 28)
    else if m == 4 || m == 6 || m == 9 || m == 11 then 30
    else 31
  }

  /** A civil date that names a real day. */
  predicate ValidCivil(c: Civil) {
    1 <= c.month <= 12 && 1 <= c.day <= LengthOfMonth(c.year, c.month)
  }

  /** Days from 1970-01-01 to January 1st of year y (negative before 1970). */
  function DaysBeforeYear(y: int): int
    decreases if y >= EpochYear then y - EpochYear else EpochYear - y
  {
    if y == EpochYear then 0
    else if y > EpochYear then DaysBeforeYear(y - 1) + YearLength(y - 1)
    else DaysBeforeYear(y + 1) - YearLength(y)
  }

  lemma NextYear(y: int)
    ensures DaysBeforeYear(y + 1) == DaysBeforeYear(y) + YearLength(y)
  {
  }

  /** Days from January 1st to the first of month m of year y. */
  function DaysBeforeMonth(y: int, m: int): (n: int)
    requires 1 <= m <= 12
    ensures m == 1 <==> n == 0
    ensures m == 12 ==> n + LengthOfMonth(y, 12) == YearLength(y)
  {
    var leap := if IsLeap(y) then 1 else 0;
    if m == 1 then 0
    else if m == 2 then 31
    else if m == 3 then 59 + leap
    else if m == 4 then 90 + leap
    else if m == 5 then 120 + leap
    else if m == 6 then 151 + leap
    else if m == 7 then 181 + leap
    else if m == 8 then 212 + leap
    else if m == 9 then 243 + leap
    else if m == 10 then 273 + leap
    else if m == 11 then 304 + leap
    else 334 + leap
  }

  lemma NextMonth(y: int, m: int)
    requires 1 <= m < 12
    ensures DaysBeforeMonth(y, m + 1) == DaysBeforeMonth(y, m) + LengthOfMonth(y, m)
  {
  }

  /** `LocalDate.of(y, m, d)` for a valid month, as a day ordinal. */
  function DateOf(y: int, m: int, d: int): int
    requires 1 <= m <= 12
  {
    DaysBeforeYear(y) + DaysBeforeMonth(y, m) + d - 1
  }

  /** The year holding the day r days after January 1st of year y (r may be
      negative), and the day within that year. */
  function YearIn(y: int, r: int): (yd: (int, int))
    ensures 0 <= yd.1 < YearLength(yd.0)
    ensures DaysBeforeYear(yd.0) + yd.1 == DaysBeforeYear(y) + r
    decreases if r < 0 then 1 else 0, if r < 0 then -r else r
  {
    NextYear(y);
    NextYear(y - 1);
    if 0 <= r < YearLength(y) then (y, r)
    else if r >= YearLength(y) then YearIn(y + 1, r - YearLength(y))
    else YearIn(y - 1, r + YearLength(y - 1))
  }

  /** The month and day of month holding day `doy` (from 0) of year y,
      starting the search at month m. */
  function MonthIn(y: int, m: int, doy: int): (md: (int, int))
    requires 1 <= m <= 12 && 0 <= doy
    requires DaysBeforeMonth(y, m) + doy < YearLength(y)
    ensures 1 <= md.0 <= 12 && 1 <= md.1 <= LengthOfMonth(y, md.0)
    ensures DaysBeforeMonth(y, md.0) + md.1 - 1 == DaysBeforeMonth(y, m) + doy
    decreases 12 - m
  {
    if m == 12 || doy < LengthOfMonth(y, m) then (m, doy + 1)
    else NextMonth(y, m); MonthIn(y, m + 1, doy - LengthOfMonth(y, m))
  }

  /** The civil date of a day ordinal: a real day that maps back to it. */
  function CivilOf(date: int): (c: Civil)
    ensures ValidCivil(c)
    ensures DateOf(c.year, c.month, c.day) == date
  {
    var yd := YearIn(EpochYear, date);
    var md := MonthIn(yd.0, 1, yd.1);
    Civil(yd.0, md.0, md.1)
  }

  /** `LocalDate.getYear`. */
  function YearOf(date: int): int {
    CivilOf(date).year
  }

  /** `LocalDate.getMonthValue`: always a month number. */
  function MonthOf(date: int): (m: int)
    ensures 1 <= m <= 12
  {
    CivilOf(date).month
  }

  /** A month counted from year 0: `year * 12 + month - 1`. */
  function MonthIndex(c: Civil): int {
    c.year * 12 + c.month - 1
  }

  /** The ordinal of the first day of the month with index k. */
  function MonthStart(k: int): int {
    DateOf(k / 12, k % 12 + 1, 1)
  }

  lemma MonthStartStep(k: int)
    ensures MonthStart(k + 1) == MonthStart(k) + LengthOfMonth(k / 12, k % 12 + 1)
  {
    if k % 12 == 11 {
      assert (k + 1) / 12 == k / 12 + 1 && (k + 1) % 12 == 0;
      NextYear(k / 12);
    } else {
      assert (k + 1) / 12 == k / 12 && (k + 1) % 12 == k % 12 + 1;
      NextMonth(k / 12, k % 12 + 1);
    }
  }

  /** Every later month starts no earlier than the end of month k. */
  lemma {:induction false} MonthStartMonotone(k: int, j: int)
    requires k < j
    ensures MonthStart(k) + LengthOfMonth(k / 12, k % 12 + 1) <= MonthStart(j)
    decreases j - k
  {
    MonthStartStep(k);
    if k + 1 < j {
      MonthStartMonotone(k + 1, j);
    }
  }

  lemma MonthStartOf(c: Civil)
    requires ValidCivil(c)
    ensures MonthIndex(c) / 12 == c.year && MonthIndex(c) % 12 + 1 == c.month
    ensures DateOf(c.year, c.month, c.day) == MonthStart(MonthIndex(c)) + c.day - 1
  {
  }

  /** Day ordinals follow the civil order: a later month means a later day,
      and within a month a later day of the month means a later day. */
  lemma CivilOrder(a: Civil, b: Civil)
    requires ValidCivil(a) && ValidCivil(b)
    ensures MonthIndex(a) < MonthIndex(b) ==> DateOf(a.year, a.month, a.day) < DateOf(b.year, b.month, b.day)
    ensures MonthIndex(a) == MonthIndex(b) && a.day <= b.day
            ==> DateOf(a.year, a.month, a.day) <= DateOf(b.year, b.month, b.day)
  {
    MonthStartOf(a);
    MonthStartOf(b);
    if MonthIndex(a) < MonthIndex(b) {
      MonthStartMonotone(MonthIndex(a), MonthIndex(b));
    }
  }

  /** A real day has exactly one ordinal, so `CivilOf` inverts `DateOf`. */
  lemma CivilOfDateOf(c: Civil)
    requires ValidCivil(c)
    ensures CivilOf(DateOf(c.year, c.month, c.day)) == c
  {
    var c' := CivilOf(DateOf(c.year, c.month, c.day));
    CivilOrder(c, c');
    CivilOrder(c', c);
    assert MonthIndex(c) == MonthIndex(c');
    MonthStartOf(c);
    MonthStartOf(c');
  }

  /** `LocalDate.plusMonths(n)`: move the month, keep the day of month,
      clamped to the length of the target month. `minusMonths(n)` is
      `AddMonths(date, -n)`. */
  function AddMonths(date: int, n: int): (r: int)
    ensures MonthIndex(CivilOf(r)) == MonthIndex(CivilOf(date)) + n
    ensures CivilOf(r).day <= CivilOf(date).day
  {
    var c := CivilOf(date);
    var total := MonthIndex(c) + n;
    var y := total / 12;
    var m := total % 12 + 1;
    var d := if c.day <= LengthOfMonth(y, m) then c.day else LengthOfMonth(y, m);
    CivilOfDateOf(Civil(y, m, d));
    DateOf(y, m, d)
  }

  /** The day of month is kept when the target month has it, and otherwise
      becomes that month's last day. */
  lemma AddMonthsClamps(date: int, n: int)
    ensures var c, t := CivilOf(date), CivilOf(AddMonths(date, n));
            t.day == if c.day <= LengthOfMonth(t.year, t.month) then c.day else LengthOfMonth(t.year, t.month)
  {
    var c := CivilOf(date);
    var total := MonthIndex(c) + n;
    var y := total / 12;
    var m := total % 12 + 1;
    var d := if c.day <= LengthOfMonth(y, m) then c.day else LengthOfMonth(y, m);
    assert AddMonths(date, n) == DateOf(y, m, d);
    CivilOfDateOf(Civil(y, m, d));
    assert CivilOf(AddMonths(date, n)) == Civil(y, m, d);
  }

  /** Moving forward by at least one month gives a strictly later day, and
      moving back by at least one month a strictly earlier day. */
  lemma AddMonthsMoves(date: int, n: int)
    ensures n > 0 ==> AddMonths(date, n) > date
    ensures n < 0 ==> AddMonths(date, n) < date
  {
    var r := AddMonths(date, n);
    var a, b := CivilOf(date), CivilOf(r);
    assert DateOf(a.year, a.month, a.day) == date;
    assert DateOf(b.year, b.month, b.day) == r;
    if n > 0 {
      CivilOrder(a, b);
    } else if n < 0 {
      CivilOrder(b, a);
    }
  }

  lemma AddNoMonths(date: int)
    ensures AddMonths(date, 0) == date
  {
    var c := CivilOf(date);
    MonthStartOf(c);
  }

  /** Going back k months and then forward j <= k months never passes the
      starting day. */
  lemma BackThenForward(date: int, k: int, j: int)
    requires 0 <= j <= k
    ensures AddMonths(date, -k) <= AddMonths(AddMonths(date, -k), j) <= date
  {
    var start := AddMonths(date, -k);
    var mid := AddMonths(start, j);
    if j == 0 {
      AddNoMonths(start);
    } else {
      AddMonthsMoves(start, j);
    }
    var a, c := CivilOf(date), CivilOf(mid);
    assert DateOf(a.year, a.month, a.day) == date;
    assert DateOf(c.year, c.month, c.day) == mid;
    assert MonthIndex(c) <= MonthIndex(a) && c.day <= a.day;
    CivilOrder(c, a);
  }

  /** A day lies in month m of year y exactly when it falls between the
      first and the last day of that month, both included. */
  lemma MonthAsRange(date: int, y: int, m: int)
    requires 1 <= m <= 12
    ensures MonthOf(date) == m && YearOf(date) == y
            <==> DateOf(y, m, 1) <= date <= DateOf(y, m, LengthOfMonth(y, m))
  {
    var c := CivilOf(date);
    assert DateOf(c.year, c.month, c.day) == date;
    var first, last := Civil(y, m, 1), Civil(y, m, LengthOfMonth(y, m));
    CivilOrder(first, c);
    CivilOrder(c, last);
    CivilOrder(c, first);
    CivilOrder(last, c);
    MonthStartOf(c);
    MonthStartOf(first);
  }

  /** A day lies in year y exactly when it falls between January 1st and
      December 31st of y, both included. */
  lemma YearAsRange(date: int, y: int)
    ensures YearOf(date) == y <==> DateOf(y, 1, 1) <= date <= DateOf(y, 12, 31)
  {
    var c := CivilOf(date);
    assert DateOf(c.year, c.month, c.day) == date;
    var first, last := Civil(y, 1, 1), Civil(y, 12, 31);
    CivilOrder(first, c);
    CivilOrder(c, last);
    CivilOrder(c, first);
    CivilOrder(last, c);
  }
}
