/** Seconds and civil dates in UTC, for the years 0000 to 9999 of the Gregorian calendar. */
module Calendar {

  datatype Civil = Civil(year: nat, month: nat, day: nat, hour: nat, minute: nat, second: nat)

  predicate Leap(y: nat) {
    y % 4 == 0 && (y % 100 != 0 || y % 400 == 0)
  }

  function DaysIn(y: nat, m: nat): nat {
    if m == 2 then (if Leap(y) then 29 else 28)
    else if m in {4, 6, 9, 11} then 30
    else 31
  }

  predicate Valid(c: Civil) {
    && c.year <= 9999 && 1 <= c.month <= 12 && 1 <= c.day <= DaysIn(c.year, c.month)
    && c.hour < 24 && c.minute < 60 && c.second < 60
  }

  /** Days from the first of January of the year 0. */
  function DaysBeforeYear(y: nat): nat {
    if y == 0 then 0 else DaysBeforeYear(y - 1) + if Leap(y - 1) then 366 else 365
  }

  function DaysBeforeMonth(y: nat, m: nat): nat {
    if m <= 1 then 0 else DaysBeforeMonth(y, m - 1) + DaysIn(y, m - 1)
  }

  function DayNumber(y: nat, m: nat, d: nat): int {
    DaysBeforeYear(y) + DaysBeforeMonth(y, m) + d - 1
  }

  /** Seconds since 0000-01-01T00:00:00Z. */
  function Seconds(c: Civil): int {
    DayNumber(c.year, c.month, c.day) * 86400 + c.hour * 3600 + c.minute * 60 + c.second
  }

  /** The first second of the year 10000. */
  function End(): int {
    DaysBeforeYear(10000) * 86400
  }

  // Order.

  predicate DateLess(a: Civil, b: Civil) {
    a.year < b.year || (a.year == b.year && (a.month < b.month || (a.month == b.month && a.day < b.day)))
  }

  predicate SameDate(a: Civil, b: Civil) {
    a.year == b.year && a.month == b.month && a.day == b.day
  }

  predicate TimeLess(a: Civil, b: Civil) {
    a.hour < b.hour || (a.hour == b.hour && (a.minute < b.minute || (a.minute == b.minute && a.second < b.second)))
  }

  /** Field by field, the most significant first. */
  predicate CivilLess(a: Civil, b: Civil) {
    DateLess(a, b) || (SameDate(a, b) && TimeLess(a, b))
  }

  lemma {:induction false} MonthsGrow(y: nat, m: nat, k: nat)
    requires 1 <= m < k
    ensures DaysBeforeMonth(y, m) + DaysIn(y, m) <= DaysBeforeMonth(y, k)
  {
    if m + 1 < k {
      MonthsGrow(y, m, k - 1);
    }
  }

  lemma YearLength(y: nat)
    ensures DaysBeforeMonth(y, 13) == if Leap(y) then 366 else 365
  {
    assert DaysBeforeMonth(y, 2) == 31;
    assert DaysBeforeMonth(y, 3) == if Leap(y) then 60 else 59;
    assert DaysBeforeMonth(y, 5) == DaysBeforeMonth(y, 3) + 61;
    assert DaysBeforeMonth(y, 7) == DaysBeforeMonth(y, 3) + 122;
    assert DaysBeforeMonth(y, 9) == DaysBeforeMonth(y, 3) + 184;
    assert DaysBeforeMonth(y, 11) == DaysBeforeMonth(y, 3) + 245;
  }

  lemma {:induction false} YearsGrow(y: nat, z: nat)
    requires y < z
    ensures DaysBeforeYear(y) + DaysBeforeMonth(y, 13) <= DaysBeforeYear(z)
  {
    YearLength(y);
    if y + 1 < z {
      YearsGrow(y, z - 1);
    }
  }

  lemma DayInYear(y: nat, m: nat, d: nat)
    requires 1 <= m <= 12 && 1 <= d <= DaysIn(y, m)
    ensures DaysBeforeMonth(y, m) + d <= DaysBeforeMonth(y, 13)
  {
    MonthsGrow(y, m, 13);
  }

  lemma EarlierDate(a: Civil, b: Civil)
    requires Valid(a) && Valid(b) && DateLess(a, b)
    ensures DayNumber(a.year, a.month, a.day) < DayNumber(b.year, b.month, b.day)
  {
    if a.year < b.year {
      DayInYear(a.year, a.month, a.day);
      YearsGrow(a.year, b.year);
    } else if a.month < b.month {
      MonthsGrow(a.year, a.month, b.month);
    }
  }

  lemma Earlier(a: Civil, b: Civil)
    requires Valid(a) && Valid(b) && CivilLess(a, b)
    ensures Seconds(a) < Seconds(b)
  {
    if DateLess(a, b) {
      EarlierDate(a, b);
      SecondOfDay(a);
      SecondOfDay(b);
    }
  }

  lemma SecondOfDay(c: Civil)
    requires Valid(c)
    ensures 0 <= c.hour * 3600 + c.minute * 60 + c.second < 86400
  {
  }

  lemma CivilTotal(a: Civil, b: Civil)
    ensures CivilLess(a, b) || CivilLess(b, a) || a == b
  {
  }

  /** The order of the fields is the order of the instants; so different dates are different instants. */
  lemma OrderOfFields(a: Civil, b: Civil)
    requires Valid(a) && Valid(b)
    ensures CivilLess(a, b) <==> Seconds(a) < Seconds(b)
    ensures a == b <==> Seconds(a) == Seconds(b)
  {
    CivilTotal(a, b);
    if CivilLess(a, b) {
      Earlier(a, b);
    } else if CivilLess(b, a) {
      Earlier(b, a);
    }
  }

  // The calendar in closed form.

  lemma Fourth(z: nat)
    ensures (z + 4) / 4 == (z + 3) / 4 + if z % 4 == 0 then 1 else 0
  {
  }

  lemma Hundredth(z: nat)
    ensures (z + 100) / 100 == (z + 99) / 100 + if z % 100 == 0 then 1 else 0
  {
  }

  lemma FourHundredth(z: nat)
    ensures (z + 400) / 400 == (z + 399) / 400 + if z % 400 == 0 then 1 else 0
  {
  }

  lemma Centuries(z: nat)
    ensures z % 400 == 0 ==> z % 100 == 0
    ensures z % 100 == 0 ==> z % 4 == 0
  {
    if z % 400 == 0 {
      var q := z / 400;
      assert z == 100 * (4 * q);
    }
    if z % 100 == 0 {
      var q := z / 100;
      assert z == 4 * (25 * q);
    }
  }

  lemma {:induction false} LeapYearsBefore(y: nat)
    ensures DaysBeforeYear(y) == 365 * y + (y + 3) / 4 - (y + 99) / 100 + (y + 399) / 400
  {
    if y > 0 {
      LeapYearsBefore(y - 1);
      OneMoreYear(y - 1);
    }
  }

  lemma OneMoreYear(z: nat)
    ensures (z + 4) / 4 - (z + 100) / 100 + (z + 400) / 400 ==
            (z + 3) / 4 - (z + 99) / 100 + (z + 399) / 400 + if Leap(z) then 1 else 0
  {
    Fourth(z);
    Hundredth(z);
    FourHundredth(z);
    Centuries(z);
  }

  lemma MonthOffsets(y: nat)
    ensures var f := if Leap(y) then 60 else 59;
            && DaysBeforeMonth(y, 1) == 0 && DaysBeforeMonth(y, 2) == 31 && DaysBeforeMonth(y, 3) == f
            && DaysBeforeMonth(y, 4) == f + 31 && DaysBeforeMonth(y, 5) == f + 61 && DaysBeforeMonth(y, 6) == f + 92
            && DaysBeforeMonth(y, 7) == f + 122 && DaysBeforeMonth(y, 8) == f + 153 && DaysBeforeMonth(y, 9) == f + 184
            && DaysBeforeMonth(y, 10) == f + 214 && DaysBeforeMonth(y, 11) == f + 245 && DaysBeforeMonth(y, 12) == f + 275
  {
    assert DaysBeforeMonth(y, 2) == 31;
    assert DaysBeforeMonth(y, 3) == if Leap(y) then 60 else 59;
    assert DaysBeforeMonth(y, 5) == DaysBeforeMonth(y, 3) + 61;
    assert DaysBeforeMonth(y, 7) == DaysBeforeMonth(y, 3) + 122;
    assert DaysBeforeMonth(y, 9) == DaysBeforeMonth(y, 3) + 184;
    assert DaysBeforeMonth(y, 11) == DaysBeforeMonth(y, 3) + 245;
  }

  /** Days by the formula for years that begin in March: every fourth year has a day more, but not every
      hundredth, yet every four-hundredth, and months follow a line with slope 153/5. */
  lemma DaysInClosedForm(y: nat, m: nat, d: nat)
    requires 1 <= m <= 12
    ensures var year: int, month := if m <= 2 then y - 1 else y, (m + 9) % 12;
            DayNumber(y, m, d) == 60 + 365 * year + year / 4 - year / 100 + year / 400 + (153 * month + 2) / 5 + d - 1
  {
    LeapYearsBefore(y);
    MonthOffsets(y);
    hide DaysBeforeMonth, DaysBeforeYear;
    if m <= 2 {
      YearBefore(y);
    } else {
      OneMoreYear(y);
      Whole(y);
      hide Leap;
      MonthLine(m);
    }
  }

  lemma YearBefore(y: nat)
    ensures (y - 1) / 4 == (y + 3) / 4 - 1 && (y - 1) / 100 == (y + 99) / 100 - 1 && (y - 1) / 400 == (y + 399) / 400 - 1
  {
  }

  lemma Whole(y: nat)
    ensures (y + 4) / 4 == y / 4 + 1 && (y + 100) / 100 == y / 100 + 1 && (y + 400) / 400 == y / 400 + 1
  {
  }

  lemma MonthLine(m: nat)
    requires 3 <= m <= 12
    ensures (m + 9) % 12 == m - 3
    ensures (153 * (m - 3) + 2) / 5 ==
            if m == 3 then 0 else if m == 4 then 31 else if m == 5 then 61 else if m == 6 then 92 else if m == 7 then 122
            else if m == 8 then 153 else if m == 9 then 184 else if m == 10 then 214 else if m == 11 then 245 else 275
  {
  }

  // Every instant has a date.

  function YearOf(n: nat, y: nat): (r: nat)
    requires y <= 9999 && DaysBeforeYear(y) <= n < DaysBeforeYear(10000)
    ensures y <= r <= 9999 && DaysBeforeYear(r) <= n < DaysBeforeYear(r + 1)
    decreases 9999 - y
  {
    if n < DaysBeforeYear(y + 1) || y == 9999 then y else YearOf(n, y + 1)
  }

  function MonthOf(y: nat, n: nat, m: nat): (r: nat)
    requires 1 <= m <= 12 && DaysBeforeMonth(y, m) <= n < DaysBeforeMonth(y, 13)
    ensures m <= r <= 12 && DaysBeforeMonth(y, r) <= n < DaysBeforeMonth(y, r + 1)
    decreases 12 - m
  {
    if n < DaysBeforeMonth(y, m + 1) || m == 12 then m else MonthOf(y, n, m + 1)
  }

  /** The date and time of an instant. */
  function CivilOf(t: int): (c: Civil)
    requires 0 <= t < End()
    ensures Valid(c) && Seconds(c) == t
  {
    var n, s := t / 86400, t % 86400;
    var y := YearOf(n, 0);
    YearLength(y);
    var m := MonthOf(y, n - DaysBeforeYear(y), 1);
    Civil(y, m, n - DaysBeforeYear(y) - DaysBeforeMonth(y, m) + 1, s / 3600, s % 3600 / 60, s % 60)
  }
}
