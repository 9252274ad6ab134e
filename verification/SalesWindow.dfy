/**
 * Dates as the sales collector writes them and its catch-up window (apps/agents/src/ourvend-accounting.ts).
 * Calendar: RFC 3339, month lengths and leap rule of section 5.7, full-date of section 5.6, ordering of
 * section 5.1.
 */
module SalesWindow {
  import opened Common

  datatype Date = Date(y: int, m: int, d: int)

  predicate Leap(y: int) {
    y % 4 == 0 && (y % 100 != 0 || y % 400 == 0)
  }

  function MonthLength(y: int, m: int): (n: int)
    ensures 28 <= n <= 31
  {
    if m == 2 then (if Leap(y) then 29 else 28)
    else if m == 4 || m == 6 || m == 9 || m == 11 then 30 else 31
  }

  /** The Gregorian rule: every fourth year is a leap year, but of the centuries only every fourth. */
  lemma LeapRule(y: int)
    ensures y % 4 != 0 ==> !Leap(y)
    ensures y % 4 == 0 && y % 100 != 0 ==> Leap(y)
    ensures y % 100 == 0 ==> (Leap(y) <==> y % 400 == 0)
    ensures Leap(2000) && Leap(2024) && !Leap(1900) && !Leap(2023)
  {
  }

  lemma MonthTable(y: int, m: int)
    requires 1 <= m <= 12
    ensures MonthLength(y, m) == [31, if Leap(y) then 29 else 28, 31, 30, 31, 30, 31, 31, 30, 31, 30, 31][m - 1]
  {
  }

  predicate IsDate(a: Date) {
    1 <= a.m <= 12 && 1 <= a.d <= MonthLength(a.y, a.m)
  }

  function Tomorrow(a: Date): (b: Date)
    requires IsDate(a)
    ensures IsDate(b)
  {
    if a.d < MonthLength(a.y, a.m) then a.(d := a.d + 1)
    else if a.m < 12 then Date(a.y, a.m + 1, 1) else Date(a.y + 1, 1, 1)
  }

  function Yesterday(a: Date): (b: Date)
    requires IsDate(a)
    ensures IsDate(b) && Tomorrow(b) == a
  {
    if a.d > 1 then a.(d := a.d - 1)
    else if a.m > 1 then Date(a.y, a.m - 1, MonthLength(a.y, a.m - 1)) else Date(a.y - 1, 12, 31)
  }

  // ── Day numbers ──────────────────────────────────────────────────────────────

  function YearLength(y: int): int { if Leap(y) then 366 else 365 }

  function DaysBeforeYear(y: int): int
    decreases if y < 0 then -y else y
  {
    if y == 0 then 0
    else if y > 0 then DaysBeforeYear(y - 1) + YearLength(y - 1)
    else DaysBeforeYear(y + 1) - YearLength(y)
  }

  function DaysBeforeMonth(y: int, m: int): int
    decreases m
  {
    if m <= 1 then 0 else DaysBeforeMonth(y, m - 1) + MonthLength(y, m - 1)
  }

  /** Days since 0000-01-01. */
  function DayNumber(a: Date): int {
    DaysBeforeYear(a.y) + DaysBeforeMonth(a.y, a.m) + a.d - 1
  }

  lemma MonthsFillYear(y: int)
    ensures DaysBeforeMonth(y, 12) + 31 == YearLength(y)
  {
    assert DaysBeforeMonth(y, 4) == 31 + MonthLength(y, 2) + 31;
    assert DaysBeforeMonth(y, 8) == DaysBeforeMonth(y, 4) + 30 + 31 + 30 + 31;
  }

  lemma YearStep(y: int)
    ensures DaysBeforeYear(y + 1) == DaysBeforeYear(y) + YearLength(y)
  {
  }

  /** The next date has the next number. */
  lemma TomorrowNumber(a: Date)
    requires IsDate(a)
    ensures DayNumber(Tomorrow(a)) == DayNumber(a) + 1
  {
    if a.d == MonthLength(a.y, a.m) && a.m == 12 {
      MonthsFillYear(a.y);
      YearStep(a.y);
    }
  }

  predicate Before(a: Date, b: Date) {
    a.y < b.y || (a.y == b.y && (a.m < b.m || (a.m == b.m && a.d < b.d)))
  }

  lemma {:induction false} MonthOrder(y: int, m: int, n: int)
    requires 1 <= m < n
    ensures DaysBeforeMonth(y, m) + MonthLength(y, m) <= DaysBeforeMonth(y, n)
    decreases n
  {
    if m < n - 1 { MonthOrder(y, m, n - 1); }
  }

  lemma {:induction false} YearOrder(y: int, z: int)
    requires y < z
    ensures DaysBeforeYear(y) + YearLength(y) <= DaysBeforeYear(z)
    decreases z - y
  {
    YearStep(z - 1);
    if y < z - 1 { YearOrder(y, z - 1); }
  }

  lemma DayOfYear(a: Date)
    requires IsDate(a)
    ensures 0 <= DaysBeforeMonth(a.y, a.m) + a.d - 1 < YearLength(a.y)
  {
    MonthsFillYear(a.y);
    if a.m < 12 { MonthOrder(a.y, a.m, 12); }
    if a.m > 1 { MonthOrder(a.y, 1, a.m); }
  }

  /** Calendar order is the order of day numbers. */
  lemma BeforeIffNumber(a: Date, b: Date)
    requires IsDate(a) && IsDate(b)
    ensures Before(a, b) <==> DayNumber(a) < DayNumber(b)
    ensures DayNumber(a) == DayNumber(b) <==> a == b
  {
    if Before(a, b) { EarlierNumber(a, b); } else if Before(b, a) { EarlierNumber(b, a); }
  }

  lemma EarlierNumber(a: Date, b: Date)
    requires IsDate(a) && IsDate(b) && Before(a, b)
    ensures DayNumber(a) < DayNumber(b)
  {
    if a.y < b.y {
      DayOfYear(a);
      DayOfYear(b);
      YearOrder(a.y, b.y);
    } else if a.m < b.m {
      MonthOrder(a.y, a.m, b.m);
    }
  }

  function AddDaysTo(a: Date, n: int): (b: Date)
    requires IsDate(a)
    ensures IsDate(b)
    decreases if n < 0 then -n else n
  {
    if n == 0 then a else if n > 0 then Tomorrow(AddDaysTo(a, n - 1)) else Yesterday(AddDaysTo(a, n + 1))
  }

  lemma {:induction false} AddDaysNumber(a: Date, n: int)
    requires IsDate(a)
    ensures DayNumber(AddDaysTo(a, n)) == DayNumber(a) + n
    decreases if n < 0 then -n else n
  {
    if n > 0 {
      AddDaysNumber(a, n - 1);
      TomorrowNumber(AddDaysTo(a, n - 1));
    } else if n < 0 {
      AddDaysNumber(a, n + 1);
      TomorrowNumber(Yesterday(AddDaysTo(a, n + 1)));
    }
  }

  // ── Date texts ───────────────────────────────────────────────────────────────

  /** The first ten characters of `toISOString`: outside the years 0..9999 they end after the month. */
  datatype DateText = Full(date: Date) | Short(y: int, m: int)

  predicate FourDigit(y: int) { 0 <= y <= 9999 }

  predicate IsText(t: DateText) {
    match t
    case Full(date) => IsDate(date) && FourDigit(date.y)
    case Short(y, m) => !FourDigit(y) && 1 <= m <= 12
  }

  function ToText(a: Date): (t: DateText)
    requires IsDate(a)
    ensures IsText(t)
  {
    if FourDigit(a.y) then Full(a) else Short(a.y, a.m)
  }

  /** What `new Date(text + "T00:00:00Z")` reads back. */
  function Parse(t: DateText): (a: Date)
    requires IsText(t)
    ensures IsDate(a)
  {
    match t case Full(date) => date case Short(y, m) => Date(y, m, 1)
  }

  function Pad(n: nat, width: nat): (s: string)
    ensures |s| == width
  {
    if width == 0 then "" else Pad(n / 10, width - 1) + [Digit(n % 10)]
  }

  function Render(t: DateText): string
    requires IsText(t)
  {
    match t
    case Full(a) => Pad(a.y, 4) + ("-" + (Pad(a.m, 2) + ("-" + Pad(a.d, 2))))
    case Short(y, m) => (if y < 0 then "-" + Pad(-y, 6) else "+" + Pad(y, 6)) + "-" + Pad(m, 2)
  }

  lemma {:induction false} LessConcat(p: string, q: string, u: string, v: string)
    requires |p| == |q|
    ensures Less(p + u, q + v) <==> Less(p, q) || (p == q && Less(u, v))
    decreases |p|
  {
    if p == [] {
      assert p + u == u && q + v == v;
    } else {
      assert (p + u)[1..] == p[1..] + u && (q + v)[1..] == q[1..] + v;
      LessConcat(p[1..], q[1..], u, v);
      assert p == [p[0]] + p[1..] && q == [q[0]] + q[1..];
    }
  }

  lemma {:induction false} PadOrder(a: nat, b: nat, width: nat)
    requires a < Pow10(width) && b < Pow10(width)
    ensures Less(Pad(a, width), Pad(b, width)) <==> a < b
    ensures Pad(a, width) == Pad(b, width) <==> a == b
  {
    if width > 0 {
      PadOrder(a / 10, b / 10, width - 1);
      var da, db := [Digit(a % 10)], [Digit(b % 10)];
      LessConcat(Pad(a / 10, width - 1), Pad(b / 10, width - 1), da, db);
      assert Less(da, db) <==> a % 10 < b % 10;
      assert Pad(a, width)[width - 1] == da[0] && Pad(b, width)[width - 1] == db[0];
      assert Pad(a, width)[..width - 1] == Pad(a / 10, width - 1)
             && Pad(b, width)[..width - 1] == Pad(b / 10, width - 1);
    }
  }

  lemma PadThen(a: nat, b: nat, width: nat, u: string, v: string)
    requires a < Pow10(width) && b < Pow10(width)
    ensures Less(Pad(a, width) + u, Pad(b, width) + v) <==> a < b || (a == b && Less(u, v))
  {
    PadOrder(a, b, width);
    LessConcat(Pad(a, width), Pad(b, width), u, v);
  }

  lemma DashThen(u: string, v: string)
    ensures Less("-" + u, "-" + v) <==> Less(u, v)
  {
    LessConcat("-", "-", u, v);
  }

  lemma TextIsBefore(a: Date, b: Date)
    requires IsText(Full(a)) && IsText(Full(b))
    ensures Less(Render(Full(a)), Render(Full(b))) <==> Before(a, b)
  {
    assert Pow10(2) == 100 && Pow10(4) == 10000;
    var da, db := Pad(a.d, 2), Pad(b.d, 2);
    var ma, mb := Pad(a.m, 2) + ("-" + da), Pad(b.m, 2) + ("-" + db);
    PadOrder(a.d, b.d, 2);
    DashThen(da, db);
    PadThen(a.m, b.m, 2, "-" + da, "-" + db);
    DashThen(ma, mb);
    PadThen(a.y, b.y, 4, "-" + ma, "-" + mb);
  }

  /** On four-digit years the order of the texts is the order of the calendar. */
  lemma TextOrder(a: Date, b: Date)
    requires IsText(Full(a)) && IsText(Full(b))
    ensures Less(Render(Full(a)), Render(Full(b))) <==> DayNumber(a) < DayNumber(b)
    ensures Render(Full(a)) == Render(Full(b)) <==> a == b
  {
    BeforeIffNumber(a, b);
    TextIsBefore(a, b);
    TextIsBefore(b, a);
    LessTotal(Render(Full(a)), Render(Full(b)));
  }

  /** A text with a signed year sorts before every four-digit one, whatever its year. */
  lemma ShortFirst(s: DateText, a: Date)
    requires IsText(s) && s.Short? && IsText(Full(a))
    ensures Less(Render(s), Render(Full(a)))
  {
    assert Render(s)[0] == '-' || Render(s)[0] == '+';
    assert Render(Full(a))[0] == Pad(a.y, 4)[0] >= '0' by { PadDigits(a.y, 4); }
  }

  lemma {:induction false} PadDigits(n: nat, width: nat)
    ensures forall i :: 0 <= i < width ==> '0' <= Pad(n, width)[i] <= '9'
  {
    if width > 0 { PadDigits(n / 10, width - 1); }
  }

  function AddDays(t: DateText, n: int): (r: DateText)
    requires IsText(t)
    ensures IsText(r)
  {
    ToText(AddDaysTo(Parse(t), n))
  }

  predicate After(s: DateText, t: DateText)
    requires IsText(s) && IsText(t)
  {
    Less(Render(t), Render(s))
  }

  // ── The window ───────────────────────────────────────────────────────────────

  const CATCHUP_DAYS := 14

  const LastDay := Date(9999, 12, 31)

  /** Four-digit years are exactly the day numbers from 0000-01-01 to 9999-12-31. */
  lemma FourDigitRange(a: Date)
    requires IsDate(a)
    ensures FourDigit(a.y) <==> 0 <= DayNumber(a) <= DayNumber(LastDay)
  {
    assert DayNumber(Date(0, 1, 1)) == 0;
    BeforeIffNumber(a, Date(0, 1, 1));
    BeforeIffNumber(LastDay, a);
  }

  lemma AddDaysText(t: DateText, n: int)
    requires IsText(t) && t.Full?
    ensures var number := DayNumber(t.date) + n;
            var r := AddDays(t, n);
            && (r.Full? <==> 0 <= number <= DayNumber(LastDay))
            && (r.Full? ==> DayNumber(r.date) == number)
            && (r.Short? ==> if number < 0 then r.y < 0 else r.y > 9999)
  {
    var b := AddDaysTo(t.date, n);
    AddDaysNumber(t.date, n);
    FourDigitRange(b);
    BeforeIffNumber(b, Date(0, 1, 1));
    assert DayNumber(Date(0, 1, 1)) == 0;
  }

  lemma Compare(s: DateText, t: DateText)
    requires IsText(s) && IsText(t)
    ensures s.Full? && t.Full? ==> (After(s, t) <==> DayNumber(s.date) > DayNumber(t.date))
    ensures s.Short? && t.Full? ==> After(t, s) && !After(s, t)
    ensures s.Full? && t.Short? ==> After(s, t) && !After(t, s)
    ensures s.Short? && t.Short? && s.y > 9999 && t.y < 0 ==> After(t, s)
    ensures s == t ==> !After(s, t)
  {
    LessTotal(Render(s), Render(t));
    if s.Full? && t.Full? {
      TextOrder(t.date, s.date);
    } else if s.Full? {
      ShortFirst(t, s.date);
    } else if t.Full? {
      ShortFirst(s, t.date);
    } else if s.y > 9999 && t.y < 0 {
      assert Render(s)[0] == '+' && Render(t)[0] == '-';
    }
  }

  method SalesWindow(last: Option<DateText>, yesterday: DateText) returns (from: DateText, to: DateText)
    requires IsText(yesterday) && yesterday.Full? && (last.Some? ==> IsText(last.value) && last.value.Full?)
    ensures to == yesterday && IsText(from)
    // A four-digit start exactly when 14 days of calendar lie behind yesterday, or the day after the watermark is one.
    ensures from.Full? <==> DayNumber(yesterday.date) >= CATCHUP_DAYS - 1 || (last.Some? && last.value.date != LastDay)
    // Then the window is 1 to 14 days ending yesterday,
    ensures from.Full? ==>
              DayNumber(yesterday.date) - (CATCHUP_DAYS - 1) <= DayNumber(from.date) <= DayNumber(yesterday.date)
    // it re-reads no day before the one after the watermark unless yesterday itself,
    ensures from.Full? && last.Some? && last.value.date != LastDay ==>
              DayNumber(from.date) > DayNumber(last.value.date) || from == yesterday
    // and a watermark at most 14 days back leaves no day after it uncovered.
    ensures from.Full? && last.Some? && DayNumber(yesterday.date) - DayNumber(last.value.date) <= CATCHUP_DAYS ==>
              DayNumber(from.date) <= DayNumber(last.value.date) + 1
              || DayNumber(last.value.date) >= DayNumber(yesterday.date)
  {
    FourDigitRange(yesterday.date);
    var floor := AddDays(yesterday, -(CATCHUP_DAYS - 1));
    AddDaysText(yesterday, -(CATCHUP_DAYS - 1));
    from := floor;
    if last.Some? {
      FourDigitRange(last.value.date);
      BeforeIffNumber(last.value.date, LastDay);
      AddDaysText(last.value, 1);
      from := AddDays(last.value, 1);
    }
    Compare(from, floor);
    Compare(floor, from);
    if After(floor, from) { from := floor; }
    Compare(from, yesterday);
    if After(from, yesterday) { from := yesterday; }
    to := yesterday;
  }

  /** The value of the loop variable of `windowDays` after `k` rounds. */
  function Nth(from: DateText, k: nat): (t: DateText)
    requires IsText(from)
    ensures IsText(t)
  {
    if k == 0 then from else AddDays(Nth(from, k - 1), 1)
  }

  lemma {:induction false} NthNumber(from: DateText, k: nat)
    requires IsText(from) && from.Full? && DayNumber(from.date) + k <= DayNumber(LastDay)
    ensures Nth(from, k).Full? && DayNumber(Nth(from, k).date) == DayNumber(from.date) + k
  {
    FourDigitRange(from.date);
    if k > 0 {
      NthNumber(from, k - 1);
      AddDaysText(Nth(from, k - 1), 1);
    }
  }

  /** A signed-year text is a fixed point: adding a day does not change the ten characters kept of it. */
  lemma {:induction false} ShortStays(from: DateText, k: nat)
    requires IsText(from) && from.Short?
    ensures Nth(from, k) == from
  {
    if k > 0 {
      ShortStays(from, k - 1);
      assert AddDaysTo(Parse(from), 1) == Tomorrow(AddDaysTo(Parse(from), 0));
    }
  }

  /** After some number of rounds the loop variable has passed the end. */
  ghost predicate Ends(from: DateText, to: DateText)
    requires IsText(from) && IsText(to)
  {
    exists k: nat :: Passed(from, to, k)
  }

  predicate Passed(from: DateText, to: DateText, k: nat)
    requires IsText(from) && IsText(to)
  {
    After(Nth(from, k), to)
  }

  lemma NeverAfterLastDay(t: DateText)
    requires IsText(t)
    ensures !After(t, Full(LastDay))
  {
    Compare(t, Full(LastDay));
    if t.Full? { FourDigitRange(t.date); }
  }

  lemma ReachesEnd(from: DateText, to: DateText)
    requires IsText(from) && IsText(to) && from.Full? && to.Full? && to.date != LastDay && !After(from, to)
    ensures Ends(from, to)
  {
    Compare(from, to);
    FourDigitRange(to.date);
    BeforeIffNumber(to.date, LastDay);
    var k := DayNumber(to.date) - DayNumber(from.date) + 1;
    NthNumber(from, k);
    Compare(Nth(from, k), to);
    assert Passed(from, to, k);
  }

  /**
   * The loop of `windowDays` ends exactly when it never starts, or runs over four-digit dates short of the last one.
   */
  lemma WindowEnds(from: DateText, to: DateText)
    requires IsText(from) && IsText(to) && to.Full?
    ensures Ends(from, to) <==> After(from, to) || (from.Full? && to.date != LastDay)
  {
    if After(from, to) {
      assert Passed(from, to, 0);
    } else if from.Short? {
      forall k: nat ensures !Passed(from, to, k) { ShortStays(from, k); }
    } else if to.date == LastDay {
      forall k: nat ensures !Passed(from, to, k) { NeverAfterLastDay(Nth(from, k)); }
    } else {
      ReachesEnd(from, to);
    }
  }

  /** A window of the single day 9999-12-31 is one whose loop never ends. */
  lemma LastDayNeverEnds()
    ensures !Ends(Full(LastDay), Full(LastDay))
    ensures AddDays(Full(LastDay), 1) == Short(10000, 1) && Parse(Short(10000, 1)) == Date(10000, 1, 1)
  {
    WindowEnds(Full(LastDay), Full(LastDay));
    NeverAfterLastDay(Full(LastDay));
    DayAfterLast();
  }

  lemma DayAfterLast()
    ensures AddDaysTo(LastDay, 1) == Date(10000, 1, 1)
  {
    assert AddDaysTo(LastDay, 1) == Tomorrow(AddDaysTo(LastDay, 0));
  }

  /** `windowDays`, where it ends: every day from the first to the last, once and in order. */
  method WindowDays(from: DateText, to: DateText) returns (out: seq<DateText>)
    requires IsText(from) && IsText(to) && to.Full?
    requires After(from, to) || (from.Full? && to.date != LastDay)
    ensures After(from, to) ==> out == []
    ensures !After(from, to) ==>
              && |out| == DayNumber(to.date) - DayNumber(from.date) + 1
              && forall i :: 0 <= i < |out| ==>
                   IsText(out[i]) && out[i].Full? && DayNumber(out[i].date) == DayNumber(from.date) + i
  {
    out := [];
    var d := from;
    Compare(from, to);
    if from.Full? { FourDigitRange(from.date); }
    FourDigitRange(to.date);
    BeforeIffNumber(to.date, LastDay);
    while !After(d, to)
      invariant IsText(d) && (After(from, to) ==> d == from && out == [])
      invariant !After(from, to) ==>
                  && from.Full? && d.Full?
                  && DayNumber(d.date) == DayNumber(from.date) + |out| <= DayNumber(to.date) + 1
                  && forall i :: 0 <= i < |out| ==>
                       IsText(out[i]) && out[i].Full? && DayNumber(out[i].date) == DayNumber(from.date) + i
      decreases DayNumber(to.date) + 1 - DayNumber(Parse(d))
    {
      Compare(d, to);
      AddDaysText(d, 1);
      out := out + [d];
      d := AddDays(d, 1);
    }
    Compare(d, to);
  }
}
