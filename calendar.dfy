/** Calendar dates without time of day (proleptic Gregorian, leap years
    included), the day arithmetic of JavaScript's `Date` (`new Date(y, m, d)`
    normalises an out-of-range month or day, `setDate` moves within the same
    machinery), and the date ranges the preset keys stand for. */
module Calendar {

  /** `month` is 1..12 here; JavaScript's `getMonth()` is `month - 1`. */
  datatype Date = Date(year: int, month: int, day: int)

  predicate LeapYear(y: int)
  {
    y % 4 == 0 && (y % 100 != 0 || y % 400 == 0)
  }

  function DaysInMonth(y: int, m: int): (n: int)
    requires 1 <= m <= 12
    ensures 28 <= n <= 31
  {
    if m == 2 then (if LeapYear(y) then 29 else 28)
    else if m == 4 || m == 6 || m == 9 || m == 11 then 30
    else 31
  }

  predicate Valid(d: Date)
  {
    1 <= d.month <= 12 && 1 <= d.day <= DaysInMonth(d.year, d.month)
  }

  /** Strictly earlier in the calendar. */
  predicate Before(a: Date, b: Date)
  {
    a.year < b.year
    || (a.year == b.year && a.month < b.month)
    || (a.year == b.year && a.month == b.month && a.day < b.day)
  }

  predicate NotAfter(a: Date, b: Date)
  {
    a == b || Before(a, b)
  }

  lemma BeforeTransitive(a: Date, b: Date, c: Date)
    requires NotAfter(a, b) && NotAfter(b, c)
    ensures NotAfter(a, c)
  {
  }

  function NextDay(d: Date): (r: Date)
    requires Valid(d)
    ensures Valid(r) && Before(d, r)
  {
    if d.day < DaysInMonth(d.year, d.month) then d.(day := d.day + 1)
    else if d.month < 12 then Date(d.year, d.month + 1, 1)
    else Date(d.year + 1, 1, 1)
  }

  function PrevDay(d: Date): (r: Date)
    requires Valid(d)
    ensures Valid(r) && Before(r, d)
  {
    if d.day > 1 then d.(day := d.day - 1)
    else if d.month > 1 then Date(d.year, d.month - 1, DaysInMonth(d.year, d.month - 1))
    else Date(d.year - 1, 12, 31)
  }

  /** The day before the day after, and the day after the day before, is the day itself. */
  lemma NextPrevInverse(d: Date)
    requires Valid(d)
    ensures PrevDay(NextDay(d)) == d
    ensures NextDay(PrevDay(d)) == d
  {
  }

  /** k days later (earlier when k is negative), one day at a time. */
  function AddDays(d: Date, k: int): (r: Date)
    requires Valid(d)
    ensures Valid(r)
    decreases if k >= 0 then k else -k
  {
    if k == 0 then d
    else if k > 0 then AddDays(NextDay(d), k - 1)
    else AddDays(PrevDay(d), k + 1)
  }

  lemma AddDaysNext(d: Date, k: int)
    requires Valid(d)
    ensures AddDays(NextDay(d), k) == AddDays(d, k + 1)
  {
    if k < 0 {
      NextPrevInverse(d);
    }
  }

  lemma AddDaysPrev(d: Date, k: int)
    requires Valid(d)
    ensures AddDays(PrevDay(d), k) == AddDays(d, k - 1)
  {
    if k > 0 {
      NextPrevInverse(d);
    }
  }

  /** Moving by a days and then by b days is moving by a + b days. */
  lemma {:induction false} AddDaysAdd(d: Date, a: int, b: int)
    requires Valid(d)
    ensures AddDays(AddDays(d, a), b) == AddDays(d, a + b)
    decreases if a >= 0 then a else -a
  {
    if a > 0 {
      AddDaysAdd(NextDay(d), a - 1, b);
      AddDaysNext(d, a - 1 + b);
    } else if a < 0 {
      AddDaysAdd(PrevDay(d), a + 1, b);
      AddDaysPrev(d, a + 1 + b);
    }
  }

  /** Moving forward never goes back in the calendar. */
  lemma {:induction false} AddDaysForward(d: Date, k: int)
    requires Valid(d) && k >= 0
    ensures NotAfter(d, AddDays(d, k))
    decreases k
  {
    if k > 0 {
      AddDaysForward(NextDay(d), k - 1);
      BeforeTransitive(d, NextDay(d), AddDays(d, k));
    }
  }

  /** Inside one month, moving forward j days only changes the day number. */
  lemma {:induction false} WithinMonth(y: int, m: int, a: int, j: nat)
    requires 1 <= m <= 12 && 1 <= a && a + j <= DaysInMonth(y, m)
    ensures AddDays(Date(y, m, a), j) == Date(y, m, a + j)
    decreases j
  {
    if j > 0 {
      WithinMonth(y, m, a + 1, j - 1);
    }
  }

  /** `new Date(y, m0, d)` with a 0-based month: the month is normalised into
      the year first, then day d counts from the first of that month, so that
      day 0 is the last day of the month before. */
  function MakeDate(y: int, m0: int, d: int): (r: Date)
    ensures Valid(r)
  {
    AddDays(Date(y + m0 / 12, m0 % 12 + 1, 1), d - 1)
  }

  /** `date.setDate(dd)`: the day dd of the date's own month, normalised. */
  function SetDate(date: Date, dd: int): Date
  {
    MakeDate(date.year, date.month - 1, dd)
  }

  /** `x.setDate(x.getDate() - k)` is the date k days earlier. */
  lemma SetDateShift(x: Date, k: int)
    requires Valid(x)
    ensures SetDate(x, x.day - k) == AddDays(x, -k)
  {
    var first := Date(x.year, x.month, 1);
    assert (x.month - 1) / 12 == 0 && (x.month - 1) % 12 + 1 == x.month;
    WithinMonth(x.year, x.month, 1, x.day - 1);
    AddDaysAdd(first, x.day - 1, -k);
  }

  /** `new Date(y, m0, 1)` for a month index in range is the first of that month. */
  lemma FirstOfMonth(y: int, m0: int)
    requires 0 <= m0 <= 11
    ensures MakeDate(y, m0, 1) == Date(y, m0 + 1, 1)
  {
  }

  /** `new Date(y, -1, 1)` is the first of December of the year before. */
  lemma FirstOfMonthBeforeJanuary(y: int)
    ensures MakeDate(y, -1, 1) == Date(y - 1, 12, 1)
  {
  }

  /** `new Date(y, m0 + 1, 0)` (day 0 of the next month) is the last day of
      month m0, also for December, whose next month is in the next year. */
  lemma DayZeroOfNextMonth(y: int, m0: int)
    requires 0 <= m0 <= 11
    ensures MakeDate(y, m0 + 1, 0) == Date(y, m0 + 1, DaysInMonth(y, m0 + 1))
  {
    if m0 == 11 {
      assert (m0 + 1) / 12 == 1 && (m0 + 1) % 12 + 1 == 1;
      var next := Date(y + 1, 1, 1);
      assert MakeDate(y, m0 + 1, 0) == AddDays(next, -1) == AddDays(PrevDay(next), 0);
    } else {
      assert (m0 + 1) / 12 == 0 && (m0 + 1) % 12 + 1 == m0 + 2;
      var next := Date(y, m0 + 2, 1);
      assert MakeDate(y, m0 + 1, 0) == AddDays(next, -1) == AddDays(PrevDay(next), 0);
    }
  }

  /** A date range as the screens hold it; Unset is the pair of empty strings. */
  datatype Range = Range(from: Date, to: Date) | Unset

  function FirstDay(y: int, m: int): Date
  {
    Date(y, m, 1)
  }

  function LastDay(y: int, m: int): Date
    requires 1 <= m <= 12
  {
    Date(y, m, DaysInMonth(y, m))
  }

  /** A window of n days that ends on `now`, both ends included. */
  function LastDays(now: Date, n: int): Range
    requires Valid(now) && n >= 1
  {
    Range(AddDays(now, -(n - 1)), now)
  }

  /** What each preset key means, independently of how a screen builds it. */
  function PresetRange(key: string, now: Date): Range
    requires Valid(now)
  {
    if key == "today" then Range(now, now)
    else if key == "yesterday" then Range(PrevDay(now), PrevDay(now))
    else if key == "last3" then LastDays(now, 3)
    else if key == "last7" then LastDays(now, 7)
    else if key == "last30" then LastDays(now, 30)
    else if key == "thisMonth" then Range(FirstDay(now.year, now.month), LastDay(now.year, now.month))
    else if key == "lastMonth" then
      (if now.month == 1 then Range(FirstDay(now.year - 1, 12), LastDay(now.year - 1, 12))
       else Range(FirstDay(now.year, now.month - 1), LastDay(now.year, now.month - 1)))
    else Unset
  }

  /** Every range a preset gives starts no later than it ends, and every
      window of the last n days spans exactly n days ending today. */
  lemma PresetRangeOrdered(key: string, now: Date)
    requires Valid(now)
    ensures PresetRange(key, now).Range? ==> NotAfter(PresetRange(key, now).from, PresetRange(key, now).to)
  {
    var n := if key == "last3" then 3 else if key == "last7" then 7 else 30;
    if key == "last3" || key == "last7" || key == "last30" {
      LastDaysSpan(now, n);
    }
  }

  /** The last-n window starts n - 1 days before `now`: n days, both ends included. */
  lemma LastDaysSpan(now: Date, n: int)
    requires Valid(now) && n >= 1
    ensures AddDays(LastDays(now, n).from, n - 1) == now
    ensures NotAfter(LastDays(now, n).from, now)
  {
    AddDaysAdd(now, -(n - 1), n - 1);
    AddDaysForward(AddDays(now, -(n - 1)), n - 1);
  }
}
