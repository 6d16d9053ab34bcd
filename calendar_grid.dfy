/**
 * The month grid: leading blank cells up to the weekday of the 1st, then
 * the days of the month; the "YYYY-MM-DD" key of a day; the activities of a
 * day and the dots drawn for them.
 *
 * The displayed month is given by its year and its month number 1..12
 * (Date.getMonth() + 1). Highlighting "today" reads the clock and is not
 * modelled.
 */
module CalendarGrid {
  import opened Wrappers
  import opened Strings
  import opened Seqs
  import Civil
  import opened CalendarTypes

  /** Blank cells before the 1st: its weekday, Sunday = 0. */
  function Offset(year: int, month: int): (n: nat)
    requires 1 <= month <= 12
    ensures n < 7
  {
    Civil.Weekday(year, month, 1)
  }

  /**
   * getDaysInMonth: `Offset` blank cells, then 1, 2, …, the month's last
   * day, pushed one by one.
   */
  method MonthCells(year: int, month: int) returns (days: seq<Option<nat>>)
    requires 1 <= month <= 12
    ensures |days| == Offset(year, month) + Civil.DaysInMonth(year, month)
    ensures forall i :: 0 <= i < Offset(year, month) ==> days[i].None?
    ensures forall j :: Offset(year, month) <= j < |days| ==> days[j] == Some(j - Offset(year, month) + 1)
  {
    var daysInMonth := Civil.DaysInMonth(year, month);
    var startingDayOfWeek := Offset(year, month);
    days := [];
    var i := 0;
    while i < startingDayOfWeek
      invariant 0 <= i <= startingDayOfWeek
      invariant |days| == i
      invariant forall j :: 0 <= j < i ==> days[j].None?
    {
      days := days + [None];
      i := i + 1;
    }
    var day := 1;
    while day <= daysInMonth
      invariant 1 <= day <= daysInMonth + 1
      invariant |days| == startingDayOfWeek + day - 1
      invariant forall j :: 0 <= j < startingDayOfWeek ==> days[j].None?
      invariant forall j :: startingDayOfWeek <= j < |days| ==> days[j] == Some(j - startingDayOfWeek + 1)
    {
      days := days + [Some(day)];
      day := day + 1;
    }
  }

  /** Day d sits in the grid column (0 = Sunday) of its own weekday, under the matching header. */
  lemma GridColumnIsWeekday(year: int, month: int, d: int)
    requires Civil.ValidDate(year, month, d)
    ensures (Offset(year, month) + d - 1) % 7 == Civil.Weekday(year, month, d)
    ensures WeekDays()[(Offset(year, month) + d - 1) % 7] == WeekDays()[Civil.Weekday(year, month, d)]
  {
    var n := Civil.DayNumber(year, month, 1);
    assert Civil.DayNumber(year, month, d) == n + d - 1;
    assert Offset(year, month) == n % 7;
    ShiftMod7(n, d - 1);
  }

  lemma ShiftMod7(n: int, k: int)
    ensures (n % 7 + k) % 7 == (n + k) % 7
  {
    var q, r := n / 7, n % 7;
    var q', r' := (r + k) / 7, (r + k) % 7;
    assert n + k == 7 * (q + q') + r';
  }

  /** formatDate: "<year>-<MM>-<DD>", month and day zero-padded to two digits. */
  function DateKey(year: int, month: nat, day: nat): (r: string)
    ensures 1000 <= year <= 9999 && Civil.ValidDate(year, month, day) ==> Civil.ParseDate(r) == Some((year, month, day))
  {
    var r := IntToString(year) + "-" + Pad2(month) + "-" + Pad2(day);
    if 1000 <= year <= 9999 && Civil.ValidDate(year, month, day) then
      DateKeyParses(year, month, day);
      r
    else r
  }

  lemma DateKeyParses(year: int, month: nat, day: nat)
    requires 1000 <= year <= 9999 && Civil.ValidDate(year, month, day)
    ensures Civil.ParseDate(IntToString(year) + "-" + Pad2(month) + "-" + Pad2(day)) == Some((year, month, day))
  {
    var y := NatToString(year);
    FourDigits(year);
    DigitsValueOfNatToString(year);
    var s := y + "-" + Pad2(month) + "-" + Pad2(day);
    assert s[0..4] == y;
    assert s[5..7] == Pad2(month);
    assert s[8..10] == Pad2(day);
  }

  /** A year from 1000 to 9999 prints with four digits. */
  lemma FourDigits(n: nat)
    requires 1000 <= n <= 9999
    ensures |NatToString(n)| == 4
  {
    assert |NatToString(n / 1000)| == 1;
    assert |NatToString(n / 100)| == 2;
    assert |NatToString(n / 10)| == 3;
  }

  /** getActivitiesForDate: the activities on that date, in list order. */
  function ActivitiesForDate(activities: seq<Activity>, date: string): (r: seq<Activity>)
    ensures forall a :: a in r <==> a in activities && a.date == date
    ensures |r| <= |activities|
  {
    Filter(activities, OnDate(date))
  }

  function OnDate(date: string): Activity -> bool
  {
    (a: Activity) => a.date == date
  }

  /** The dots of a day: the first three activities, and "+k" for the k others. */
  datatype DayDots = DayDots(dots: seq<Activity>, more: Option<nat>)

  function Dots(dayActivities: seq<Activity>): (r: DayDots)
    ensures |r.dots| <= 3 && |r.dots| <= |dayActivities|
    ensures forall k :: 0 <= k < |r.dots| ==> r.dots[k] == dayActivities[k]
    ensures r.more.Some? <==> |dayActivities| > 3
    ensures |r.dots| + (if r.more.Some? then r.more.value else 0) == |dayActivities|
  {
    var shown := TakeAtMost(dayActivities, 3);
    DayDots(shown, if |dayActivities| > 3 then Some(|dayActivities| - 3) else None)
  }
}
