/**
 * Proleptic Gregorian calendar arithmetic and the fixed "YYYY-MM-DD HH:MM:SS"
 * text form that Python's strptime("%Y-%m-%d %H:%M:%S") and isoformat() use.
 */
module Civil {
  import opened Wrappers
  import opened Strings

  predicate IsLeap(y: int)
  {
    y % 4 == 0 && (y % 100 != 0 || y % 400 == 0)
  }

  function DaysInMonth(y: int, m: int): (n: nat)
    requires 1 <= m <= 12
    ensures 28 <= n <= 31
  {
    if m == 2 then (if IsLeap(y) then 29 else 28)
    else if m == 4 || m == 6 || m == 9 || m == 11 then 30
    else 31
  }

  function DaysInYear(y: int): nat
  {
    if IsLeap(y) then 366 else 365
  }

  /** Days in the years before y, counting from 0001-01-01. */
  function DaysBeforeYear(y: int): int
  {
    365 * (y - 1) + (y - 1) / 4 - (y - 1) / 100 + (y - 1) / 400
  }

  /** Days in the months of year y before month m. */
  function DaysBeforeMonth(y: int, m: int): nat
    requires 1 <= m <= 13
  {
    if m == 1 then 0 else DaysBeforeMonth(y, m - 1) + DaysInMonth(y, m - 1)
  }

  predicate ValidDate(y: int, m: int, d: int)
  {
    1 <= m <= 12 && 1 <= d <= DaysInMonth(y, m)
  }

  /** Day number: 0001-01-01 is day 1 (a Monday); consecutive dates get consecutive numbers. */
  function DayNumber(y: int, m: int, d: int): int
    requires 1 <= m <= 12
  {
    DaysBeforeYear(y) + DaysBeforeMonth(y, m) + d
  }

  /** Date.getDay(): 0 = Sunday … 6 = Saturday. */
  function Weekday(y: int, m: int, d: int): (w: nat)
    requires 1 <= m <= 12
    ensures w < 7
  {
    DayNumber(y, m, d) % 7
  }

  lemma {:induction false} YearLength(y: int)
    ensures DaysBeforeMonth(y, 13) == DaysInYear(y)
    ensures DaysBeforeYear(y + 1) == DaysBeforeYear(y) + DaysInYear(y)
  {
    var feb := DaysInMonth(y, 2);
    assert DaysBeforeMonth(y, 2) == 31;
    assert DaysBeforeMonth(y, 3) == 31 + feb;
    assert DaysBeforeMonth(y, 4) == 31 + feb + 31;
    assert DaysBeforeMonth(y, 5) == 31 + feb + 31 + 30;
    assert DaysBeforeMonth(y, 6) == 31 + feb + 31 + 30 + 31;
    assert DaysBeforeMonth(y, 7) == 31 + feb + 31 + 30 + 31 + 30;
    assert DaysBeforeMonth(y, 8) == 31 + feb + 31 + 30 + 31 + 30 + 31;
    assert DaysBeforeMonth(y, 9) == 31 + feb + 31 + 30 + 31 + 30 + 31 + 31;
    assert DaysBeforeMonth(y, 10) == 31 + feb + 31 + 30 + 31 + 30 + 31 + 31 + 30;
    assert DaysBeforeMonth(y, 11) == 31 + feb + 31 + 30 + 31 + 30 + 31 + 31 + 30 + 31;
    assert DaysBeforeMonth(y, 12) == 31 + feb + 31 + 30 + 31 + 30 + 31 + 31 + 30 + 31 + 30;
    assert DaysBeforeMonth(y, 13) == 31 + feb + 31 + 30 + 31 + 30 + 31 + 31 + 30 + 31 + 30 + 31;
    var q := y - 1;
    assert y / 4 == q / 4 + (if y % 4 == 0 then 1 else 0);
    assert y / 100 == q / 100 + (if y % 100 == 0 then 1 else 0);
    assert y / 400 == q / 400 + (if y % 400 == 0 then 1 else 0);
  }

  /** The first of the next month falls DaysInMonth days after the first of this month. */
  lemma NextMonthStart(y: int, m: int)
    requires 1 <= m <= 12
    ensures m < 12 ==> DayNumber(y, m + 1, 1) == DayNumber(y, m, 1) + DaysInMonth(y, m)
    ensures m == 12 ==> DayNumber(y + 1, 1, 1) == DayNumber(y, m, 1) + DaysInMonth(y, m)
  {
    if m == 12 { YearLength(y); }
  }

  /** The date after a valid date: the next day, the first of the next month, or New Year's Day. */
  function NextDate(y: int, m: int, d: int): (r: (int, int, int))
    requires ValidDate(y, m, d)
    ensures ValidDate(r.0, r.1, r.2)
  {
    if d < DaysInMonth(y, m) then (y, m, d + 1)
    else if m < 12 then (y, m + 1, 1)
    else (y + 1, 1, 1)
  }

  /** The date after a valid date gets the next day number. */
  lemma NextDateFollows(y: int, m: int, d: int)
    requires ValidDate(y, m, d)
    ensures var n := NextDate(y, m, d); DayNumber(n.0, n.1, n.2) == DayNumber(y, m, d) + 1
  {
    if d == DaysInMonth(y, m) {
      NextMonthStart(y, m);
    }
  }

  // ---------- date-times as seconds ----------

  datatype DateTime = DateTime(year: int, month: int, day: int, hour: int, minute: int, second: int)
  {
    predicate Valid()
    {
      1 <= year <= 9999 && ValidDate(year, month, day) &&
      0 <= hour < 24 && 0 <= minute < 60 && 0 <= second < 60
    }
  }

  /** Seconds on one monotone scale, so that datetime comparisons are integer comparisons. */
  function ToSeconds(t: DateTime): int
    requires t.Valid()
  {
    DayNumber(t.year, t.month, t.day) * 86400 + t.hour * 3600 + t.minute * 60 + t.second
  }

  function Pad4(n: nat): (r: string)
    requires n < 10000
    ensures |r| == 4 && (forall i :: 0 <= i < 4 ==> IsDigit(r[i])) && DigitsValue(r) == n
  {
    var hi, lo := Pad2(n / 100), Pad2(n % 100);
    DigitsValueConcat(hi, lo);
    hi + lo
  }

  predicate DigitsAt(s: string, lo: nat, hi: nat)
  {
    lo <= hi <= |s| && forall i :: lo <= i < hi ==> IsDigit(s[i])
  }

  function FieldValue(s: string, lo: nat, hi: nat): (v: nat)
    requires DigitsAt(s, lo, hi)
    ensures hi - lo == 4 ==> v < 10000
  {
    DigitsValueBound(s[lo..hi]);
    DigitsValue(s[lo..hi])
  }

  function Pow10(k: nat): (p: nat)
    ensures p >= 1
  {
    if k == 0 then 1 else 10 * Pow10(k - 1)
  }

  lemma MulAssoc(x: int, y: int, z: int)
    ensures (x * y) * z == x * (y * z)
  {
  }

  lemma {:induction false} DigitsValueConcat(a: string, b: string)
    requires forall i :: 0 <= i < |a| ==> IsDigit(a[i])
    requires forall i :: 0 <= i < |b| ==> IsDigit(b[i])
    ensures DigitsValue(a + b) == DigitsValue(a) * Pow10(|b|) + DigitsValue(b)
    ensures |b| == 2 ==> DigitsValue(a + b) == DigitsValue(a) * 100 + DigitsValue(b)
  {
    if b == [] {
      assert a + b == a;
    } else {
      var init, d := b[..|b| - 1], DigitValue(b[|b| - 1]);
      assert (a + b)[..|a + b| - 1] == a + init;
      assert (a + b)[|a + b| - 1] == b[|b| - 1];
      DigitsValueConcat(a, init);
      var x, p := DigitsValue(a), Pow10(|init|);
      calc {
        DigitsValue(a + b);
        DigitsValue(a + init) * 10 + d;
        (x * p + DigitsValue(init)) * 10 + d;
        { MulAssoc(x, p, 10); }
        x * (p * 10) + (DigitsValue(init) * 10 + d);
        x * Pow10(|b|) + DigitsValue(b);
      }
    }
    if |b| == 2 { assert Pow10(2) == 100; }
  }

  lemma {:induction false} DigitsValueBound(s: string)
    requires forall i :: 0 <= i < |s| ==> IsDigit(s[i])
    ensures DigitsValue(s) < Pow10(|s|)
    ensures |s| == 4 ==> DigitsValue(s) < 10000
  {
    if s != [] { DigitsValueBound(s[..|s| - 1]); }
    if |s| == 4 { assert Pow10(4) == 10000; }
  }

  /** Parses "YYYY-MM-DD": four, two and two digits; the date must exist. */
  function ParseDate(s: string): (r: Option<(int, int, int)>)
    ensures r.Some? ==> |s| == 10 && 1 <= r.value.0 <= 9999 && ValidDate(r.value.0, r.value.1, r.value.2)
  {
    if |s| == 10 && DigitsAt(s, 0, 4) && s[4] == '-' && DigitsAt(s, 5, 7) && s[7] == '-' && DigitsAt(s, 8, 10)
    then
      var y, m, d := FieldValue(s, 0, 4), FieldValue(s, 5, 7), FieldValue(s, 8, 10);
      if 1 <= y && ValidDate(y, m, d) then Some((y, m, d)) else None
    else None
  }

  /** Parses "HH:MM:SS" into seconds after midnight; HH < 24, MM < 60, SS < 60. */
  function ParseTime(s: string): (r: Option<(int, int, int)>)
    ensures r.Some? ==> |s| == 8 && 0 <= r.value.0 < 24 && 0 <= r.value.1 < 60 && 0 <= r.value.2 < 60
  {
    if |s| == 8 && DigitsAt(s, 0, 2) && s[2] == ':' && DigitsAt(s, 3, 5) && s[5] == ':' && DigitsAt(s, 6, 8)
    then
      var h, mi, sec := FieldValue(s, 0, 2), FieldValue(s, 3, 5), FieldValue(s, 6, 8);
      if h < 24 && mi < 60 && sec < 60 then Some((h, mi, sec)) else None
    else None
  }

  /**
   * strptime(text, "%Y-%m-%d %H:%M:%S") with two-digit fields: None where Python raises
   * ValueError.
   */
  function ParseDateTime(s: string): (r: Option<DateTime>)
    ensures r.Some? ==> r.value.Valid() && |s| == 19
  {
    if |s| == 19 && s[10] == ' ' then
      match (ParseDate(s[..10]), ParseTime(s[11..]))
      case (Some(dt), Some(tm)) => Some(DateTime(dt.0, dt.1, dt.2, tm.0, tm.1, tm.2))
      case _ => None
    else None
  }

  /** The instant a "%Y-%m-%d %H:%M:%S" text denotes, in seconds; None where strptime raises. */
  function InstantOf(s: string): (t: Option<int>)
    ensures t.Some? <==> ParseDateTime(s).Some?
  {
    match ParseDateTime(s)
    case Some(dt) => Some(ToSeconds(dt))
    case None => None
  }

  function FormatDate(y: nat, m: nat, d: nat): string
    requires y < 10000
  {
    Pad4(y) + "-" + Pad2(m) + "-" + Pad2(d)
  }

  function FormatTime(h: nat, mi: nat, sec: nat): string
  {
    Pad2(h) + ":" + Pad2(mi) + ":" + Pad2(sec)
  }

  /** Python's str(datetime) / isoformat(" ") for a valid date-time. */
  function FormatDateTime(t: DateTime): string
    requires t.Valid()
  {
    FormatDate(t.year, t.month, t.day) + " " + FormatTime(t.hour, t.minute, t.second)
  }

  lemma {:induction false} ParseFormatDate(y: nat, m: nat, d: nat)
    requires 1 <= y <= 9999 && ValidDate(y, m, d)
    ensures ParseDate(FormatDate(y, m, d)) == Some((y, m, d))
  {
    var s := FormatDate(y, m, d);
    assert s[0..4] == Pad4(y);
    assert s[5..7] == Pad2(m);
    assert s[8..10] == Pad2(d);
  }

  lemma {:induction false} ParseFormatTime(h: nat, mi: nat, sec: nat)
    requires h < 24 && mi < 60 && sec < 60
    ensures ParseTime(FormatTime(h, mi, sec)) == Some((h, mi, sec))
  {
    var s := FormatTime(h, mi, sec);
    assert s[0..2] == Pad2(h);
    assert s[3..5] == Pad2(mi);
    assert s[6..8] == Pad2(sec);
  }

  /** Formatting a valid date-time and parsing it back gives the same date-time. */
  lemma {:induction false} ParseFormatDateTime(t: DateTime)
    requires t.Valid()
    ensures ParseDateTime(FormatDateTime(t)) == Some(t)
  {
    var s := FormatDateTime(t);
    var ds, ts := FormatDate(t.year, t.month, t.day), FormatTime(t.hour, t.minute, t.second);
    assert s[..10] == ds && s[11..] == ts;
    ParseFormatDate(t.year, t.month, t.day);
    ParseFormatTime(t.hour, t.minute, t.second);
  }

  /** A time without seconds never parses: strptime needs all three fields. */
  lemma ShortTimeNeverParses(date: string, hhmm: string)
    requires |hhmm| == 5
    ensures ParseDateTime(date + " " + hhmm) == None
  {
    var s := date + " " + hhmm;
    if |s| == 19 {
      assert |s[11..]| == 8 - 3 + 3 && |date| == 13;
      assert s[10] == date[10];
    }
  }
}
