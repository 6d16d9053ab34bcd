/**
 * A card of the conversation history: how the last update is shown, by
 * whole days elapsed.
 *
 * Times are milliseconds and "now" is a parameter. The locale renderings
 * (time of day, dd/mm/yy date) are named, not produced.
 */
module ConversationCard {
  import opened Strings

  const DayMs: int := 86400000

  datatype DateLabel =
    | TimeOfDay             // toLocaleTimeString with hour and minute
    | Yesterday             // "Ayer"
    | DaysAgo(days: int)    // "Hace N días"
    | ShortDate             // toLocaleDateString as dd/mm/yy

  /** formatDate: `floor(elapsed / one day)` picks the bucket. */
  function FormatDate(updatedAt: int, now: int): (r: DateLabel)
    ensures 0 <= now - updatedAt < DayMs <==> r == TimeOfDay
    ensures DayMs <= now - updatedAt < 2 * DayMs <==> r == Yesterday
    ensures r.DaysAgo? ==> r.days * DayMs <= now - updatedAt < (r.days + 1) * DayMs
    ensures 2 * DayMs <= now - updatedAt < 7 * DayMs ==> r.DaysAgo? && 2 <= r.days <= 6
    ensures r == ShortDate <==> now - updatedAt >= 7 * DayMs
  {
    var days := (now - updatedAt) / DayMs;
    if days == 0 then TimeOfDay
    else if days == 1 then Yesterday
    else if days < 7 then DaysAgo(days)
    else ShortDate
  }

  /** A conversation updated in the future (a clock ahead of this one) reads "Hace -N días". */
  lemma FutureUpdateReadsNegative(updatedAt: int, now: int)
    requires updatedAt > now
    ensures FormatDate(updatedAt, now).DaysAgo? && FormatDate(updatedAt, now).days < 0
  {
  }

  /** The text of a day count: "Hace ", the count, " días". */
  function DaysAgoText(days: int): (r: string)
    ensures StartsWith(r, "Hace " + IntToString(days))
    ensures |r| >= 11 && r[|r| - 5..] == " días"
  {
    "Hace " + IntToString(days) + " días"
  }

  /** Different day counts give different texts. */
  lemma DaysAgoTextInjective(a: int, b: int)
    requires DaysAgoText(a) == DaysAgoText(b)
    ensures a == b
  {
    var r := DaysAgoText(a);
    assert IntToString(a) == r[5..|r| - 5] == IntToString(b);
    IntToStringInjective(a, b);
  }

  /** The card links to the conversation's own page. */
  function Href(id: string): (r: string)
    ensures StartsWith(r, "/chat/") && r[6..] == id
  {
    "/chat/" + id
  }
}
