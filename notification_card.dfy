/**
 * One notification card: the relative "how long ago" label and the action
 * buttons it offers.
 *
 * The creation time is a millisecond instant and "now" is a parameter;
 * dates older than a week are rendered by the locale, which is not
 * modelled (None).
 */
module NotificationCard {
  import opened Wrappers
  import opened Strings
  import G = NotificationGenerator

  const HourMs: int := 3600000
  const DayMs: int := 86400000

  const FewMinutes: string := "Hace unos minutos"
  const Yesterday: string := "Ayer"

  /** "Hace N hora" or "Hace N horas", plural above one. */
  function HoursAgo(n: int): string
  {
    "Hace " + IntToString(n) + " hora" + (if n > 1 then "s" else "")
  }

  function DaysAgo(n: int): string
  {
    "Hace " + IntToString(n) + " días"
  }

  /**
   * formatRelativeDate: whole hours elapsed (floored) under a day, "Ayer"
   * for the second day, whole days under a week, and the locale date after.
   * A creation time in the future reads as a few minutes ago.
   */
  function RelativeDate(createdAt: int, now: int): (r: Option<string>)
    ensures now - createdAt < HourMs <==> r == Some(FewMinutes)
    ensures HourMs <= now - createdAt < DayMs ==>
      var n := (now - createdAt) / HourMs;
      1 <= n <= 23 && n * HourMs <= now - createdAt < (n + 1) * HourMs && r == Some(HoursAgo(n))
    ensures DayMs <= now - createdAt < 2 * DayMs <==> r == Some(Yesterday)
    ensures 2 * DayMs <= now - createdAt < 7 * DayMs ==>
      var n := (now - createdAt) / DayMs;
      2 <= n <= 6 && n * DayMs <= now - createdAt < (n + 1) * DayMs && r == Some(DaysAgo(n))
    ensures r.None? <==> now - createdAt >= 7 * DayMs
  {
    var hours := (now - createdAt) / HourMs;
    if hours < 1 then Some(FewMinutes)
    else if hours < 24 then
      assert HoursAgo(hours)[5] == IntToString(hours)[0] != FewMinutes[5];
      Some(HoursAgo(hours))
    else
      var days := hours / 24;
      if days == 1 then Some(Yesterday)
      else if days < 7 then
        assert DaysAgo(days)[5] == IntToString(days)[0] != FewMinutes[5];
        Some(DaysAgo(days))
      else None
  }

  /** A label in hours never reads "1 horas": the plural starts at two. */
  lemma HoursAgoAgreement(n: int)
    requires n >= 1
    ensures HoursAgo(n)[|HoursAgo(n)| - 1] == 's' <==> n > 1
  {
  }

  // ---------- the buttons ----------

  /** What a button calls back with. */
  datatype CardAction = MarkRead(id: string) | MarkCompleted(activityId: string) | Dismiss(id: string)

  predicate Completable(n: G.Notice)
  {
    n.kind == G.Reminder || n.kind == G.Upcoming
  }

  /**
   * The card's buttons in page order: "Marcar como leída" while unread,
   * "Marcar como completada" for reminders and upcoming activities, then
   * "Descartar" and the close cross, both dismissing.
   */
  function Actions(n: G.Notice): (r: seq<CardAction>)
    ensures MarkRead(n.id) in r <==> !n.isRead
    ensures forall a :: a in r && a.MarkRead? ==> a.id == n.id
    ensures MarkCompleted(n.activityId) in r <==> Completable(n)
    ensures forall a :: a in r && a.MarkCompleted? ==> a.activityId == n.activityId
    ensures forall a :: a in r && a.Dismiss? ==> a.id == n.id
    ensures |r| >= 2 && r[|r| - 2] == Dismiss(n.id) && r[|r| - 1] == Dismiss(n.id)
  {
    (if !n.isRead then [MarkRead(n.id)] else []) +
    (if Completable(n) then [MarkCompleted(n.activityId)] else []) +
    [Dismiss(n.id), Dismiss(n.id)]
  }

  /** Once read, a card no longer offers to mark it read, and its other buttons stay. */
  lemma ReadCardDropsMarkRead(n: G.Notice)
    requires !n.isRead
    ensures Actions(n) == [MarkRead(n.id)] + Actions(n.(isRead := true))
  {
  }

  /** Overdue and completed activities cannot be completed from their card. */
  lemma GeneratedNoticeCompletable(a: G.ActivityStatus, now: int)
    requires G.NoticeFor(a, now).Some?
    ensures Completable(G.NoticeFor(a, now).value) <==> a.status.Pending?
  {
  }
}
