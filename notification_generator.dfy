/**
 * The notifications derived on the client from the calendar activities:
 * at most one per activity (overdue, completed, or a reminder for the next
 * two days), sorted newest first.
 *
 * The activity's date and time are given as a millisecond instant
 * (`dueAt`), and "now" is a parameter; ISO rendering is not modelled.
 */
module NotificationGenerator {
  import opened Wrappers
  import opened Strings
  import opened Seqs

  datatype Kind = Reminder | Overdue | Completed | Upcoming

  /** A client-side notification. */
  datatype Notice = Notice(
    id: string,
    title: string,
    message: string,
    kind: Kind,
    activityId: string,
    activityTitle: string,
    date: string,
    time: string,
    location: Option<string>,
    isRead: bool,
    createdAt: int,
    dueDate: string)

  datatype Status = Completed | Pending | Overdue

  /** An activity with its computed status and the whole days until it is due. */
  datatype ActivityStatus = ActivityStatus(
    id: string,
    title: string,
    date: string,
    time: string,
    location: Option<string>,
    status: Status,
    daysUntilDue: int,
    dueAt: int)

  const MinuteMs: int := 60000

  /** "hoy", "mañana" or "N días". */
  function DueIn(days: int): (r: string)
    ensures days == 0 ==> r == "hoy"
    ensures days == 1 ==> r == "mañana"
    ensures days != 0 && days != 1 ==> r == IntToString(days) + " días"
  {
    if days == 0 then "hoy" else if days == 1 then "mañana" else IntToString(days) + " días"
  }

  /** The notification an activity yields, if any: overdue first, then completed, then a near reminder. */
  function NoticeFor(a: ActivityStatus, now: int): (r: Option<Notice>)
    ensures r.None? <==> a.status.Pending? && a.daysUntilDue > 2
    ensures r.Some? ==> r.value.activityId == a.id && r.value.activityTitle == a.title && !r.value.isRead &&
                        r.value.date == a.date && r.value.time == a.time && r.value.location == a.location &&
                        r.value.dueDate == a.date
    ensures a.status.Overdue? ==>
      r.Some? && r.value.kind == Kind.Overdue && r.value.id == "overdue-" + a.id && r.value.createdAt == a.dueAt + MinuteMs
    ensures a.status.Completed? ==>
      r.Some? && r.value.kind == Kind.Completed && r.value.id == "completed-" + a.id && r.value.createdAt == now
    ensures a.status.Pending? && a.daysUntilDue <= 2 ==>
      r.Some? && r.value.kind == (if a.daysUntilDue == 0 then Upcoming else Reminder) &&
      r.value.id == "reminder-" + a.id && r.value.message == a.title + " es en " + DueIn(a.daysUntilDue) &&
      r.value.createdAt == now
  {
    if a.status.Overdue? then
      Some(Notice("overdue-" + a.id, "Actividad Vencida", a.title + " ya ha pasado su fecha límite", Kind.Overdue,
                  a.id, a.title, a.date, a.time, a.location, false, a.dueAt + MinuteMs, a.date))
    else if a.status.Completed? then
      Some(Notice("completed-" + a.id, "Actividad Completada", "Has completado exitosamente: " + a.title, Kind.Completed,
                  a.id, a.title, a.date, a.time, a.location, false, now, a.date))
    else if a.daysUntilDue <= 2 then
        Some(Notice("reminder-" + a.id, "Recordatorio Próximo", a.title + " es en " + DueIn(a.daysUntilDue),
                    if a.daysUntilDue == 0 then Upcoming else Reminder,
                    a.id, a.title, a.date, a.time, a.location, false, now, a.date))
      else None
  }

  /** The notifications pushed for the activities, in activity order. */
  function Pushed(activities: seq<ActivityStatus>, now: int): seq<Notice>
  {
    if activities == [] then []
    else
      var last := NoticeFor(activities[|activities| - 1], now);
      Pushed(activities[..|activities| - 1], now) + (if last.Some? then [last.value] else [])
  }

  /** At most one notification per activity, each one the notification of some listed activity. */
  lemma {:induction false} PushedOnePerActivity(activities: seq<ActivityStatus>, now: int)
    ensures |Pushed(activities, now)| <= |activities|
    ensures forall n :: n in Pushed(activities, now) ==> exists a :: a in activities && NoticeFor(a, now) == Some(n)
  {
    if activities != [] {
      var init := activities[..|activities| - 1];
      PushedOnePerActivity(init, now);
      forall n | n in Pushed(activities, now)
        ensures exists a :: a in activities && NoticeFor(a, now) == Some(n)
      {
        if n in Pushed(init, now) {
          var a :| a in init && NoticeFor(a, now) == Some(n);
          assert a in activities;
        } else {
          assert activities[|activities| - 1] in activities;
        }
      }
    }
  }

  /** Every activity that yields a notification has it pushed. */
  lemma {:induction false} PushedCoversActivities(activities: seq<ActivityStatus>, now: int, k: nat)
    requires k < |activities| && NoticeFor(activities[k], now).Some?
    ensures NoticeFor(activities[k], now).value in Pushed(activities, now)
  {
    var init := activities[..|activities| - 1];
    if k < |activities| - 1 {
      assert activities[k] == init[k];
      PushedCoversActivities(init, now, k);
    }
  }

  /** Newer first: `b.createdAt - a.createdAt` as the comparator. */
  function NewerFirst(): (Notice, Notice) -> bool
  {
    (a: Notice, b: Notice) => a.createdAt >= b.createdAt
  }

  lemma NewerFirstIsTotalPreorder()
    ensures TotalPreorder(NewerFirst())
  {
  }

  /**
   * generateNotifications: push each activity's notification in a loop,
   * then sort newest first (a stable sort).
   */
  method GenerateNotifications(activities: seq<ActivityStatus>, now: int) returns (r: seq<Notice>)
    ensures TotalPreorder(NewerFirst()) && r == SortBy(Pushed(activities, now), NewerFirst())
    ensures SortedBy(r, NewerFirst())
    ensures multiset(r) == multiset(Pushed(activities, now))
  {
    var notices: seq<Notice> := [];
    for i := 0 to |activities|
      invariant notices == Pushed(activities[..i], now)
    {
      assert activities[..i + 1][..i] == activities[..i];
      var n := NoticeFor(activities[i], now);
      if n.Some? {
        notices := notices + [n.value];
      }
    }
    assert activities[..|activities|] == activities;
    NewerFirstIsTotalPreorder();
    r := SortBy(notices, NewerFirst());
  }

  /** An overdue activity's notification is stamped one minute after the activity's time. */
  lemma OverdueNoticeStamp(activities: seq<ActivityStatus>, now: int, k: nat)
    requires k < |activities| && activities[k].status.Overdue?
    ensures exists n :: n in Pushed(activities, now) && n.id == "overdue-" + activities[k].id &&
                        n.createdAt == activities[k].dueAt + MinuteMs
  {
    PushedCoversActivities(activities, now, k);
  }
}
