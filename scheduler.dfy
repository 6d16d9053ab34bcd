/**
 * One tick of the reminder scheduler (`ReminderScheduler.check_and_send_reminders`): select the
 * activities due in exactly 24 hours, drop those already reminded or without a reachable owner,
 * mail the rest and record each successful mail in the notifications ledger.
 *
 * Time is in seconds on the scale of `Civil.ToSeconds`. The clock, the date formatting of a
 * timestamp (`strftime("%Y-%m-%d")`), the `get_user_email` directory and the mailer are
 * parameters.
 */
module Scheduler {
  import opened Wrappers
  import opened Strings
  import opened Seqs
  import opened Civil
  import opened ActivityTables

  const Day: int := 86400
  const Minute: int := 60

  // ---------- the time window ----------

  /** `now.replace(second=0, microsecond=0)`. */
  function MinuteStart(now: int): (t: int)
    ensures t <= now < t + Minute && t % Minute == 0
  {
    now - now % Minute
  }

  function WindowStart(now: int): int { MinuteStart(now) + Day }
  function WindowEnd(now: int): int { MinuteStart(now) + Day + Minute }

  /** `start_time <= activity_datetime < end_time`. */
  predicate InWindow(now: int, x: int)
  {
    WindowStart(now) <= x < WindowEnd(now)
  }

  /** The window is the minute that starts exactly 24 hours after the tick's minute. */
  lemma TickWindowIsMinuteAhead(now: int, x: int)
    ensures InWindow(now, x) <==> MinuteStart(x - Day) == MinuteStart(now)
  {
    var m := MinuteStart(now);
    var y := x - Day;
    var q := m / Minute;
    assert m == Minute * q;
    if InWindow(now, x) {
      assert 0 <= y - m < Minute;
      assert y % Minute == y - m;
    }
  }

  /** One tick's window ends exactly where the next minute's tick's window starts. */
  lemma ConsecutiveWindowsMeet(now: int)
    ensures WindowEnd(now) == WindowStart(now + Minute)
  {
    assert (now + Minute) % Minute == now % Minute;
  }

  /**
   * Ticks fired once per minute tile time: every instant lies in the window of exactly one
   * minute's tick (no gap), and two ticks in different minutes never share an instant
   * (no overlap).
   */
  lemma TicksTileTime(x: int)
    ensures InWindow(x - Day, x)
    ensures forall t1, t2 :: InWindow(t1, x) && InWindow(t2, x) ==> MinuteStart(t1) == MinuteStart(t2)
  {
    TickWindowIsMinuteAhead(x - Day, x);
    forall t1, t2 | InWindow(t1, x) && InWindow(t2, x)
      ensures MinuteStart(t1) == MinuteStart(t2)
    {
      TickWindowIsMinuteAhead(t1, x);
      TickWindowIsMinuteAhead(t2, x);
    }
  }

  // ---------- selecting the activities in the window ----------

  /**
   * The query's date filter: `date >= today`, then `date == start_date` when the window lies
   * within one day, else `start_date <= date <= end_date`, all as text comparisons.
   */
  predicate DateQuery(date: string, today: string, startDate: string, endDate: string)
  {
    LexLe(today, date) &&
    if startDate == endDate then date == startDate
    else LexLe(startDate, date) && LexLe(date, endDate)
  }

  /** strptime of `"{date} {time}"` with "%Y-%m-%d %H:%M:%S", in seconds; None where it raises. */
  function ActivityInstant(a: Activity): Option<int>
  {
    InstantOf(a.date + " " + a.time)
  }

  /** Whether the tick at `now` picks the activity row (query filters, then the exact window). */
  predicate Due(a: Activity, now: int, dateOf: int -> string)
  {
    !a.isCompleted &&
    DateQuery(a.date, dateOf(now), dateOf(WindowStart(now)), dateOf(WindowEnd(now))) &&
    match ActivityInstant(a)
    case Some(t) => InWindow(now, t)
    case None => false
  }

  function DueAt(now: int, dateOf: int -> string): Activity -> bool
  {
    a => Due(a, now, dateOf)
  }

  /** `_get_activities_in_window`, first half: the query, then the per-row window test. */
  method ActivitiesInWindow(rows: seq<Activity>, now: int, dateOf: int -> string) returns (due: seq<Activity>)
    ensures due == Filter(rows, DueAt(now, dateOf))
    ensures forall k :: 0 <= k < |due| ==>
      due[k] in rows && !due[k].isCompleted &&
      ActivityInstant(due[k]).Some? && InWindow(now, ActivityInstant(due[k]).value)
  {
    due := [];
    for i := 0 to |rows|
      invariant due == Filter(rows[..i], DueAt(now, dateOf))
    {
      FilterConcat(rows[..i], [rows[i]], DueAt(now, dateOf));
      assert rows[..i + 1] == rows[..i] + [rows[i]];
      if Due(rows[i], now, dateOf) {
        due := due + [rows[i]];
      }
    }
    assert rows[..|rows|] == rows;
  }

  /** A row whose date-time text does not parse is skipped, never reminded. */
  lemma UnparseableNeverDue(a: Activity, now: int, dateOf: int -> string)
    requires ActivityInstant(a).None?
    ensures !Due(a, now, dateOf)
  {
  }

  /** A time stored without seconds ("HH:MM") never parses, so such an activity is never due. */
  lemma ShortTimeNeverDue(a: Activity, now: int, dateOf: int -> string)
    requires |a.time| == 5
    ensures !Due(a, now, dateOf)
  {
    ShortTimeNeverParses(a.date, a.time);
  }

  /** A completed activity is never reminded. */
  lemma CompletedNeverDue(a: Activity, now: int, dateOf: int -> string)
    requires a.isCompleted
    ensures !Due(a, now, dateOf)
  {
  }

  // ---------- the ledger of reminders already mailed ----------

  /**
   * A ledger row that counts as "reminder already sent" for the activity: a "reminder" row
   * whose `email_sent` is true or absent.
   */
  predicate CountsAsSent(n: Notification, activityId: string)
  {
    n.activityId == Some(activityId) && n.kind == "reminder" && n.emailSent != Some(false)
  }

  predicate AlreadyReminded(ledger: seq<Notification>, activityId: string)
  {
    exists k :: 0 <= k < |ledger| && CountsAsSent(ledger[k], activityId)
  }

  /** `_has_reminder_been_sent`: scans the activity's reminder rows and stops at the first that counts. */
  method HasReminderBeenSent(ledger: seq<Notification>, activityId: string) returns (sent: bool)
    ensures sent <==> AlreadyReminded(ledger, activityId)
  {
    for i := 0 to |ledger|
      invariant forall k :: 0 <= k < i ==> !CountsAsSent(ledger[k], activityId)
    {
      var n := ledger[i];
      if n.activityId == Some(activityId) && n.kind == "reminder" {
        if n.emailSent.None? || n.emailSent.value {
          assert CountsAsSent(ledger[i], activityId);
          return true;
        }
      }
    }
    return false;
  }

  /** A reminder row without the `email_sent` key counts as sent, even though no mail is recorded. */
  lemma MissingFlagCountsAsSent(n: Notification, ledger: seq<Notification>)
    requires n.kind == "reminder" && n.activityId.Some? && n.emailSent.None?
    requires n in ledger
    ensures AlreadyReminded(ledger, n.activityId.value)
  {
    var k :| 0 <= k < |ledger| && ledger[k] == n;
    assert CountsAsSent(ledger[k], n.activityId.value);
  }

  // ---------- resolving the owner's address ----------

  /** The row `get_user_email` returns: "" stands for a null field. */
  datatype DirectoryRow = DirectoryRow(email: string, fullName: string)

  datatype Contact = Contact(email: string, name: string)

  /** `email.split("@")[0]`. */
  function LocalPart(email: string): (r: string)
    ensures '@' !in r && |r| <= |email| && email[..|r|] == r
    ensures |r| < |email| ==> email[|r|] == '@'
  {
    SplitHead(email, '@');
    Split(email, '@')[0]
  }

  /**
   * `_get_user_email`: no address without a row with a non-empty email; the name is the full
   * name, else the address's local part.
   */
  function UserContact(row: Option<DirectoryRow>): (c: Option<Contact>)
    ensures c.Some? <==> row.Some? && row.value.email != ""
    ensures c.Some? ==> c.value.email == row.value.email
    ensures c.Some? && row.value.fullName != "" ==> c.value.name == row.value.fullName
    ensures c.Some? && row.value.fullName == "" ==> c.value.name == LocalPart(row.value.email)
  {
    match row
    case None => None
    case Some(d) =>
      if d.email == "" then None
      else Some(Contact(d.email, if d.fullName != "" then d.fullName else LocalPart(d.email)))
  }

  /** An activity ready to be mailed, with the owner's address and name attached. */
  datatype Reminder = Reminder(activity: Activity, email: string, name: string)

  /** `_get_activities_in_window`, second half, for one row. */
  function ReminderFor(a: Activity, ledger: seq<Notification>, directory: string -> Option<DirectoryRow>): (r: Option<Reminder>)
    ensures r.Some? <==>
      (!AlreadyReminded(ledger, a.id) && a.userId != "" && UserContact(directory(a.userId)).Some?)
    ensures r.Some? ==> r.value.activity == a && r.value.email != ""
  {
    if AlreadyReminded(ledger, a.id) || a.userId == "" then None
    else
      match UserContact(directory(a.userId))
      case None => None
      case Some(c) => Some(Reminder(a, c.email, c.name))
  }

  /** The reminders built from the due rows, in order. */
  function Recipients(due: seq<Activity>, ledger: seq<Notification>, directory: string -> Option<DirectoryRow>): (rs: seq<Reminder>)
    ensures |rs| <= |due|
    ensures forall k :: 0 <= k < |rs| ==> rs[k].activity in due && ReminderFor(rs[k].activity, ledger, directory) == Some(rs[k])
    ensures forall a :: a in due && ReminderFor(a, ledger, directory).Some? ==> ReminderFor(a, ledger, directory).value in rs
  {
    if due == [] then []
    else
      var init := due[..|due| - 1];
      var a := due[|due| - 1];
      var rs := Recipients(init, ledger, directory);
      assert forall x :: x in due ==> x in init || x == a;
      match ReminderFor(a, ledger, directory)
      case None => rs
      case Some(r) => rs + [r]
  }

  /** `_get_activities_in_window`, second half: each due row is kept with its owner's contact. */
  method AttachOwners(due: seq<Activity>, ledger: seq<Notification>, directory: string -> Option<DirectoryRow>)
    returns (rs: seq<Reminder>)
    ensures rs == Recipients(due, ledger, directory)
  {
    rs := [];
    for i := 0 to |due|
      invariant rs == Recipients(due[..i], ledger, directory)
    {
      assert due[..i + 1][..i] == due[..i];
      var a := due[i];
      var sent := HasReminderBeenSent(ledger, a.id);
      if sent {
        continue;
      }
      if a.userId != "" {
        var contact := UserContact(directory(a.userId));
        if contact.Some? {
          rs := rs + [Reminder(a, contact.value.email, contact.value.name)];
        }
      }
    }
    assert due[..|due|] == due;
  }

  /** Rows already reminded are dropped before any mail is sent. */
  lemma RemindedNeverRecipient(due: seq<Activity>, ledger: seq<Notification>, directory: string -> Option<DirectoryRow>, a: Activity)
    requires AlreadyReminded(ledger, a.id)
    ensures forall k :: 0 <= k < |Recipients(due, ledger, directory)| ==>
      Recipients(due, ledger, directory)[k].activity.id != a.id
  {
  }

  // ---------- mailing and the ledger write ----------

  const ReminderTitle := "Recordatorio de Actividad"

  /** The notification fields written for a mailed reminder; `id` and `created_at` are kept. */
  function ReminderRow(id: string, createdAt: int, r: Reminder, now: int): (n: Notification)
    ensures CountsAsSent(n, r.activity.id) && !n.isRead && !n.isDismissed
  {
    Notification(
      id, r.activity.userId, Some(r.activity.id), "reminder", ReminderTitle,
      "Tienes la actividad '" + r.activity.title + "' mañana",
      r.activity.title, r.activity.date, r.activity.time, r.activity.location,
      false, false, Some(true), Some(now), createdAt)
  }

  /** The first ("activity_id", "reminder") row, as `existing.data[0]`. */
  function FirstReminderRow(ledger: seq<Notification>, activityId: string): (k: Option<nat>)
    ensures k.Some? ==> k.value < |ledger| && ledger[k.value].activityId == Some(activityId) &&
                        ledger[k.value].kind == "reminder"
    ensures k.None? ==> forall j :: 0 <= j < |ledger| ==>
                          !(ledger[j].activityId == Some(activityId) && ledger[j].kind == "reminder")
  {
    if ledger == [] then None
    else if ledger[0].activityId == Some(activityId) && ledger[0].kind == "reminder" then Some(0)
    else
      var k := FirstReminderRow(ledger[1..], activityId);
      if k.Some? then Some(k.value + 1) else None
  }

  function Rewrite(id: string, r: Reminder, now: int): Notification -> Notification
  {
    (n: Notification) => if n.id == id then ReminderRow(n.id, n.createdAt, r, now) else n
  }

  /** `_create_or_update_notification`: update the first reminder row by id, else insert one. */
  function Upsert(ledger: seq<Notification>, r: Reminder, now: int): seq<Notification>
  {
    match FirstReminderRow(ledger, r.activity.id)
    case Some(k) => Map(ledger, Rewrite(ledger[k].id, r, now))
    case None => ledger + [ReminderRow(FreshId(ledger, (n: Notification) => n.id, 'n'), now, r, now)]
  }

  /**
   * After the upsert the activity counts as reminded; with unique ids, every activity that
   * counted as reminded still does, and ids stay unique.
   */
  lemma UpsertMarksSent(ledger: seq<Notification>, r: Reminder, now: int)
    ensures AlreadyReminded(Upsert(ledger, r, now), r.activity.id)
    ensures UniqueNotificationIds(ledger) ==> UniqueNotificationIds(Upsert(ledger, r, now))
    ensures UniqueNotificationIds(ledger) ==>
      forall id :: AlreadyReminded(ledger, id) ==> AlreadyReminded(Upsert(ledger, r, now), id)
  {
    var l := Upsert(ledger, r, now);
    match FirstReminderRow(ledger, r.activity.id)
    case Some(k) =>
      assert CountsAsSent(l[k], r.activity.id);
      if UniqueNotificationIds(ledger) {
        forall id | AlreadyReminded(ledger, id)
          ensures AlreadyReminded(l, id)
        {
          var j :| 0 <= j < |ledger| && CountsAsSent(ledger[j], id);
          if ledger[j].id == ledger[k].id {
            assert j == k;
            assert CountsAsSent(l[j], id);
          } else {
            assert l[j] == ledger[j];
          }
        }
      }
    case None =>
      assert CountsAsSent(l[|ledger|], r.activity.id);
      if UniqueNotificationIds(ledger) {
        forall id | AlreadyReminded(ledger, id)
          ensures AlreadyReminded(l, id)
        {
          var j :| 0 <= j < |ledger| && CountsAsSent(ledger[j], id);
          assert l[j] == ledger[j];
        }
      }
  }

  /** The mailer: `send_activity_reminder(to_email, user_name, activity)` reports success. */
  type Mailer = (string, string, Activity) -> bool

  /** Whether the reminder's mail goes out: never without an address. */
  predicate Mailed(mailer: Mailer, r: Reminder)
  {
    r.email != "" && mailer(r.email, r.name, r.activity)
  }

  function MailedBy(mailer: Mailer): Reminder -> bool
  {
    r => Mailed(mailer, r)
  }

  /** The ledger after mailing the reminders in order, and how many mails went out. */
  function SendAll(ledger: seq<Notification>, rs: seq<Reminder>, mailer: Mailer, now: int): (seq<Notification>, nat)
  {
    if rs == [] then (ledger, 0)
    else
      var prev := SendAll(ledger, rs[..|rs| - 1], mailer, now);
      var r := rs[|rs| - 1];
      (SendOne(prev.0, r, mailer, now), if Mailed(mailer, r) then prev.1 + 1 else prev.1)
  }

  /** The ledger after one reminder: written only when the mail went out. */
  function SendOne(ledger: seq<Notification>, r: Reminder, mailer: Mailer, now: int): seq<Notification>
  {
    if Mailed(mailer, r) then Upsert(ledger, r, now) else ledger
  }

  /** The tick's sent count is the number of reminders whose mail succeeded. */
  lemma {:induction false} SentCountIsSuccesses(ledger: seq<Notification>, rs: seq<Reminder>, mailer: Mailer, now: int)
    ensures SendAll(ledger, rs, mailer, now).1 == Count(rs, MailedBy(mailer))
  {
    if rs != [] {
      var init := rs[..|rs| - 1];
      SentCountIsSuccesses(ledger, init, mailer, now);
      assert rs == init + [rs[|rs| - 1]];
      FilterConcat(init, [rs[|rs| - 1]], MailedBy(mailer));
    }
  }

  lemma SendAllStep(ledger: seq<Notification>, rs: seq<Reminder>, i: nat, mailer: Mailer, now: int)
    requires i < |rs|
    ensures SendAll(ledger, rs[..i + 1], mailer, now).0 == SendOne(SendAll(ledger, rs[..i], mailer, now).0, rs[i], mailer, now)
    ensures SendAll(ledger, rs[..i + 1], mailer, now).1 ==
      SendAll(ledger, rs[..i], mailer, now).1 + (if Mailed(mailer, rs[i]) then 1 else 0)
  {
    assert rs[..i + 1][..i] == rs[..i];
  }

  /** A failed mail writes nothing: with no success at all the ledger is unchanged. */
  lemma {:induction false} NoMailNoWrite(ledger: seq<Notification>, rs: seq<Reminder>, mailer: Mailer, now: int)
    requires forall k :: 0 <= k < |rs| ==> !Mailed(mailer, rs[k])
    ensures SendAll(ledger, rs, mailer, now) == (ledger, 0)
  {
    if rs != [] { NoMailNoWrite(ledger, rs[..|rs| - 1], mailer, now); }
  }

  /**
   * After mailing, every reminder that went out counts as sent, reminded activities stay
   * reminded, and ids stay unique.
   */
  lemma {:induction false} SendAllMarksSent(ledger: seq<Notification>, rs: seq<Reminder>, mailer: Mailer, now: int)
    requires UniqueNotificationIds(ledger)
    ensures UniqueNotificationIds(SendAll(ledger, rs, mailer, now).0)
    ensures forall id :: AlreadyReminded(ledger, id) ==> AlreadyReminded(SendAll(ledger, rs, mailer, now).0, id)
    ensures forall k :: 0 <= k < |rs| && Mailed(mailer, rs[k]) ==>
      AlreadyReminded(SendAll(ledger, rs, mailer, now).0, rs[k].activity.id)
  {
    if rs != [] {
      var init := rs[..|rs| - 1];
      var r := rs[|rs| - 1];
      SendAllMarksSent(ledger, init, mailer, now);
      var prev := SendAll(ledger, init, mailer, now).0;
      if Mailed(mailer, r) {
        UpsertMarksSent(prev, r, now);
      }
      forall k | 0 <= k < |rs| && Mailed(mailer, rs[k])
        ensures AlreadyReminded(SendAll(ledger, rs, mailer, now).0, rs[k].activity.id)
      {
        if k < |rs| - 1 {
          assert rs[k] == init[k];
        }
      }
    }
  }

  // ---------- the tick ----------

  /** The reminders one tick mails, in order. */
  function TickRecipients(activities: seq<Activity>, ledger: seq<Notification>, now: int, dateOf: int -> string,
                          directory: string -> Option<DirectoryRow>): seq<Reminder>
  {
    Recipients(Filter(activities, DueAt(now, dateOf)), ledger, directory)
  }

  /** `_send_reminder_for_activity`: mail, and write the ledger only when the mail went out. */
  method SendReminder(db: PlannerDb, r: Reminder, mailer: Mailer, now: int) returns (ok: bool)
    modifies db
    ensures ok == Mailed(mailer, r)
    ensures db.activities == old(db.activities)
    ensures db.notifications == SendOne(old(db.notifications), r, mailer, now)
  {
    if r.email == "" {
      return false;
    }
    ok := mailer(r.email, r.name, r.activity);
    if ok {
      db.notifications := Upsert(db.notifications, r, now);
    }
  }

  /**
   * `check_and_send_reminders` with the wall clock at `now`: the activities table is only read,
   * the ledger gains the rows of the mailed reminders, and the count of mails is returned
   * (the source only logs it).
   */
  method CheckAndSendReminders(db: PlannerDb, now: int, dateOf: int -> string,
                               directory: string -> Option<DirectoryRow>, mailer: Mailer)
    returns (sentCount: nat)
    modifies db
    ensures db.activities == old(db.activities)
    ensures var rs := TickRecipients(old(db.activities), old(db.notifications), now, dateOf, directory);
            db.notifications == SendAll(old(db.notifications), rs, mailer, now).0 &&
            sentCount == SendAll(old(db.notifications), rs, mailer, now).1
  {
    var due := ActivitiesInWindow(db.activities, now, dateOf);
    var rs := AttachOwners(due, db.notifications, directory);
    ghost var ledger0 := db.notifications;
    assert rs == TickRecipients(old(db.activities), ledger0, now, dateOf, directory);
    sentCount := 0;
    if rs == [] {
      return;
    }
    for i := 0 to |rs|
      invariant db.activities == old(db.activities)
      invariant db.notifications == SendAll(ledger0, rs[..i], mailer, now).0
      invariant sentCount == SendAll(ledger0, rs[..i], mailer, now).1
    {
      SendAllStep(ledger0, rs, i, mailer, now);
      var ok := SendReminder(db, rs[i], mailer, now);
      if ok {
        sentCount := sentCount + 1;
      }
    }
    assert rs[..|rs|] == rs;
  }

  /**
   * Running the tick again (same rows, same owners) mails only reminders whose first mail
   * failed: everything mailed the first time now counts as sent.
   */
  lemma RerunOnlyRetriesFailures(due: seq<Activity>, ledger: seq<Notification>,
                                 directory: string -> Option<DirectoryRow>, mailer: Mailer, now: int)
    requires UniqueNotificationIds(ledger)
    ensures forall r :: r in Recipients(due, SendAll(ledger, Recipients(due, ledger, directory), mailer, now).0, directory) ==>
      r in Recipients(due, ledger, directory) && !Mailed(mailer, r)
  {
    var first := Recipients(due, ledger, directory);
    var after := SendAll(ledger, first, mailer, now).0;
    var again := Recipients(due, after, directory);
    SendAllMarksSent(ledger, first, mailer, now);
    forall r | r in again
      ensures r in first && !Mailed(mailer, r)
    {
      var k :| 0 <= k < |again| && again[k] == r;
      var a := again[k].activity;
      assert !AlreadyReminded(after, a.id);
      assert !AlreadyReminded(ledger, a.id);
      assert ReminderFor(a, ledger, directory) == Some(again[k]);
      var j :| 0 <= j < |first| && first[j] == again[k];
    }
  }

  /** No reminder is built when no due row qualifies. */
  lemma {:induction false} NoRecipients(due: seq<Activity>, ledger: seq<Notification>, directory: string -> Option<DirectoryRow>)
    requires forall a :: a in due ==> ReminderFor(a, ledger, directory).None?
    ensures Recipients(due, ledger, directory) == []
  {
    if due != [] {
      assert forall a :: a in due[..|due| - 1] ==> a in due;
      NoRecipients(due[..|due| - 1], ledger, directory);
    }
  }

  /**
   * When every mail of a tick goes out, running it again (whatever the mailer then does)
   * builds no reminder, so it mails nothing and leaves the ledger as it is.
   */
  lemma RerunAfterFullSuccessSendsNothing(due: seq<Activity>, ledger: seq<Notification>,
                                          directory: string -> Option<DirectoryRow>, mailer: Mailer,
                                          mailer2: Mailer, now: int, later: int)
    requires UniqueNotificationIds(ledger)
    requires forall r :: r in Recipients(due, ledger, directory) ==> Mailed(mailer, r)
    ensures var after := SendAll(ledger, Recipients(due, ledger, directory), mailer, now).0;
            Recipients(due, after, directory) == [] &&
            SendAll(after, Recipients(due, after, directory), mailer2, later) == (after, 0)
  {
    var first := Recipients(due, ledger, directory);
    var after := SendAll(ledger, first, mailer, now).0;
    SendAllMarksSent(ledger, first, mailer, now);
    forall a | a in due
      ensures ReminderFor(a, after, directory).None?
    {
    }
    NoRecipients(due, after, directory);
  }
}
