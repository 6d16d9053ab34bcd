/**
 * `ActivityService`: creating, updating, completing and deleting a user's calendar
 * activities, with the rule that no activity is placed in the past and that a completed
 * activity is frozen except for un-completing it. Time is in seconds on the scale of
 * `Civil.ToSeconds`; `now` is the wall clock, passed in.
 */
module ActivityService {
  import opened Wrappers
  import opened Strings
  import opened Seqs
  import opened Civil
  import opened ActivityTables

  // ---------- the date-time text handed to strptime ----------

  /** create: a time whose `split(":")` has two fields gets ":00" appended. */
  function WithSeconds(time: string): (t: string)
    ensures CountChar(time, ':') == 1 ==> t == time + ":00"
    ensures CountChar(time, ':') != 1 ==> t == time
  {
    SplitLength(time, ':');
    if |Split(time, ':')| == 2 then time + ":00" else time
  }

  /** The text `create_activity` parses. */
  function CreateText(date: string, time: string): string
  {
    date + " " + WithSeconds(time)
  }

  /** `s[-3:]`. */
  function LastThree(s: string): (r: string)
    ensures |r| == if |s| < 3 then |s| else 3
  {
    if |s| <= 3 then s else s[|s| - 3..]
  }

  /**
   * The text `update_activity` parses, as written: ":00" is appended only when the last three
   * characters hold no ':', which is never the case for "HH:MM".
   */
  function UpdateTextAsWritten(date: string, time: string): string
  {
    if ':' !in LastThree(time) then date + " " + time + ":00" else date + " " + time
  }

  /** The text `update_activity` evidently means to parse: the same completion as on create. */
  function UpdateText(date: string, time: string): string
  {
    CreateText(date, time)
  }

  /** "HH:MM" has exactly one colon. */
  lemma ShortTimeOneColon(h: nat, mi: nat)
    requires h < 24 && mi < 60
    ensures CountChar(Pad2(h) + ":" + Pad2(mi), ':') == 1
  {
    var hh, mm := Pad2(h), Pad2(mi);
    assert ':' !in hh && ':' !in mm;
    CountCharAbsent(hh, ':');
    CountCharAbsent(mm, ':');
    CountCharConcat(hh, ":", ':');
    CountCharConcat(hh + ":", mm, ':');
  }

  /** A valid wall-clock "HH:MM" on a valid date parses, once completed as on create. */
  lemma CreateTextOfShortTime(y: nat, m: nat, d: nat, h: nat, mi: nat)
    requires 1 <= y <= 9999 && ValidDate(y, m, d) && h < 24 && mi < 60
    ensures InstantOf(CreateText(FormatDate(y, m, d), Pad2(h) + ":" + Pad2(mi))) ==
            Some(ToSeconds(DateTime(y, m, d, h, mi, 0)))
  {
    ShortTimeOneColon(h, mi);
    assert Pad2(0) == "00";
    var t := DateTime(y, m, d, h, mi, 0);
    assert CreateText(FormatDate(y, m, d), Pad2(h) + ":" + Pad2(mi)) == FormatDateTime(t);
    ParseFormatDateTime(t);
  }

  /**
   * As written, an update whose time is five characters with its colon third (every "HH:MM")
   * never parses: it always raises ValueError.
   */
  lemma UpdateShortTimeAlwaysFails(date: string, time: string)
    requires |time| == 5 && time[2] == ':'
    ensures InstantOf(UpdateTextAsWritten(date, time)).None?
  {
    assert LastThree(time)[0] == ':';
    ShortTimeNeverParses(date, time);
  }

  /** Corrected, the same update parses to the intended instant. */
  lemma UpdateShortTimeParses(y: nat, m: nat, d: nat, h: nat, mi: nat)
    requires 1 <= y <= 9999 && ValidDate(y, m, d) && h < 24 && mi < 60
    ensures InstantOf(UpdateText(FormatDate(y, m, d), Pad2(h) + ":" + Pad2(mi))) ==
            Some(ToSeconds(DateTime(y, m, d, h, mi, 0)))
  {
    CreateTextOfShortTime(y, m, d, h, mi);
  }

  /** Not strictly before now (strptime must succeed). */
  predicate NotPast(text: string, now: int)
  {
    InstantOf(text).Some? && InstantOf(text).value >= now
  }

  // ---------- create ----------

  /**
   * `create_activity`: ValueError for an unparseable or past date-time (equal to now is
   * accepted), else the new row: not completed, the time text kept as given, and an id no
   * other row has.
   */
  function PlanCreate(rows: seq<Activity>, userId: string, title: string, date: string, time: string,
                      kind: string, location: Option<string>, now: int): (r: Result<Activity>)
    ensures r.Ok? <==> InstantOf(CreateText(date, time)).Some? && InstantOf(CreateText(date, time)).value >= now
    ensures r.Fail? ==> r.error == ValueErr
    ensures r.Ok? ==> !r.value.isCompleted && r.value.completedAt.None? && r.value.userId == userId &&
                      r.value.title == title && r.value.date == date && r.value.time == time &&
                      r.value.kind == kind && r.value.location == location &&
                      forall k :: 0 <= k < |rows| ==> rows[k].id != r.value.id
  {
    if !NotPast(CreateText(date, time), now) then Fail(ValueErr)
    else Ok(Activity(FreshId(rows, (a: Activity) => a.id, 'a'), userId, title, date, time, kind, location, false, None, now, now))
  }

  /** A date-time equal to now is accepted; one second earlier is not. */
  lemma CreateBoundary(rows: seq<Activity>, userId: string, title: string, y: nat, m: nat, d: nat, h: nat, mi: nat)
    requires 1 <= y <= 9999 && ValidDate(y, m, d) && h < 24 && mi < 60
    ensures var date, time, at := FormatDate(y, m, d), Pad2(h) + ":" + Pad2(mi), ToSeconds(DateTime(y, m, d, h, mi, 0));
            PlanCreate(rows, userId, title, date, time, "other", None, at).Ok? &&
            PlanCreate(rows, userId, title, date, time, "other", None, at + 1) == Fail(ValueErr)
  {
    CreateTextOfShortTime(y, m, d, h, mi);
  }

  method CreateActivity(db: PlannerDb, userId: string, title: string, date: string, time: string,
                        kind: string, location: Option<string>, now: int)
    returns (r: Result<Activity>)
    modifies db
    ensures r == PlanCreate(old(db.activities), userId, title, date, time, kind, location, now)
    ensures db.activities == if r.Ok? then old(db.activities) + [r.value] else old(db.activities)
    ensures db.notifications == old(db.notifications)
  {
    var text := CreateText(date, time);
    var at := InstantOf(text);
    if at.None? || at.value < now {
      return Fail(ValueErr);
    }
    var row := Activity(FreshId(db.activities, (a: Activity) => a.id, 'a'), userId, title, date, time, kind, location, false, None, now, now);
    db.activities := db.activities + [row];
    r := Ok(row);
  }

  // ---------- update ----------

  /** The fields an update may carry; absent ones are left alone. */
  datatype ActivityUpdate = ActivityUpdate(
    title: Option<string>,
    date: Option<string>,
    time: Option<string>,
    kind: Option<string>,
    location: Option<string>,
    isCompleted: Option<bool>)

  /** The row after an update: supplied fields replaced, `updated_at` stamped, identity kept. */
  function Apply(a: Activity, u: ActivityUpdate, now: int): Activity
  {
    a.(title := u.title.GetOr(a.title), date := u.date.GetOr(a.date), time := u.time.GetOr(a.time),
       kind := u.kind.GetOr(a.kind), location := if u.location.Some? then u.location else a.location,
       isCompleted := u.isCompleted.GetOr(a.isCompleted), updatedAt := now)
  }

  /** Whether the update only un-completes: `"is_completed" in updates and not updates["is_completed"]`. */
  predicate Uncompletes(u: ActivityUpdate)
  {
    u.isCompleted == Some(false)
  }

  /** Whether a time text has the "HH:MM" shape the endpoints store: five characters, colon third. */
  predicate ShortTime(t: string)
  {
    |t| == 5 && t[2] == ':'
  }

  /**
   * `update_activity`'s checks on the current row, then the updated row. A completed activity
   * accepts only an update that un-completes it. A date or time in the update makes it parse
   * the new date-time as written (`UpdateTextAsWritten`), so an "HH:MM" time always fails. An
   * accepted update keeps id, owner and creation time, stamps `updated_at`, takes exactly the
   * supplied fields, and never moves the activity into the past.
   */
  function PlanUpdate(current: Activity, u: ActivityUpdate, now: int): (r: Result<Activity>)
    ensures r.Fail? ==> r.error == ValueErr
    ensures current.isCompleted && !Uncompletes(u) ==> r.Fail?
    ensures current.isCompleted && r.Ok? ==> !r.value.isCompleted
    ensures u.time.Some? && ShortTime(u.time.value) ==> r.Fail?
    ensures u.date.Some? && u.time.None? && ShortTime(current.time) ==> r.Fail?
    ensures r.Ok? ==>
      var a := r.value;
      a.id == current.id && a.userId == current.userId && a.createdAt == current.createdAt &&
      a.completedAt == current.completedAt && a.updatedAt == now &&
      (u.title.Some? ==> a.title == u.title.value) && (u.title.None? ==> a.title == current.title) &&
      (u.date.Some? ==> a.date == u.date.value) && (u.date.None? ==> a.date == current.date) &&
      (u.time.Some? ==> a.time == u.time.value) && (u.time.None? ==> a.time == current.time) &&
      (u.isCompleted.Some? ==> a.isCompleted == u.isCompleted.value) &&
      (u.isCompleted.None? ==> a.isCompleted == current.isCompleted) &&
      ((u.date.Some? || u.time.Some?) ==> NotPast(UpdateTextAsWritten(a.date, a.time), now))
    ensures !current.isCompleted && u.date.None? && u.time.None? ==> r.Ok?
  {
    var newDate, newTime := u.date.GetOr(current.date), u.time.GetOr(current.time);
    if current.isCompleted && !Uncompletes(u) then Fail(ValueErr)
    else if (u.date.Some? || u.time.Some?) && !NotPast(UpdateTextAsWritten(newDate, newTime), now) then
      Fail(ValueErr)
    else
      assert (u.date.Some? || u.time.Some?) && ShortTime(newTime) ==> false by {
        if ShortTime(newTime) { UpdateShortTimeAlwaysFails(newDate, newTime); }
      }
      Ok(Apply(current, u, now))
  }

  /**
   * The update as `update_activity` evidently means it: the new date-time completed as on
   * create (`UpdateText`). Accepted exactly when the completed-activity rule allows it and a
   * supplied date or time is not in the past; an accepted update is `Apply`.
   */
  function PlanUpdateIntended(current: Activity, u: ActivityUpdate, now: int): (r: Result<Activity>)
    ensures r.Ok? <==> !(current.isCompleted && !Uncompletes(u)) &&
                       ((u.date.Some? || u.time.Some?) ==>
                          NotPast(UpdateText(u.date.GetOr(current.date), u.time.GetOr(current.time)), now))
    ensures r.Fail? ==> r.error == ValueErr
  {
    var newDate, newTime := u.date.GetOr(current.date), u.time.GetOr(current.time);
    if current.isCompleted && !Uncompletes(u) then Fail(ValueErr)
    else if (u.date.Some? || u.time.Some?) && !NotPast(UpdateText(newDate, newTime), now) then Fail(ValueErr)
    else Ok(Apply(current, u, now))
  }

  /**
   * Moving a pending activity to a future day and minute: the intended update accepts it and
   * stores that day and minute, where the update as written refuses it.
   */
  lemma RescheduleIntendedVersusAsWritten(current: Activity, y: nat, m: nat, d: nat, h: nat, mi: nat, now: int)
    requires !current.isCompleted
    requires 1 <= y <= 9999 && ValidDate(y, m, d) && h < 24 && mi < 60
    requires ToSeconds(DateTime(y, m, d, h, mi, 0)) >= now
    ensures var u := ActivityUpdate(None, Some(FormatDate(y, m, d)), Some(Pad2(h) + ":" + Pad2(mi)), None, None, None);
            var r := PlanUpdateIntended(current, u, now);
            r.Ok? && r.value.date == FormatDate(y, m, d) && r.value.time == Pad2(h) + ":" + Pad2(mi) &&
            PlanUpdate(current, u, now) == Fail(ValueErr)
  {
    UpdateShortTimeParses(y, m, d, h, mi);
  }

  function UpdateWhere(id: string, userId: string, u: ActivityUpdate, now: int): Activity -> Activity
  {
    a => if OwnedActivity(a, id, userId) then Apply(a, u, now) else a
  }

  /**
   * `update_activity`: a plain error when no row matches (id, user_id), ValueError from the
   * checks, else every matching row updated and the first returned.
   */
  method UpdateActivity(db: PlannerDb, id: string, userId: string, u: ActivityUpdate, now: int)
    returns (r: Result<Activity>)
    modifies db
    ensures FindActivity(old(db.activities), id, userId).None? ==>
      r == Fail(Raised) && db.activities == old(db.activities)
    ensures FindActivity(old(db.activities), id, userId).Some? ==>
      r == PlanUpdate(FindActivity(old(db.activities), id, userId).value, u, now) &&
      db.activities == if r.Ok? then Map(old(db.activities), UpdateWhere(id, userId, u, now)) else old(db.activities)
    ensures db.notifications == old(db.notifications)
  {
    var current := FindActivity(db.activities, id, userId);
    if current.None? {
      return Fail(Raised);
    }
    r := PlanUpdate(current.value, u, now);
    if r.Ok? {
      db.activities := Map(db.activities, UpdateWhere(id, userId, u, now));
    }
  }

  // ---------- complete ----------

  /** The row after `mark_activity_completed`: `completed_at` set when completing, cleared otherwise. */
  function Marked(a: Activity, isCompleted: bool, now: int): (m: Activity)
    ensures m.isCompleted == isCompleted && (m.completedAt.Some? <==> isCompleted)
    ensures m.id == a.id && m.userId == a.userId && m.title == a.title && m.date == a.date && m.time == a.time
  {
    a.(isCompleted := isCompleted, completedAt := if isCompleted then Some(now) else None, updatedAt := now)
  }

  function MarkWhere(id: string, userId: string, isCompleted: bool, now: int): Activity -> Activity
  {
    a => if OwnedActivity(a, id, userId) then Marked(a, isCompleted, now) else a
  }

  /** After marking, `completed_at` is present on a row exactly when the row is completed. */
  lemma MarkKeepsCompletedAtInStep(rows: seq<Activity>, id: string, userId: string, isCompleted: bool, now: int)
    requires forall k :: 0 <= k < |rows| ==> (rows[k].completedAt.Some? <==> rows[k].isCompleted)
    ensures var after := Map(rows, MarkWhere(id, userId, isCompleted, now));
            forall k :: 0 <= k < |after| ==> (after[k].completedAt.Some? <==> after[k].isCompleted)
  {
  }

  method MarkActivityCompleted(db: PlannerDb, id: string, userId: string, isCompleted: bool, now: int)
    returns (r: Result<Activity>)
    modifies db
    ensures FindActivity(old(db.activities), id, userId).None? ==>
      r == Fail(Raised) && db.activities == old(db.activities)
    ensures FindActivity(old(db.activities), id, userId).Some? ==>
      r == Ok(Marked(FindActivity(old(db.activities), id, userId).value, isCompleted, now)) &&
      db.activities == Map(old(db.activities), MarkWhere(id, userId, isCompleted, now))
    ensures db.notifications == old(db.notifications)
  {
    var current := FindActivity(db.activities, id, userId);
    if current.None? {
      return Fail(Raised);
    }
    db.activities := Map(db.activities, MarkWhere(id, userId, isCompleted, now));
    r := Ok(Marked(current.value, isCompleted, now));
  }

  // ---------- delete ----------

  function NotOwned(id: string, userId: string): Activity -> bool
  {
    a => !OwnedActivity(a, id, userId)
  }

  function Owned(id: string, userId: string): Activity -> bool
  {
    a => OwnedActivity(a, id, userId)
  }

  /** Deleting keeps exactly the rows that do not match (id, user_id), in order. */
  lemma DeleteRemovesExactly(rows: seq<Activity>, id: string, userId: string)
    ensures var kept := Filter(rows, NotOwned(id, userId));
            !HasActivity(kept, id, userId) &&
            (forall a :: a in rows && !OwnedActivity(a, id, userId) ==> a in kept) &&
            (HasActivity(rows, id, userId) ==> |kept| < |rows|)
  {
    var kept := Filter(rows, NotOwned(id, userId));
    forall k | 0 <= k < |kept| ensures !OwnedActivity(kept[k], id, userId) {
      assert NotOwned(id, userId)(kept[k]);
    }
    forall a | a in rows && !OwnedActivity(a, id, userId) ensures a in kept {
      assert NotOwned(id, userId)(a);
    }
    if HasActivity(rows, id, userId) {
      var k :| 0 <= k < |rows| && OwnedActivity(rows[k], id, userId);
      CountSplit(rows, NotOwned(id, userId), Owned(id, userId));
      assert Owned(id, userId)(rows[k]);
      assert rows[k] in Filter(rows, Owned(id, userId));
    }
  }

  method DeleteActivity(db: PlannerDb, id: string, userId: string) returns (r: Result<bool>)
    modifies db
    ensures r == if HasActivity(old(db.activities), id, userId) then Ok(true) else Fail(Raised)
    ensures db.activities == Filter(old(db.activities), NotOwned(id, userId))
    ensures db.notifications == old(db.notifications)
  {
    var had := FindActivity(db.activities, id, userId);
    db.activities := Filter(db.activities, NotOwned(id, userId));
    r := if had.Some? then Ok(true) else Fail(Raised);
  }
}
