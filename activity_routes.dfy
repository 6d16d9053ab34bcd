/**
 * The activity endpoints: request-body validation (the pydantic field constraints), the
 * session check, the cut of times to "HH:MM", and the mapping of every service failure to 500.
 */
module ActivityRoutes {
  import opened Wrappers
  import opened Strings
  import opened Seqs
  import opened Civil
  import opened ActivityTables
  import opened ActivityService

  // ---------- field constraints ----------

  predicate Digit05(c: char) { '0' <= c <= '5' }

  /** `[0-1][0-9]|2[0-3]`. */
  predicate HourDigits(a: char, b: char)
  {
    ((a == '0' || a == '1') && IsDigit(b)) || (a == '2' && '0' <= b <= '3')
  }

  /** `^([0-1][0-9]|2[0-3]):[0-5][0-9](:[0-5][0-9])?$`: "HH:MM" or "HH:MM:SS". */
  predicate ValidTime(t: string)
  {
    (|t| == 5 || |t| == 8) &&
    HourDigits(t[0], t[1]) && t[2] == ':' && Digit05(t[3]) && IsDigit(t[4]) &&
    (|t| == 8 ==> t[5] == ':' && Digit05(t[6]) && IsDigit(t[7]))
  }

  /** The value of two digits. */
  lemma TwoDigits(s: string)
    requires |s| == 2 && IsDigit(s[0]) && IsDigit(s[1])
    ensures DigitsValue(s) == DigitValue(s[0]) * 10 + DigitValue(s[1])
  {
    assert s[..|s| - 1] == [s[0]];
    assert [s[0]][..0] == [];
    assert DigitsValue([s[0]]) == DigitValue(s[0]);
  }

  /** Two-digit text is determined by its value. */
  lemma TwoDigitsDetermined(s: string, u: string)
    requires |s| == 2 && IsDigit(s[0]) && IsDigit(s[1])
    requires |u| == 2 && IsDigit(u[0]) && IsDigit(u[1])
    requires DigitsValue(s) == DigitsValue(u)
    ensures s == u
  {
    TwoDigits(s);
    TwoDigits(u);
  }

  /** An accepted time names a real wall-clock time: hour below 24, minute and second below 60. */
  lemma ValidTimeIsClockTime(t: string)
    requires ValidTime(t)
    ensures DigitsAt(t, 0, 2) && DigitsAt(t, 3, 5)
    ensures FieldValue(t, 0, 2) < 24 && FieldValue(t, 3, 5) < 60
    ensures |t| == 8 ==> DigitsAt(t, 6, 8) && FieldValue(t, 6, 8) < 60
  {
    TwoDigits(t[0..2]);
    TwoDigits(t[3..5]);
    if |t| == 8 { TwoDigits(t[6..8]); }
  }

  /** Every wall-clock time, written "HH:MM" or "HH:MM:SS", is accepted. */
  lemma ClockTimeIsValid(h: nat, mi: nat, sec: nat)
    requires h < 24 && mi < 60 && sec < 60
    ensures ValidTime(Pad2(h) + ":" + Pad2(mi))
    ensures ValidTime(Pad2(h) + ":" + Pad2(mi) + ":" + Pad2(sec))
  {
    TwoDigits(Pad2(h));
    TwoDigits(Pad2(mi));
    TwoDigits(Pad2(sec));
  }

  const ActivityKinds: seq<string> := ["class", "exam", "assignment", "meeting", "other"]

  /** `^(class|exam|assignment|meeting|other)$`. */
  predicate ValidKind(k: string) { k in ActivityKinds }

  predicate ValidTitle(t: string) { 1 <= |t| <= 200 }

  predicate ValidLocation(l: Option<string>) { l.Some? ==> |l.value| <= 200 }

  /** `date: DateType`: a real calendar day, sent back as "YYYY-MM-DD" by `isoformat()`. */
  datatype Day = Day(year: int, month: int, day: int)
  {
    predicate Valid() { 1 <= year <= 9999 && ValidDate(year, month, day) }
  }

  function IsoDate(d: Day): string
    requires d.Valid()
  {
    FormatDate(d.year, d.month, d.day)
  }

  /** "HH:MM:SS" is cut to "HH:MM"; shorter text is kept. */
  function CutTime(t: string): (r: string)
    ensures ValidTime(t) ==> |r| == 5 && r == t[..5] && ValidTime(r)
  {
    if |t| > 5 then t[..5] else t
  }

  // ---------- create ----------

  datatype ActivityCreate = ActivityCreate(
    title: string, date: Day, time: string, kind: Option<string>, location: Option<string>)

  /** The kind the create body carries: "other" when omitted. */
  function KindOrDefault(k: Option<string>): string
  {
    k.GetOr("other")
  }

  predicate ValidCreate(b: ActivityCreate)
  {
    ValidTitle(b.title) && b.date.Valid() && ValidTime(b.time) &&
    (b.kind.Some? ==> ValidKind(b.kind.value)) && ValidLocation(b.location)
  }

  /**
   * POST /activities: 422 for a body the model rejects (before the handler runs), 401 without
   * a session user, 500 for any service failure (the ValueError for a past date-time included),
   * else the created row.
   */
  method CreateActivityRoute(db: PlannerDb, sessionUser: Option<string>, b: ActivityCreate, now: int)
    returns (r: Result<Activity>)
    modifies db
    ensures !ValidCreate(b) ==> r == Fail(Http(422)) && db.activities == old(db.activities)
    ensures ValidCreate(b) && sessionUser.None? ==> r == Fail(Http(401)) && db.activities == old(db.activities)
    ensures ValidCreate(b) && sessionUser.Some? ==>
      var plan := PlanCreate(old(db.activities), sessionUser.value, b.title, IsoDate(b.date), CutTime(b.time),
                             KindOrDefault(b.kind), b.location, now);
      (r == if plan.Ok? then plan else Fail(Http(500))) &&
      db.activities == if plan.Ok? then old(db.activities) + [plan.value] else old(db.activities)
    ensures db.notifications == old(db.notifications)
  {
    if !ValidCreate(b) {
      return Fail(Http(422));
    }
    if sessionUser.None? {
      return Fail(Http(401));
    }
    var time := b.time;
    if |time| > 5 {
      time := time[..5];
    }
    r := CreateActivity(db, sessionUser.value, b.title, IsoDate(b.date), time, KindOrDefault(b.kind), b.location, now);
    if r.Fail? {
      r := Fail(Http(500));
    }
  }

  /**
   * Through the endpoint every stored time is "HH:MM": a valid day and clock time in the future
   * is accepted and stored with its seconds cut off.
   */
  lemma CreateStoresShortTime(rows: seq<Activity>, userId: string, b: ActivityCreate, now: int)
    requires ValidCreate(b)
    ensures var plan := PlanCreate(rows, userId, b.title, IsoDate(b.date), CutTime(b.time),
                                   KindOrDefault(b.kind), b.location, now);
            plan.Ok? ==> |plan.value.time| == 5 && ValidTime(plan.value.time) && ValidKind(plan.value.kind)
  {
  }

  /** A create through the endpoint is accepted exactly when the day and minute are not in the past. */
  lemma CreateRouteAcceptsFuture(rows: seq<Activity>, userId: string, b: ActivityCreate, now: int)
    requires ValidCreate(b)
    ensures DigitsAt(b.time, 0, 2) && DigitsAt(b.time, 3, 5)
    ensures FieldValue(b.time, 0, 2) < 24 && FieldValue(b.time, 3, 5) < 60
    ensures var at := ToSeconds(DateTime(b.date.year, b.date.month, b.date.day,
                                         FieldValue(b.time, 0, 2), FieldValue(b.time, 3, 5), 0));
            PlanCreate(rows, userId, b.title, IsoDate(b.date), CutTime(b.time), KindOrDefault(b.kind), b.location, now).Ok?
            <==> at >= now
  {
    ValidTimeIsClockTime(b.time);
    var h, mi := FieldValue(b.time, 0, 2), FieldValue(b.time, 3, 5);
    TwoDigitsDetermined(b.time[0..2], Pad2(h));
    TwoDigitsDetermined(b.time[3..5], Pad2(mi));
    assert CutTime(b.time) == Pad2(h) + ":" + Pad2(mi);
    CreateTextOfShortTime(b.date.year, b.date.month, b.date.day, h, mi);
  }

  // ---------- update ----------

  datatype ActivityPatch = ActivityPatch(
    title: Option<string>, date: Option<Day>, time: Option<string>, kind: Option<string>,
    location: Option<string>, isCompleted: Option<bool>)

  predicate ValidPatch(b: ActivityPatch)
  {
    (b.title.Some? ==> ValidTitle(b.title.value)) && (b.date.Some? ==> b.date.value.Valid()) &&
    (b.time.Some? ==> ValidTime(b.time.value)) && (b.kind.Some? ==> ValidKind(b.kind.value)) &&
    ValidLocation(b.location)
  }

  /** `model_dump(exclude_none=True)`, the date as ISO text and the time cut to "HH:MM". */
  function Updates(b: ActivityPatch): (u: ActivityUpdate)
    requires ValidPatch(b)
    ensures u.title == b.title && u.kind == b.kind && u.location == b.location && u.isCompleted == b.isCompleted
    ensures u.date.Some? <==> b.date.Some?
    ensures u.time.Some? <==> b.time.Some?
    ensures u.time.Some? ==> |u.time.value| == 5 && ValidTime(u.time.value)
  {
    ActivityUpdate(
      b.title,
      if b.date.Some? then Some(IsoDate(b.date.value)) else None,
      if b.time.Some? then Some(CutTime(b.time.value)) else None,
      b.kind, b.location, b.isCompleted)
  }

  /**
   * PATCH /activities/{id}: 422, then 401, then the service; its failures become 500. Since the
   * time is cut to "HH:MM" before the service sees it, every patch that carries a time ends in
   * 500, and so does a date-only patch of a row whose stored time is "HH:MM".
   */
  method UpdateActivityRoute(db: PlannerDb, sessionUser: Option<string>, id: string, b: ActivityPatch, now: int)
    returns (r: Result<Activity>)
    modifies db
    ensures !ValidPatch(b) ==> r == Fail(Http(422)) && db.activities == old(db.activities)
    ensures ValidPatch(b) && sessionUser.None? ==> r == Fail(Http(401)) && db.activities == old(db.activities)
    ensures ValidPatch(b) && sessionUser.Some? && r.Fail? ==> r == Fail(Http(500)) && db.activities == old(db.activities)
    ensures ValidPatch(b) && sessionUser.Some? && b.time.Some? ==> r == Fail(Http(500))
    ensures ValidPatch(b) && sessionUser.Some? && b.date.Some? && b.time.None? ==>
              (forall a :: a in old(db.activities) ==> ShortTime(a.time)) ==> r == Fail(Http(500))
    ensures ValidPatch(b) && sessionUser.Some? && r.Ok? ==>
      var cur := FindActivity(old(db.activities), id, sessionUser.value);
      cur.Some? && r == PlanUpdate(cur.value, Updates(b), now)
    ensures ValidPatch(b) && sessionUser.Some? ==>
      var cur := FindActivity(old(db.activities), id, sessionUser.value);
      r == (if cur.Some? && PlanUpdate(cur.value, Updates(b), now).Ok? then PlanUpdate(cur.value, Updates(b), now)
            else Fail(Http(500))) &&
      db.activities == (if r.Ok? then Map(old(db.activities), UpdateWhere(id, sessionUser.value, Updates(b), now))
                        else old(db.activities))
    ensures db.notifications == old(db.notifications)
  {
    if !ValidPatch(b) {
      return Fail(Http(422));
    }
    if sessionUser.None? {
      return Fail(Http(401));
    }
    r := UpdateActivity(db, id, sessionUser.value, Updates(b), now);
    if r.Fail? {
      r := Fail(Http(500));
    }
  }

  /** POST /activities/{id}/complete: 401, else the service; a missing row becomes 500. */
  method CompleteActivityRoute(db: PlannerDb, sessionUser: Option<string>, id: string, isCompleted: bool, now: int)
    returns (r: Result<Activity>)
    modifies db
    ensures sessionUser.None? ==> r == Fail(Http(401)) && db.activities == old(db.activities)
    ensures sessionUser.Some? ==>
      (r.Ok? <==> HasActivity(old(db.activities), id, sessionUser.value)) &&
      (r.Fail? ==> r == Fail(Http(500)) && db.activities == old(db.activities)) &&
      (r.Ok? ==> r.value.isCompleted == isCompleted && (r.value.completedAt.Some? <==> isCompleted))
    ensures sessionUser.Some? && r.Ok? ==>
      r.value == Marked(FindActivity(old(db.activities), id, sessionUser.value).value, isCompleted, now) &&
      db.activities == Map(old(db.activities), MarkWhere(id, sessionUser.value, isCompleted, now))
    ensures db.notifications == old(db.notifications)
  {
    if sessionUser.None? {
      return Fail(Http(401));
    }
    r := MarkActivityCompleted(db, id, sessionUser.value, isCompleted, now);
    if r.Fail? {
      r := Fail(Http(500));
    }
  }

  /** DELETE /activities/{id}: 401, else the service; nothing matched becomes 500. */
  method DeleteActivityRoute(db: PlannerDb, sessionUser: Option<string>, id: string)
    returns (r: Result<bool>)
    modifies db
    ensures sessionUser.None? ==> r == Fail(Http(401)) && db.activities == old(db.activities)
    ensures sessionUser.Some? ==>
      r == (if HasActivity(old(db.activities), id, sessionUser.value) then Ok(true) else Fail(Http(500))) &&
      !HasActivity(db.activities, id, sessionUser.value)
    ensures sessionUser.Some? ==> db.activities == Filter(old(db.activities), NotOwned(id, sessionUser.value))
    ensures db.notifications == old(db.notifications)
  {
    if sessionUser.None? {
      return Fail(Http(401));
    }
    r := DeleteActivity(db, id, sessionUser.value);
    DeleteRemovesExactly(old(db.activities), id, sessionUser.value);
    if r.Fail? {
      r := Fail(Http(500));
    }
  }
}
