/**
 * `NotificationService`: listing, the unread badge count, the per-row flag updates, marking
 * everything read, deleting, and completing an activity from its notification.
 */
module NotificationService {
  import opened Wrappers
  import opened Seqs
  import opened ActivityTables

  // ---------- listing ----------

  /** The optional filters of `get_notifications`; an empty type string is no filter. */
  datatype NotificationQuery = NotificationQuery(isRead: Option<bool>, isDismissed: Option<bool>, kind: Option<string>)

  predicate Selected(n: Notification, userId: string, q: NotificationQuery)
  {
    n.userId == userId &&
    (q.isRead.Some? ==> n.isRead == q.isRead.value) &&
    (q.isDismissed.Some? ==> n.isDismissed == q.isDismissed.value) &&
    (q.kind.Some? && q.kind.value != "" ==> n.kind == q.kind.value)
  }

  function SelectedBy(userId: string, q: NotificationQuery): Notification -> bool
  {
    (n: Notification) => Selected(n, userId, q)
  }

  /** `.order("created_at", desc=True)`. */
  predicate NewerFirst(a: Notification, b: Notification) { a.createdAt >= b.createdAt }

  lemma NewerFirstIsTotal()
    ensures TotalPreorder(NewerFirst)
  {
  }

  /**
   * `get_notifications`: the caller's rows passing every supplied filter, newest first, at most
   * `limit` of them; a row left out is never newer than a row returned.
   */
  function GetNotifications(rows: seq<Notification>, userId: string, q: NotificationQuery, limit: nat)
    : (r: seq<Notification>)
    ensures |r| == if Count(rows, SelectedBy(userId, q)) < limit then Count(rows, SelectedBy(userId, q)) else limit
    ensures forall k :: 0 <= k < |r| ==> r[k] in rows && Selected(r[k], userId, q)
    ensures SortedBy(r, NewerFirst)
    ensures forall n :: n in rows && Selected(n, userId, q) && n !in r ==>
              forall k :: 0 <= k < |r| ==> r[k].createdAt >= n.createdAt
    ensures Count(rows, SelectedBy(userId, q)) <= limit ==>
              multiset(r) == multiset(Filter(rows, SelectedBy(userId, q)))
  {
    NewerFirstIsTotal();
    var matching := Filter(rows, SelectedBy(userId, q));
    FirstBy(matching, NewerFirst, limit)
  }

  // ---------- unread badge ----------

  /** Counted by the badge: not read and not dismissed. */
  predicate Unread(n: Notification) { !n.isRead && !n.isDismissed }

  function UnreadOf(userId: string): Notification -> bool
  {
    (n: Notification) => n.userId == userId && Unread(n)
  }

  /** `get_unread_count`: 0 exactly when none of the caller's rows is unread and undismissed. */
  function UnreadCount(rows: seq<Notification>, userId: string): (c: nat)
    ensures c <= |rows|
    ensures c == 0 <==> forall k :: 0 <= k < |rows| ==> rows[k].userId != userId || !Unread(rows[k])
  {
    var f := Filter(rows, UnreadOf(userId));
    if forall k :: 0 <= k < |rows| ==> rows[k].userId != userId || !Unread(rows[k]) then
      FilterNone(rows, UnreadOf(userId));
      Count(rows, UnreadOf(userId))
    else
      var k :| 0 <= k < |rows| && rows[k].userId == userId && Unread(rows[k]);
      assert rows[k] in f;
      Count(rows, UnreadOf(userId))
  }

  // ---------- flag updates on one row ----------

  /** Applies `change` to the rows matching (id, user_id), as an `.update(...).eq("id").eq("user_id")`. */
  function Where(id: string, userId: string, change: Notification -> Notification): Notification -> Notification
  {
    (n: Notification) => if OwnedNotification(n, id, userId) then change(n) else n
  }

  function SetRead(v: bool): Notification -> Notification
  {
    (n: Notification) => n.(isRead := v)
  }

  /** Dismissing also marks read. */
  function Dismiss(): Notification -> Notification
  {
    (n: Notification) => n.(isDismissed := true, isRead := true)
  }

  /** Restoring clears only the dismissed flag. */
  function Restore(): Notification -> Notification
  {
    (n: Notification) => n.(isDismissed := false)
  }

  /**
   * The shared shape of `mark_as_read`, `mark_as_unread`, `dismiss_notification` and
   * `restore_notification`: raise when no row matches, else update the matching rows and return
   * the first.
   */
  method UpdateOwned(db: PlannerDb, id: string, userId: string, change: Notification -> Notification)
    returns (r: Result<Notification>)
    modifies db
    ensures !HasNotification(old(db.notifications), id, userId) ==>
      r == Fail(Raised) && db.notifications == old(db.notifications)
    ensures HasNotification(old(db.notifications), id, userId) ==>
      r == Ok(change(FindNotification(old(db.notifications), id, userId).value)) &&
      db.notifications == Map(old(db.notifications), Where(id, userId, change))
    ensures db.activities == old(db.activities)
  {
    var current := FindNotification(db.notifications, id, userId);
    if current.None? {
      return Fail(Raised);
    }
    db.notifications := Map(db.notifications, Where(id, userId, change));
    r := Ok(change(current.value));
  }

  method MarkAsRead(db: PlannerDb, id: string, userId: string) returns (r: Result<Notification>)
    modifies db
    ensures !HasNotification(old(db.notifications), id, userId) ==>
      r == Fail(Raised) && db.notifications == old(db.notifications)
    ensures HasNotification(old(db.notifications), id, userId) ==>
      r == Ok(FindNotification(old(db.notifications), id, userId).value.(isRead := true)) &&
      db.notifications == Map(old(db.notifications), Where(id, userId, SetRead(true)))
    ensures db.activities == old(db.activities)
  {
    r := UpdateOwned(db, id, userId, SetRead(true));
  }

  method MarkAsUnread(db: PlannerDb, id: string, userId: string) returns (r: Result<Notification>)
    modifies db
    ensures !HasNotification(old(db.notifications), id, userId) ==>
      r == Fail(Raised) && db.notifications == old(db.notifications)
    ensures HasNotification(old(db.notifications), id, userId) ==>
      r == Ok(FindNotification(old(db.notifications), id, userId).value.(isRead := false)) &&
      db.notifications == Map(old(db.notifications), Where(id, userId, SetRead(false)))
    ensures db.activities == old(db.activities)
  {
    r := UpdateOwned(db, id, userId, SetRead(false));
  }

  method DismissNotification(db: PlannerDb, id: string, userId: string) returns (r: Result<Notification>)
    modifies db
    ensures !HasNotification(old(db.notifications), id, userId) ==>
      r == Fail(Raised) && db.notifications == old(db.notifications)
    ensures HasNotification(old(db.notifications), id, userId) ==>
      r == Ok(FindNotification(old(db.notifications), id, userId).value.(isDismissed := true, isRead := true)) &&
      db.notifications == Map(old(db.notifications), Where(id, userId, Dismiss()))
    ensures db.activities == old(db.activities)
  {
    r := UpdateOwned(db, id, userId, Dismiss());
  }

  method RestoreNotification(db: PlannerDb, id: string, userId: string) returns (r: Result<Notification>)
    modifies db
    ensures !HasNotification(old(db.notifications), id, userId) ==>
      r == Fail(Raised) && db.notifications == old(db.notifications)
    ensures HasNotification(old(db.notifications), id, userId) ==>
      r == Ok(FindNotification(old(db.notifications), id, userId).value.(isDismissed := false)) &&
      db.notifications == Map(old(db.notifications), Where(id, userId, Restore()))
    ensures db.activities == old(db.activities)
  {
    r := UpdateOwned(db, id, userId, Restore());
  }

  /** Read then unread gives back the table, when the caller's row was unread to begin with. */
  lemma {:induction false} ReadThenUnreadRestores(rows: seq<Notification>, id: string, userId: string)
    requires forall k :: 0 <= k < |rows| && OwnedNotification(rows[k], id, userId) ==> !rows[k].isRead
    ensures Map(Map(rows, Where(id, userId, SetRead(true))), Where(id, userId, SetRead(false))) == rows
  {
    if rows != [] {
      ReadThenUnreadRestores(rows[1..], id, userId);
      var once := Map(rows, Where(id, userId, SetRead(true)));
      assert once[1..] == Map(rows[1..], Where(id, userId, SetRead(true)));
    }
  }

  /** Dismissing then restoring leaves the row read and visible: the same as marking it read. */
  lemma {:induction false} DismissThenRestoreIsRead(rows: seq<Notification>, id: string, userId: string)
    requires forall k :: 0 <= k < |rows| && OwnedNotification(rows[k], id, userId) ==> !rows[k].isDismissed
    ensures Map(Map(rows, Where(id, userId, Dismiss())), Where(id, userId, Restore())) ==
            Map(rows, Where(id, userId, SetRead(true)))
  {
    if rows != [] {
      DismissThenRestoreIsRead(rows[1..], id, userId);
      var once := Map(rows, Where(id, userId, Dismiss()));
      assert once[1..] == Map(rows[1..], Where(id, userId, Dismiss()));
    }
  }

  /** Rows not matching (id, user_id) are left as they are. */
  lemma {:induction false} WhereNoMatch(rows: seq<Notification>, id: string, userId: string,
                                        change: Notification -> Notification)
    requires !HasNotification(rows, id, userId)
    ensures Map(rows, Where(id, userId, change)) == rows
  {
    if rows != [] {
      assert !OwnedNotification(rows[0], id, userId);
      forall k | 0 <= k < |rows[1..]| ensures !OwnedNotification(rows[1..][k], id, userId) {
        assert rows[1..][k] == rows[k + 1];
      }
      WhereNoMatch(rows[1..], id, userId, change);
    }
  }

  /** The badge count of a table whose first row is split off. */
  lemma UnreadCountCons(rows: seq<Notification>, userId: string)
    requires rows != []
    ensures UnreadCount(rows, userId) == (if UnreadOf(userId)(rows[0]) then 1 else 0) + UnreadCount(rows[1..], userId)
  {
  }

  /**
   * With unique ids, dismissing lowers the caller's badge count by one exactly when the
   * dismissed row was unread, and leaves it unchanged otherwise.
   */
  lemma {:induction false} DismissLowersUnreadCount(rows: seq<Notification>, id: string, userId: string)
    requires UniqueNotificationIds(rows)
    ensures var found := FindNotification(rows, id, userId);
            UnreadCount(Map(rows, Where(id, userId, Dismiss())), userId) ==
            UnreadCount(rows, userId) - (if found.Some? && Unread(found.value) then 1 else 0)
  {
    if rows != [] {
      var after := Map(rows, Where(id, userId, Dismiss()));
      var tail := rows[1..];
      assert after[1..] == Map(tail, Where(id, userId, Dismiss()));
      UnreadCountCons(rows, userId);
      UnreadCountCons(after, userId);
      if OwnedNotification(rows[0], id, userId) {
        forall k | 0 <= k < |tail| ensures !OwnedNotification(tail[k], id, userId) {
          assert tail[k] == rows[k + 1];
        }
        WhereNoMatch(tail, id, userId, Dismiss());
      } else {
        assert UniqueNotificationIds(tail) by {
          forall i, j | 0 <= i < j < |tail| ensures tail[i].id != tail[j].id {
            assert tail[i] == rows[i + 1] && tail[j] == rows[j + 1];
          }
        }
        DismissLowersUnreadCount(tail, id, userId);
      }
    }
  }

  // ---------- mark all read ----------

  /** What `mark_all_as_read` selects: the caller's rows with `is_read` False, dismissed or not. */
  function NotReadOf(userId: string): Notification -> bool
  {
    (n: Notification) => n.userId == userId && !n.isRead
  }

  function ReadAllOf(userId: string): Notification -> Notification
  {
    (n: Notification) => if n.userId == userId && !n.isRead then n.(isRead := true) else n
  }

  /** `mark_all_as_read`: every unread row of the caller becomes read; returns how many changed. */
  method MarkAllAsRead(db: PlannerDb, userId: string) returns (count: nat)
    modifies db
    ensures db.notifications == Map(old(db.notifications), ReadAllOf(userId))
    ensures count == Count(old(db.notifications), NotReadOf(userId))
    ensures db.activities == old(db.activities)
  {
    count := Count(db.notifications, NotReadOf(userId));
    db.notifications := Map(db.notifications, ReadAllOf(userId));
  }

  /**
   * After marking all read, the caller's badge is 0, other users' rows are untouched, and the
   * number reported is at least the badge count before.
   */
  lemma MarkAllAsReadClearsBadge(rows: seq<Notification>, userId: string)
    ensures var after := Map(rows, ReadAllOf(userId));
            UnreadCount(after, userId) == 0 &&
            (forall k :: 0 <= k < |rows| && rows[k].userId != userId ==> after[k] == rows[k]) &&
            UnreadCount(rows, userId) <= Count(rows, NotReadOf(userId))
  {
    CountMono(rows, NotReadOf(userId), UnreadOf(userId));
  }

  /** Marking all read a second time changes nothing and reports 0. */
  lemma MarkAllAsReadIdempotent(rows: seq<Notification>, userId: string)
    ensures var after := Map(rows, ReadAllOf(userId));
            Map(after, ReadAllOf(userId)) == after && Count(after, NotReadOf(userId)) == 0
  {
    var after := Map(rows, ReadAllOf(userId));
    FilterNone(after, NotReadOf(userId));
  }

  // ---------- delete ----------

  function NotOwnedNotification(id: string, userId: string): Notification -> bool
  {
    (n: Notification) => !OwnedNotification(n, id, userId)
  }

  /** `delete_notification`: raises when nothing was deleted. */
  method DeleteNotification(db: PlannerDb, id: string, userId: string) returns (r: Result<bool>)
    modifies db
    ensures r == if HasNotification(old(db.notifications), id, userId) then Ok(true) else Fail(Raised)
    ensures db.notifications == Filter(old(db.notifications), NotOwnedNotification(id, userId))
    ensures db.activities == old(db.activities)
  {
    var had := FindNotification(db.notifications, id, userId);
    db.notifications := Filter(db.notifications, NotOwnedNotification(id, userId));
    r := if had.Some? then Ok(true) else Fail(Raised);
  }

  /** Deleting removes exactly the (id, user_id) rows, and a failed delete changes nothing. */
  lemma DeleteNotificationRemovesExactly(rows: seq<Notification>, id: string, userId: string)
    ensures var kept := Filter(rows, NotOwnedNotification(id, userId));
            !HasNotification(kept, id, userId) &&
            (forall n :: n in rows && !OwnedNotification(n, id, userId) ==> n in kept) &&
            (!HasNotification(rows, id, userId) ==> kept == rows)
  {
    if !HasNotification(rows, id, userId) {
      FilterAll(rows, NotOwnedNotification(id, userId));
    }
  }

  // ---------- completing the linked activity ----------

  /** `not activity_id`: an absent or empty activity id links nothing. */
  predicate Linked(n: Notification)
  {
    n.activityId.Some? && n.activityId.value != ""
  }

  /** The activity row after completing from a notification: `updated_at` is not stamped here. */
  function Completed(a: Activity, now: int): (c: Activity)
    ensures c.isCompleted && c.completedAt == Some(now)
    ensures c.id == a.id && c.userId == a.userId && c.updatedAt == a.updatedAt
  {
    a.(isCompleted := true, completedAt := Some(now))
  }

  function CompleteWhere(activityId: string, userId: string, now: int): Activity -> Activity
  {
    (a: Activity) => if OwnedActivity(a, activityId, userId) then Completed(a, now) else a
  }

  datatype Completion = Completion(notification: Notification, activity: Activity)

  /** Whether completing from notification `id` goes through. */
  predicate CanComplete(notifications: seq<Notification>, activities: seq<Activity>, id: string, userId: string)
  {
    var n := FindNotification(notifications, id, userId);
    n.Some? && Linked(n.value) && HasActivity(activities, n.value.activityId.value, userId)
  }

  /**
   * `mark_activity_completed_from_notification`: raises when the notification is missing, links
   * no activity, or the activity update matches nothing (the tables are then unchanged); else the
   * caller's activity is completed and the notification marked read.
   */
  method CompleteFromNotification(db: PlannerDb, id: string, userId: string, now: int)
    returns (r: Result<Completion>)
    modifies db
    ensures r.Ok? <==> CanComplete(old(db.notifications), old(db.activities), id, userId)
    ensures r.Fail? ==>
      r == Fail(Raised) && db.activities == old(db.activities) && db.notifications == old(db.notifications)
    ensures r.Ok? ==>
      var n := FindNotification(old(db.notifications), id, userId).value;
      var a := FindActivity(old(db.activities), n.activityId.value, userId).value;
      r.value == Completion(n.(isRead := true), Completed(a, now)) &&
      db.activities == Map(old(db.activities), CompleteWhere(n.activityId.value, userId, now)) &&
      db.notifications == Map(old(db.notifications), Where(id, userId, SetRead(true)))
  {
    var n := FindNotification(db.notifications, id, userId);
    if n.None? {
      return Fail(Raised);
    }
    if !Linked(n.value) {
      return Fail(Raised);
    }
    var activityId := n.value.activityId.value;
    var a := FindActivity(db.activities, activityId, userId);
    if a.None? {
      return Fail(Raised);
    }
    db.activities := Map(db.activities, CompleteWhere(activityId, userId, now));
    db.notifications := Map(db.notifications, Where(id, userId, SetRead(true)));
    r := Ok(Completion(n.value.(isRead := true), Completed(a.value, now)));
  }

  /**
   * After completing from a notification, every row of the linked activity is completed with
   * `completed_at`, the notification is read, and nobody else's rows change.
   */
  lemma CompletionEffect(notifications: seq<Notification>, activities: seq<Activity>, id: string, userId: string, now: int)
    requires CanComplete(notifications, activities, id, userId)
    ensures var aid := FindNotification(notifications, id, userId).value.activityId.value;
            var acts := Map(activities, CompleteWhere(aid, userId, now));
            var ns := Map(notifications, Where(id, userId, SetRead(true)));
            HasActivity(acts, aid, userId) &&
            (forall k :: 0 <= k < |acts| && OwnedActivity(acts[k], aid, userId) ==>
               acts[k].isCompleted && acts[k].completedAt == Some(now)) &&
            (forall k :: 0 <= k < |ns| && OwnedNotification(ns[k], id, userId) ==> ns[k].isRead) &&
            (forall k :: 0 <= k < |acts| && activities[k].userId != userId ==> acts[k] == activities[k]) &&
            (forall k :: 0 <= k < |ns| && notifications[k].userId != userId ==> ns[k] == notifications[k])
  {
    var aid := FindNotification(notifications, id, userId).value.activityId.value;
    var acts := Map(activities, CompleteWhere(aid, userId, now));
    var ns := Map(notifications, Where(id, userId, SetRead(true)));
    var k :| 0 <= k < |activities| && OwnedActivity(activities[k], aid, userId);
    assert acts[k] == Completed(activities[k], now);
    forall j | 0 <= j < |acts| && OwnedActivity(acts[j], aid, userId)
      ensures acts[j].isCompleted && acts[j].completedAt == Some(now)
    {
      assert acts[j] == CompleteWhere(aid, userId, now)(activities[j]);
    }
    forall j | 0 <= j < |ns| && OwnedNotification(ns[j], id, userId) ensures ns[j].isRead {
      assert ns[j] == Where(id, userId, SetRead(true))(notifications[j]);
    }
    forall j | 0 <= j < |acts| && activities[j].userId != userId ensures acts[j] == activities[j] {
      assert acts[j] == CompleteWhere(aid, userId, now)(activities[j]);
    }
    forall j | 0 <= j < |ns| && notifications[j].userId != userId ensures ns[j] == notifications[j] {
      assert ns[j] == Where(id, userId, SetRead(true))(notifications[j]);
    }
  }
}
