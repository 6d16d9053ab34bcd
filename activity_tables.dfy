/**
 * The `activities` and `notifications` tables shared by the activity service, the
 * notification service and the reminder scheduler, as in-memory tables in insertion order.
 */
module ActivityTables {
  import opened Wrappers

  datatype Activity = Activity(
    id: string,
    userId: string,
    title: string,
    date: string,               // "YYYY-MM-DD"
    time: string,               // as written by the service: "HH:MM" or "HH:MM:SS"
    kind: string,               // the `type` column
    location: Option<string>,
    isCompleted: bool,
    completedAt: Option<int>,
    createdAt: int,
    updatedAt: int)

  datatype Notification = Notification(
    id: string,
    userId: string,
    activityId: Option<string>,
    kind: string,               // the `type` column: "reminder", "upcoming", ...
    title: string,
    message: string,
    activityTitle: string,
    date: string,
    time: string,
    location: Option<string>,
    isRead: bool,
    isDismissed: bool,
    emailSent: Option<bool>,    // None: the row has no `email_sent` key
    emailSentAt: Option<int>,
    createdAt: int)

  class PlannerDb {
    var activities: seq<Activity>
    var notifications: seq<Notification>

    constructor ()
      ensures activities == [] && notifications == []
    {
      activities, notifications := [], [];
    }
  }

  /** The row a `.eq("id", id).eq("user_id", userId)` filter selects. */
  predicate OwnedActivity(a: Activity, id: string, userId: string)
  {
    a.id == id && a.userId == userId
  }

  predicate OwnedNotification(n: Notification, id: string, userId: string)
  {
    n.id == id && n.userId == userId
  }

  /** Whether some activity row matches (id, user_id). */
  predicate HasActivity(rows: seq<Activity>, id: string, userId: string)
  {
    exists k :: 0 <= k < |rows| && OwnedActivity(rows[k], id, userId)
  }

  predicate HasNotification(rows: seq<Notification>, id: string, userId: string)
  {
    exists k :: 0 <= k < |rows| && OwnedNotification(rows[k], id, userId)
  }

  /** The first notification row matching (id, user_id), as `get_notification_by_id` returns it. */
  function FindNotification(rows: seq<Notification>, id: string, userId: string): (r: Option<Notification>)
    ensures r.Some? ==> r.value in rows && OwnedNotification(r.value, id, userId)
    ensures r.None? <==> !HasNotification(rows, id, userId)
  {
    if rows == [] then None
    else if OwnedNotification(rows[0], id, userId) then Some(rows[0])
    else
      var r := FindNotification(rows[1..], id, userId);
      assert HasNotification(rows[1..], id, userId) ==> HasNotification(rows, id, userId) by {
        if HasNotification(rows[1..], id, userId) {
          var k :| 0 <= k < |rows[1..]| && OwnedNotification(rows[1..][k], id, userId);
          assert rows[k + 1] == rows[1..][k];
        }
      }
      r
  }

  /** The first activity row matching (id, user_id). */
  function FindActivity(rows: seq<Activity>, id: string, userId: string): (r: Option<Activity>)
    ensures r.Some? ==> r.value in rows && OwnedActivity(r.value, id, userId)
    ensures r.None? <==> !HasActivity(rows, id, userId)
  {
    if rows == [] then None
    else if OwnedActivity(rows[0], id, userId) then Some(rows[0])
    else
      var r := FindActivity(rows[1..], id, userId);
      assert HasActivity(rows[1..], id, userId) ==> HasActivity(rows, id, userId) by {
        if HasActivity(rows[1..], id, userId) {
          var k :| 0 <= k < |rows[1..]| && OwnedActivity(rows[1..][k], id, userId);
          assert rows[k + 1] == rows[1..][k];
        }
      }
      r
  }

  /** The longest of the ids. */
  function LongestLen(ids: seq<string>): (n: nat)
    ensures forall k :: 0 <= k < |ids| ==> |ids[k]| <= n
  {
    if ids == [] then 0
    else
      var m := LongestLen(ids[1..]);
      assert forall k :: 1 <= k < |ids| ==> ids[k] == ids[1..][k - 1];
      if |ids[0]| > m then |ids[0]| else m
  }

  /**
   * The id the store assigns to a row inserted into `rows`, whose ids `idOf` reads. The store
   * generates a fresh UUID; here it is a string longer than every id in use, which makes it fresh.
   */
  function FreshId<R>(rows: seq<R>, idOf: R -> string, pad: char): (id: string)
    ensures forall k :: 0 <= k < |rows| ==> idOf(rows[k]) != id
  {
    var ids := seq(|rows|, k requires 0 <= k < |rows| => idOf(rows[k]));
    assert forall k :: 0 <= k < |rows| ==> ids[k] == idOf(rows[k]);
    seq(LongestLen(ids) + 1, _ => pad)
  }

  predicate UniqueNotificationIds(rows: seq<Notification>)
  {
    forall i, j :: 0 <= i < j < |rows| ==> rows[i].id != rows[j].id
  }
}
