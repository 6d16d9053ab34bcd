/**
 * The notification list state of the notifications page: the list, the
 * unread counter and the error text, updated by each action before the
 * list is fetched again.
 *
 * The API calls are external: each action gets the error its call raised
 * (None on success) and the result of the refetch that follows. Times are
 * milliseconds since the epoch, passed in.
 */
module SystemNotifications {
  import opened Wrappers
  import opened Seqs

  datatype Notification = Notification(
    id: string,
    activityId: Option<string>,
    kind: string,
    title: string,
    isRead: bool,
    readAt: Option<int>,
    isDismissed: bool)

  /** The outcome of refetching the list. */
  datatype Fetch = Fetched(list: seq<Notification>) | FetchFailed(message: string)

  // ---------- the list updaters ----------

  function ReadWhere(id: string, now: int): Notification -> Notification
  {
    (n: Notification) => if n.id == id then n.(isRead := true, readAt := Some(now)) else n
  }

  function UnreadWhere(id: string): Notification -> Notification
  {
    (n: Notification) => if n.id == id then n.(isRead := false, readAt := None) else n
  }

  function ReadAll(now: int): Notification -> Notification
  {
    (n: Notification) => n.(isRead := true, readAt := Some(now))
  }

  function RestoreWhere(id: string): Notification -> Notification
  {
    (n: Notification) => if n.id == id then n.(isDismissed := false) else n
  }

  function IdIsNot(id: string): Notification -> bool
  {
    (n: Notification) => n.id != id
  }

  /** `prev.filter(n => n.id !== id)`. */
  function Without(ns: seq<Notification>, id: string): (r: seq<Notification>)
    ensures forall n :: n in r <==> n in ns && n.id != id
  {
    Filter(ns, IdIsNot(id))
  }

  /** `notifications.find(n => n.id === id)`: the first with that id. */
  function FindById(ns: seq<Notification>, id: string): (r: Option<Notification>)
    ensures r.Some? ==> r.value in ns && r.value.id == id
    ensures r.None? ==> forall n :: n in ns ==> n.id != id
  {
    if ns == [] then None else if ns[0].id == id then Some(ns[0]) else FindById(ns[1..], id)
  }

  /** `Math.max(0, prev - 1)`. */
  function Floored(count: nat): (r: nat)
    ensures count > 0 ==> r == count - 1
    ensures count == 0 ==> r == 0
  {
    if count > 0 then count - 1 else 0
  }

  /** The counter after dropping (or completing) id: decremented, floored, only if it was listed unread. */
  function CountAfterDrop(count: nat, ns: seq<Notification>, id: string): (r: nat)
    ensures FindById(ns, id).Some? && !FindById(ns, id).value.isRead ==> r == Floored(count)
    ensures !(FindById(ns, id).Some? && !FindById(ns, id).value.isRead) ==> r == count
  {
    var found := FindById(ns, id);
    if found.Some? && !found.value.isRead then Floored(count) else count
  }

  /** The list after the refetch: the fetched list, or the local one when the fetch failed. */
  function Refetched(local: seq<Notification>, fetched: Fetch): seq<Notification>
  {
    match fetched
    case Fetched(list) => list
    case FetchFailed(_) => local
  }

  /** The error a refetch leaves: it clears the error first and sets it only when fetching fails. */
  function RefetchError(fetched: Fetch): Option<string>
  {
    match fetched
    case Fetched(_) => None
    case FetchFailed(m) => Some(m)
  }

  /**
   * As written: a failed action sets its error, then the refetch clears it again. The message
   * survives only when the refetch itself fails with the same text.
   */
  function ErrorAfterFailureAsWritten(message: string, fetched: Fetch): (r: Option<string>)
    ensures r == Some(message) ==> fetched == FetchFailed(message)
    ensures fetched.Fetched? ==> r.None?
    ensures fetched.FetchFailed? ==> r == Some(fetched.message)
  {
    RefetchError(fetched)
  }

  /** A failed action's error disappears whenever the refetch succeeds. */
  lemma FailureErrorIsLost(message: string, list: seq<Notification>)
    ensures ErrorAfterFailureAsWritten(message, Fetched(list)) == None
  {
  }

  /** Corrected: the failed action's error stays visible, unless the refetch reports one of its own. */
  function ErrorAfterFailure(message: string, fetched: Fetch): (r: Option<string>)
    ensures r.Some?
    ensures fetched.Fetched? ==> r == Some(message)
    ensures fetched.FetchFailed? ==> r == RefetchError(fetched)
  {
    match fetched
    case Fetched(_) => Some(message)
    case FetchFailed(m) => Some(m)
  }

  // ---------- the counter against the list ----------

  predicate UniqueIds(ns: seq<Notification>)
  {
    forall i, j :: 0 <= i < j < |ns| ==> ns[i].id != ns[j].id
  }

  function IsUnread(): Notification -> bool
  {
    (n: Notification) => !n.isRead
  }

  /** 1 when the list holds an unread notification with that id, else 0 (ids being unique). */
  function UnreadHit(ns: seq<Notification>, id: string): nat
  {
    if FindById(ns, id).Some? && !FindById(ns, id).value.isRead then 1 else 0
  }

  lemma UniqueTail(ns: seq<Notification>)
    requires ns != [] && UniqueIds(ns)
    ensures UniqueIds(ns[1..])
    ensures forall n :: n in ns[1..] ==> n.id != ns[0].id
  {
    forall n | n in ns[1..] ensures n.id != ns[0].id {
      var k :| 0 <= k < |ns[1..]| && ns[1..][k] == n;
      assert ns[k + 1] == n;
    }
  }

  /** Marking one notification read lowers the number of unread ones by exactly the hit. */
  lemma {:induction false} MarkReadCount(ns: seq<Notification>, id: string, now: int)
    requires UniqueIds(ns)
    ensures Count(Map(ns, ReadWhere(id, now)), IsUnread()) + UnreadHit(ns, id) == Count(ns, IsUnread())
  {
    if ns != [] {
      UniqueTail(ns);
      var tail := ns[1..];
      var m := Map(ns, ReadWhere(id, now));
      assert m[1..] == Map(tail, ReadWhere(id, now));
      CountCons(m, IsUnread());
      CountCons(ns, IsUnread());
      if ns[0].id == id {
        forall k | 0 <= k < |tail| ensures Map(tail, ReadWhere(id, now))[k] == tail[k] {
          assert tail[k] in tail;
        }
        assert Map(tail, ReadWhere(id, now)) == tail;
      } else {
        MarkReadCount(tail, id, now);
      }
    }
  }

  /** Dropping one notification lowers the number of unread ones by exactly the hit. */
  lemma {:induction false} DropCount(ns: seq<Notification>, id: string)
    requires UniqueIds(ns)
    ensures Count(Without(ns, id), IsUnread()) + UnreadHit(ns, id) == Count(ns, IsUnread())
  {
    if ns != [] {
      UniqueTail(ns);
      var tail := ns[1..];
      var w := Without(ns, id);
      CountCons(ns, IsUnread());
      if ns[0].id == id {
        FilterAll(tail, IdIsNot(id));
        assert w == Filter(tail, IdIsNot(id)) == tail;
      } else {
        DropCount(tail, id);
        assert w == [ns[0]] + Without(tail, id);
        assert w[1..] == Without(tail, id);
        CountCons(w, IsUnread());
        assert UnreadHit(ns, id) == UnreadHit(tail, id);
      }
    }
  }

  /** Marking everything read leaves nothing unread. */
  lemma ReadAllLeavesNoneUnread(ns: seq<Notification>, now: int)
    ensures Count(Map(ns, ReadAll(now)), IsUnread()) == 0
  {
    FilterNone(Map(ns, ReadAll(now)), IsUnread());
  }

  /** While the counter matches the list, dropping a notification keeps it matching. */
  lemma DropKeepsCounterInSync(ns: seq<Notification>, id: string, count: nat)
    requires UniqueIds(ns) && count == Count(ns, IsUnread())
    ensures CountAfterDrop(count, ns, id) == Count(Without(ns, id), IsUnread())
  {
    DropCount(ns, id);
  }

  /** While the counter matches the list, marking an unread notification read keeps it matching. */
  lemma MarkReadKeepsCounterInSync(ns: seq<Notification>, id: string, now: int, count: nat)
    requires UniqueIds(ns) && count == Count(ns, IsUnread())
    requires FindById(ns, id).Some? && !FindById(ns, id).value.isRead
    ensures Floored(count) == Count(Map(ns, ReadWhere(id, now)), IsUnread())
  {
    MarkReadCount(ns, id, now);
  }

  /** Marking an already unread notification unread still raises the counter: it then overcounts. */
  lemma MarkUnreadOfUnreadOvercounts(n: Notification)
    requires !n.isRead
    ensures Count([n], IsUnread()) == 1
    ensures Count(Map([n], UnreadWhere(n.id)), IsUnread()) == 1
  {
    var after := Map([n], UnreadWhere(n.id));
    assert after == [n.(readAt := None)];
    assert Filter(after, IsUnread()) == after;
    assert Filter([n], IsUnread()) == [n];
  }

  // ---------- the hook's state ----------

  class NotificationCenter {
    var notifications: seq<Notification>
    var unreadCount: nat
    var error: Option<string>

    constructor()
      ensures notifications == [] && unreadCount == 0 && error.None?
    {
      notifications := [];
      unreadCount := 0;
      error := None;
    }

    /** refetch: clear the error, then take the fetched list or record the failure. */
    method Refetch(fetched: Fetch)
      modifies this
      ensures notifications == Refetched(old(notifications), fetched)
      ensures error == RefetchError(fetched)
      ensures unreadCount == old(unreadCount)
    {
      error := None;
      match fetched {
        case Fetched(list) => notifications := list;
        case FetchFailed(m) => error := Some(m);
      }
    }

    /** fetchUnreadCount: take the backend's count; a failure is only logged. */
    method FetchUnreadCount(fetched: Option<nat>)
      modifies this
      ensures unreadCount == (if fetched.Some? then fetched.value else old(unreadCount))
      ensures notifications == old(notifications) && error == old(error)
    {
      if fetched.Some? {
        unreadCount := fetched.value;
      }
    }

    /** The catch branch shared by every action: record the error, refetch, rethrow. */
    method Failed(message: string, fetched: Fetch)
      modifies this
      ensures notifications == Refetched(old(notifications), fetched)
      ensures error == ErrorAfterFailureAsWritten(message, fetched)
      ensures unreadCount == old(unreadCount)
    {
      error := Some(message);
      Refetch(fetched);
    }

    /** markAsRead: mark it read locally and lower the counter, floored at 0. */
    method MarkAsRead(id: string, callError: Option<string>, now: int, fetched: Fetch) returns (raised: bool)
      modifies this
      ensures raised <==> callError.Some?
      ensures callError.Some? ==> unreadCount == old(unreadCount) && error == ErrorAfterFailureAsWritten(callError.value, fetched) &&
                                  notifications == Refetched(old(notifications), fetched)
      ensures callError.None? ==> unreadCount == Floored(old(unreadCount)) && error == RefetchError(fetched) &&
                                  notifications == Refetched(Map(old(notifications), ReadWhere(id, now)), fetched)
    {
      if callError.Some? {
        Failed(callError.value, fetched);
        return true;
      }
      notifications := Map(notifications, ReadWhere(id, now));
      unreadCount := Floored(unreadCount);
      Refetch(fetched);
      raised := false;
    }

    /** markAsUnread: mark it unread locally and raise the counter, unchecked. */
    method MarkAsUnread(id: string, callError: Option<string>, fetched: Fetch) returns (raised: bool)
      modifies this
      ensures raised <==> callError.Some?
      ensures callError.Some? ==> unreadCount == old(unreadCount) && error == ErrorAfterFailureAsWritten(callError.value, fetched) &&
                                  notifications == Refetched(old(notifications), fetched)
      ensures callError.None? ==> unreadCount == old(unreadCount) + 1 && error == RefetchError(fetched) &&
                                  notifications == Refetched(Map(old(notifications), UnreadWhere(id)), fetched)
    {
      if callError.Some? {
        Failed(callError.value, fetched);
        return true;
      }
      notifications := Map(notifications, UnreadWhere(id));
      unreadCount := unreadCount + 1;
      Refetch(fetched);
      raised := false;
    }

    /** markAllAsRead: everything read, counter 0. */
    method MarkAllAsRead(callError: Option<string>, now: int, fetched: Fetch) returns (raised: bool)
      modifies this
      ensures raised <==> callError.Some?
      ensures callError.Some? ==> unreadCount == old(unreadCount) && error == ErrorAfterFailureAsWritten(callError.value, fetched) &&
                                  notifications == Refetched(old(notifications), fetched)
      ensures callError.None? ==> unreadCount == 0 && error == RefetchError(fetched) &&
                                  notifications == Refetched(Map(old(notifications), ReadAll(now)), fetched)
    {
      if callError.Some? {
        Failed(callError.value, fetched);
        return true;
      }
      notifications := Map(notifications, ReadAll(now));
      unreadCount := 0;
      Refetch(fetched);
      raised := false;
    }

    /** dismiss and remove: drop it locally; lower the counter only if it was listed unread. */
    method Drop(id: string, callError: Option<string>, fetched: Fetch) returns (raised: bool)
      modifies this
      ensures raised <==> callError.Some?
      ensures callError.Some? ==> unreadCount == old(unreadCount) && error == ErrorAfterFailureAsWritten(callError.value, fetched) &&
                                  notifications == Refetched(old(notifications), fetched)
      ensures callError.None? ==> unreadCount == CountAfterDrop(old(unreadCount), old(notifications), id) &&
                                  error == RefetchError(fetched) &&
                                  notifications == Refetched(Without(old(notifications), id), fetched)
    {
      if callError.Some? {
        Failed(callError.value, fetched);
        return true;
      }
      var found := FindById(notifications, id);
      notifications := Without(notifications, id);
      if found.Some? && !found.value.isRead {
        unreadCount := Floored(unreadCount);
      }
      Refetch(fetched);
      raised := false;
    }

    /** restore: clear the dismissed flag of that notification only. */
    method Restore(id: string, callError: Option<string>, fetched: Fetch) returns (raised: bool)
      modifies this
      ensures raised <==> callError.Some?
      ensures callError.Some? ==> unreadCount == old(unreadCount) && error == ErrorAfterFailureAsWritten(callError.value, fetched) &&
                                  notifications == Refetched(old(notifications), fetched)
      ensures callError.None? ==> unreadCount == old(unreadCount) && error == RefetchError(fetched) &&
                                  notifications == Refetched(Map(old(notifications), RestoreWhere(id)), fetched)
    {
      if callError.Some? {
        Failed(callError.value, fetched);
        return true;
      }
      notifications := Map(notifications, RestoreWhere(id));
      Refetch(fetched);
      raised := false;
    }

    /** completeActivity: mark it read; lower the counter only if it was listed unread. */
    method CompleteActivity(id: string, callError: Option<string>, now: int, fetched: Fetch) returns (raised: bool)
      modifies this
      ensures raised <==> callError.Some?
      ensures callError.Some? ==> unreadCount == old(unreadCount) && error == ErrorAfterFailureAsWritten(callError.value, fetched) &&
                                  notifications == Refetched(old(notifications), fetched)
      ensures callError.None? ==> unreadCount == CountAfterDrop(old(unreadCount), old(notifications), id) &&
                                  error == RefetchError(fetched) &&
                                  notifications == Refetched(Map(old(notifications), ReadWhere(id, now)), fetched)
    {
      if callError.Some? {
        Failed(callError.value, fetched);
        return true;
      }
      var found := FindById(notifications, id);
      notifications := Map(notifications, ReadWhere(id, now));
      if found.Some? && !found.value.isRead {
        unreadCount := Floored(unreadCount);
      }
      Refetch(fetched);
      raised := false;
    }
  }
}
