/**
 * The calendar activity list hook: the list, the loading flag and the
 * error text, with the local update each API call makes on success.
 *
 * The API is external: each operation gets the call's outcome. A thrown
 * value that is an Error carries its message; any other thrown value falls
 * back to the operation's fixed text.
 */
module ActivityStore {
  import opened Wrappers
  import opened Strings
  import opened Seqs
  import CalendarTypes

  /** An activity as the backend returns it; `date` is "YYYY-MM-DD" and `time` "HH:MM:SS". */
  datatype StoredActivity = StoredActivity(
    id: string,
    userId: string,
    title: string,
    date: string,
    time: string,
    kind: CalendarTypes.ActivityType,
    location: Option<string>,
    isCompleted: bool,
    completedAt: Option<string>,
    createdAt: string,
    updatedAt: string)

  /** The outcome of an API call: its value, or a throw (with the Error's message when it is one). */
  datatype Call<T> = Done(value: T) | Thrown(message: Option<string>)

  /** `err instanceof Error ? err.message : fallback`. */
  function ErrorText(message: Option<string>, fallback: string): (r: string)
    ensures message.Some? ==> r == message.value
    ensures message.None? ==> r == fallback
  {
    if message.Some? then message.value else fallback
  }

  // ---------- the list updates ----------

  /** The create sort: by date, then by time, both compared as text. */
  function ByDateTime(): (StoredActivity, StoredActivity) -> bool
  {
    (a: StoredActivity, b: StoredActivity) => if a.date == b.date then LexLe(a.time, b.time) else LexLe(a.date, b.date)
  }

  lemma ByDateTimeIsTotalPreorder()
    ensures TotalPreorder(ByDateTime())
  {
    var before := ByDateTime();
    forall a, b ensures before(a, b) || before(b, a) {
      LexLeTotal(a.time, b.time);
      LexLeTotal(a.date, b.date);
    }
    forall a, b, c | before(a, b) && before(b, c) ensures before(a, c) {
      ByDateTimeTrans(a, b, c);
    }
  }

  lemma ByDateTimeTrans(a: StoredActivity, b: StoredActivity, c: StoredActivity)
    requires ByDateTime()(a, b) && ByDateTime()(b, c)
    ensures ByDateTime()(a, c)
  {
    if a.date == b.date && b.date == c.date {
      LexLeTrans(a.time, b.time, c.time);
    } else if a.date != b.date && b.date != c.date {
      LexLeTrans(a.date, b.date, c.date);
      if a.date == c.date {
        LexLeAntisym(a.date, b.date);
      }
    }
  }

  /** createNewActivity's update: append, then sort by date and time. */
  function Inserted(prev: seq<StoredActivity>, x: StoredActivity): (r: seq<StoredActivity>)
    ensures SortedBy(r, ByDateTime())
    ensures multiset(r) == multiset(prev) + multiset{x}
    ensures |r| == |prev| + 1
  {
    ByDateTimeIsTotalPreorder();
    assert multiset(prev + [x]) == multiset(prev) + multiset{x};
    SortBy(prev + [x], ByDateTime())
  }

  /** The created activity is listed, and so is every activity listed before. */
  lemma InsertedKeepsAll(prev: seq<StoredActivity>, x: StoredActivity)
    ensures x in Inserted(prev, x)
    ensures forall a :: a in prev ==> a in Inserted(prev, x)
  {
    var r := Inserted(prev, x);
    assert x in multiset(r);
    forall a | a in prev ensures a in r {
      assert a in multiset(prev);
      assert a in multiset(r);
    }
  }

  function ReplaceWhere(id: string, updated: StoredActivity): StoredActivity -> StoredActivity
  {
    (a: StoredActivity) => if a.id == id then updated else a
  }

  /** updateExistingActivity's and markComplete's update: the activity with that id becomes the returned one. */
  function Replaced(prev: seq<StoredActivity>, id: string, updated: StoredActivity): (r: seq<StoredActivity>)
    ensures |r| == |prev|
    ensures forall k :: 0 <= k < |prev| ==> r[k] == (if prev[k].id == id then updated else prev[k])
  {
    Map(prev, ReplaceWhere(id, updated))
  }

  function IdIsNot(id: string): StoredActivity -> bool
  {
    (a: StoredActivity) => a.id != id
  }

  /** removeActivity's update: drop that id, keep the rest. */
  function Removed(prev: seq<StoredActivity>, id: string): (r: seq<StoredActivity>)
    ensures forall a :: a in r <==> a in prev && a.id != id
  {
    Filter(prev, IdIsNot(id))
  }

  /** Removing an id that is not listed changes nothing. */
  lemma RemoveAbsentIsNoop(prev: seq<StoredActivity>, id: string)
    requires forall a :: a in prev ==> a.id != id
    ensures Removed(prev, id) == prev
  {
    FilterAll(prev, IdIsNot(id));
  }

  /** Replacing an id that is not listed changes nothing. */
  lemma ReplaceAbsentIsNoop(prev: seq<StoredActivity>, id: string, updated: StoredActivity)
    requires forall a :: a in prev ==> a.id != id
    ensures Replaced(prev, id, updated) == prev
  {
    var r := Replaced(prev, id, updated);
    forall k | 0 <= k < |prev| ensures r[k] == prev[k] {
      assert prev[k] in prev;
    }
  }

  // ---------- the hook's state ----------

  class Activities {
    var activities: seq<StoredActivity>
    var loading: bool
    var error: Option<string>

    constructor()
      ensures activities == [] && loading && error.None?
    {
      activities := [];
      loading := true;
      error := None;
    }

    /** refetch: take the fetched list, or keep the list and record the error; loading ends either way. */
    method Refetch(fetched: Call<seq<StoredActivity>>)
      modifies this
      ensures !loading
      ensures fetched.Done? ==> activities == fetched.value && error.None?
      ensures fetched.Thrown? ==> activities == old(activities) &&
                                  error == Some(ErrorText(fetched.message, "Failed to fetch activities"))
    {
      loading := true;
      error := None;
      match fetched {
        case Done(list) => activities := list;
        case Thrown(m) => error := Some(ErrorText(m, "Failed to fetch activities"));
      }
      loading := false;
    }

    /** createNewActivity: on success insert in date-time order and return it; on failure set the error and rethrow. */
    method Create(created: Call<StoredActivity>) returns (r: Option<StoredActivity>)
      modifies this
      ensures r.Some? <==> created.Done?
      ensures created.Done? ==> r.value == created.value && error.None? &&
                                activities == Inserted(old(activities), created.value)
      ensures created.Thrown? ==> activities == old(activities) &&
                                  error == Some(ErrorText(created.message, "Failed to create activity"))
      ensures loading == old(loading)
    {
      error := None;
      match created {
        case Done(a) =>
          activities := Inserted(activities, a);
          r := Some(a);
        case Thrown(m) =>
          error := Some(ErrorText(m, "Failed to create activity"));
          r := None;
      }
    }

    /** updateExistingActivity: on success replace that id by the returned activity. */
    method Update(id: string, updated: Call<StoredActivity>) returns (r: Option<StoredActivity>)
      modifies this
      ensures r.Some? <==> updated.Done?
      ensures updated.Done? ==> r.value == updated.value && error.None? &&
                                activities == Replaced(old(activities), id, updated.value)
      ensures updated.Thrown? ==> activities == old(activities) &&
                                  error == Some(ErrorText(updated.message, "Failed to update activity"))
      ensures loading == old(loading)
    {
      error := None;
      match updated {
        case Done(a) =>
          activities := Replaced(activities, id, a);
          r := Some(a);
        case Thrown(m) =>
          error := Some(ErrorText(m, "Failed to update activity"));
          r := None;
      }
    }

    /** markComplete: on success replace that id by the returned activity. */
    method MarkComplete(id: string, updated: Call<StoredActivity>) returns (r: Option<StoredActivity>)
      modifies this
      ensures r.Some? <==> updated.Done?
      ensures updated.Done? ==> r.value == updated.value && error.None? &&
                                activities == Replaced(old(activities), id, updated.value)
      ensures updated.Thrown? ==> activities == old(activities) &&
                                  error == Some(ErrorText(updated.message, "Failed to mark activity as completed"))
      ensures loading == old(loading)
    {
      error := None;
      match updated {
        case Done(a) =>
          activities := Replaced(activities, id, a);
          r := Some(a);
        case Thrown(m) =>
          error := Some(ErrorText(m, "Failed to mark activity as completed"));
          r := None;
      }
    }

    /** removeActivity: on success drop that id; returns whether the call threw. */
    method Remove(id: string, deleted: Call<()>) returns (raised: bool)
      modifies this
      ensures raised <==> deleted.Thrown?
      ensures deleted.Done? ==> error.None? && activities == Removed(old(activities), id)
      ensures deleted.Thrown? ==> activities == old(activities) &&
                                  error == Some(ErrorText(deleted.message, "Failed to delete activity"))
      ensures loading == old(loading)
    {
      error := None;
      match deleted {
        case Done(_) =>
          activities := Removed(activities, id);
          raised := false;
        case Thrown(m) =>
          error := Some(ErrorText(m, "Failed to delete activity"));
          raised := true;
      }
    }
  }
}
