/**
 * The filter bar of the notifications page: the count shown on each tab
 * and the six tab buttons.
 */
module NotificationFilters {
  import opened Wrappers
  import opened Seqs
  import G = NotificationGenerator

  datatype Tab = All | Unread | Overdue | Upcoming | Completed | Dismissed

  datatype Color = Red | Orange | Green | Slate

  /** A tab button: the tab it selects, its text, its count and its accent colour (None for the default blue). */
  datatype Button = Button(tab: Tab, text: string, count: nat, color: Option<Color>)

  datatype Counts = Counts(all: nat, unread: nat, overdue: nat, upcoming: nat, completed: nat, dismissed: nat)

  function IsUnread(): G.Notice -> bool { (n: G.Notice) => !n.isRead }
  function KindIs(k: G.Kind): G.Notice -> bool { (n: G.Notice) => n.kind == k }
  function Soon(): G.Notice -> bool { (n: G.Notice) => n.kind == G.Upcoming || n.kind == G.Reminder }

  /** filterCounts: the list size, the unread ones, each kind (reminders count as upcoming), and the dismissed count as given. */
  function FilterCounts(ns: seq<G.Notice>, dismissedCount: nat): (c: Counts)
    ensures c.all == |ns| && c.dismissed == dismissedCount
    ensures c.unread == Count(ns, IsUnread()) && c.unread <= c.all
    ensures c.overdue == Count(ns, KindIs(G.Kind.Overdue)) && c.completed == Count(ns, KindIs(G.Kind.Completed))
    ensures c.upcoming == Count(ns, KindIs(G.Upcoming)) + Count(ns, KindIs(G.Reminder))
    ensures c.overdue + c.upcoming + c.completed == c.all
  {
    var c := Counts(|ns|, Count(ns, IsUnread()), Count(ns, KindIs(G.Kind.Overdue)), Count(ns, Soon()),
                    Count(ns, KindIs(G.Kind.Completed)), dismissedCount);
    CountDisjointUnion(ns, KindIs(G.Upcoming), KindIs(G.Reminder), Soon());
    KindsPartition(ns);
    c
  }

  /** Every notification is overdue, upcoming-or-reminder, or completed, and only one of them. */
  lemma {:induction false} KindsPartition(ns: seq<G.Notice>)
    ensures Count(ns, KindIs(G.Kind.Overdue)) + Count(ns, Soon()) + Count(ns, KindIs(G.Kind.Completed)) == |ns|
  {
    if ns != [] {
      KindsPartition(ns[1..]);
      assert ns == [ns[0]] + ns[1..];
      FilterConcat([ns[0]], ns[1..], KindIs(G.Kind.Overdue));
      FilterConcat([ns[0]], ns[1..], Soon());
      FilterConcat([ns[0]], ns[1..], KindIs(G.Kind.Completed));
    }
  }

  /** filterButtons, in page order. */
  function Buttons(c: Counts): (r: seq<Button>)
    ensures |r| == 6
    ensures forall i :: 0 <= i < |r| ==> Position(r[i].tab) == i
    ensures forall t: Tab :: r[Position(t)].tab == t
    ensures forall i :: 0 <= i < |r| ==> r[i].count == CountOf(c, r[i].tab)
  {
    [
      Button(All, "Todas", c.all, None),
      Button(Unread, "No leídas", c.unread, None),
      Button(Overdue, "Vencidas", c.overdue, Some(Red)),
      Button(Upcoming, "Próximas", c.upcoming, Some(Orange)),
      Button(Completed, "Completadas", c.completed, Some(Green)),
      Button(Dismissed, "Descartadas", c.dismissed, Some(Slate))]
  }

  /** Where a tab's button stands in the bar. */
  function Position(t: Tab): (i: nat)
    ensures i < 6
  {
    match t
    case All => 0
    case Unread => 1
    case Overdue => 2
    case Upcoming => 3
    case Completed => 4
    case Dismissed => 5
  }

  /** The six buttons select six different tabs, so no two buttons share a key. */
  lemma ButtonTabsDistinct(c: Counts)
    ensures forall i, j :: 0 <= i < j < 6 ==> Buttons(c)[i].tab != Buttons(c)[j].tab
  {
  }

  /** The count a tab shows. */
  function CountOf(c: Counts, t: Tab): nat
  {
    match t
    case All => c.all
    case Unread => c.unread
    case Overdue => c.overdue
    case Upcoming => c.upcoming
    case Completed => c.completed
    case Dismissed => c.dismissed
  }

  /** A click calls setFilter with the button's own tab. */
  function Click(b: Button): Tab
  {
    b.tab
  }

  /** The button highlights when its tab is the current filter. */
  predicate Highlighted(filter: Tab, b: Button)
  {
    filter == b.tab
  }

  /** Whatever the current filter, exactly one button is highlighted, and clicking it selects that filter again. */
  lemma ExactlyOneHighlighted(filter: Tab, c: Counts)
    ensures exists i :: 0 <= i < 6 && Highlighted(filter, Buttons(c)[i]) && Click(Buttons(c)[i]) == filter &&
                        forall j :: 0 <= j < 6 && j != i ==> !Highlighted(filter, Buttons(c)[j])
  {
    var i := Position(filter);
    assert Buttons(c)[i].tab == filter;
    forall j | 0 <= j < 6 && j != i ensures !Highlighted(filter, Buttons(c)[j]) {
      assert Position(Buttons(c)[j].tab) == j;
    }
  }
}
