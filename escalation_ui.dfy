/**
 * The escalated-ticket board of the admin view: the ticket list state and
 * its updates, the filters, the per-ticket actions, the statistics and the
 * escalation badge shown on a conversation.
 *
 * Times are milliseconds since the epoch, passed in (`new Date()`); the
 * ISO rendering of resolvedAt is not modelled.
 */
module EscalationUi {
  import opened Wrappers
  import opened Strings
  import opened Seqs

  datatype Status = Pending | InProgress | Resolved | Closed
  datatype Priority = Low | Medium | High | Urgent
  datatype Category = Academic | Technical | Administrative | General

  datatype Ticket = Ticket(
    id: string,
    originalQuestion: string,
    category: Category,
    status: Status,
    priority: Priority,
    assignedToAdmin: Option<string>,
    resolution: Option<string>,
    resolvedAt: Option<int>)

  /** A filter value: 'all', or one value of the field. */
  datatype Choice<T> = All | Only(value: T)

  /** `!!ticket.assignedToAdmin`: set and not empty. */
  predicate Assigned(t: Ticket)
  {
    t.assignedToAdmin.Some? && t.assignedToAdmin.value != ""
  }

  // ---------- useEscalation: the list updaters ----------

  /** The updater of handleTakeTicket. */
  function TakeWhere(id: string, admin: string): Ticket -> Ticket
  {
    (t: Ticket) => if t.id == id then t.(assignedToAdmin := Some(admin), status := InProgress) else t
  }

  /** The updater of handleUpdateStatus: resolvedAt is stamped only when closing. */
  function StatusWhere(id: string, s: Status, now: int): Ticket -> Ticket
  {
    (t: Ticket) =>
      if t.id != id then t
      else if s == Closed then t.(status := s, resolvedAt := Some(now))
      else t.(status := s)
  }

  /** The updater of handleAddResolution. */
  function ResolutionWhere(id: string, text: string, now: int): Ticket -> Ticket
  {
    (t: Ticket) => if t.id == id then t.(resolution := Some(text), resolvedAt := Some(now)) else t
  }

  /** Taking a ticket assigns it to the admin and puts it in progress; every other ticket stays as it was. */
  lemma TakeTicketEffect(ts: seq<Ticket>, id: string, admin: string)
    ensures |Map(ts, TakeWhere(id, admin))| == |ts|
    ensures forall k :: 0 <= k < |ts| && ts[k].id == id ==>
      Map(ts, TakeWhere(id, admin))[k].assignedToAdmin == Some(admin) &&
      Map(ts, TakeWhere(id, admin))[k].status == InProgress &&
      Map(ts, TakeWhere(id, admin))[k].(assignedToAdmin := ts[k].assignedToAdmin, status := ts[k].status) == ts[k]
    ensures forall k :: 0 <= k < |ts| && ts[k].id != id ==> Map(ts, TakeWhere(id, admin))[k] == ts[k]
  {
  }

  /** A status update touches only the matching ticket, and stamps resolvedAt exactly when closing. */
  lemma UpdateStatusEffect(ts: seq<Ticket>, id: string, s: Status, now: int)
    ensures |Map(ts, StatusWhere(id, s, now))| == |ts|
    ensures forall k :: 0 <= k < |ts| && ts[k].id == id ==>
      Map(ts, StatusWhere(id, s, now))[k].status == s &&
      Map(ts, StatusWhere(id, s, now))[k].resolvedAt == (if s == Closed then Some(now) else ts[k].resolvedAt)
    ensures forall k :: 0 <= k < |ts| && ts[k].id != id ==> Map(ts, StatusWhere(id, s, now))[k] == ts[k]
  {
  }

  /** Adding a resolution records the text and the time on the matching ticket only. */
  lemma AddResolutionEffect(ts: seq<Ticket>, id: string, text: string, now: int)
    ensures |Map(ts, ResolutionWhere(id, text, now))| == |ts|
    ensures forall k :: 0 <= k < |ts| && ts[k].id == id ==>
      Map(ts, ResolutionWhere(id, text, now))[k] == ts[k].(resolution := Some(text), resolvedAt := Some(now))
    ensures forall k :: 0 <= k < |ts| && ts[k].id != id ==> Map(ts, ResolutionWhere(id, text, now))[k] == ts[k]
  {
  }

  /** The `tickets` state of useEscalation. */
  class TicketBoard {
    var tickets: seq<Ticket>

    constructor(initial: seq<Ticket>)
      ensures tickets == initial
    {
      tickets := initial;
    }

    method TakeTicket(id: string, admin: string)
      modifies this
      ensures tickets == Map(old(tickets), TakeWhere(id, admin))
    {
      tickets := Map(tickets, TakeWhere(id, admin));
    }

    method UpdateStatus(id: string, s: Status, now: int)
      modifies this
      ensures tickets == Map(old(tickets), StatusWhere(id, s, now))
    {
      tickets := Map(tickets, StatusWhere(id, s, now));
    }

    method AddResolution(id: string, text: string, now: int)
      modifies this
      ensures tickets == Map(old(tickets), ResolutionWhere(id, text, now))
    {
      tickets := Map(tickets, ResolutionWhere(id, text, now));
    }

    /** The callbacks a ticket card invokes, applied in order. */
    method Apply(calls: seq<CardCall>, admin: string, now: int)
      modifies this
      ensures tickets == Applied(old(tickets), calls, admin, now)
    {
      ghost var start := tickets;
      var i := 0;
      while i < |calls|
        invariant 0 <= i <= |calls|
        invariant tickets == Applied(start, calls[..i], admin, now)
      {
        ghost var prev := tickets;
        match calls[i] {
          case TakeCall(id) => TakeTicket(id, admin);
          case StatusCall(id, s) => UpdateStatus(id, s, now);
          case ResolutionCall(id, text) => AddResolution(id, text, now);
        }
        assert tickets == AppliedOne(prev, calls[i], admin, now);
        assert calls[..i + 1][..i] == calls[..i];
        i := i + 1;
      }
      assert calls[..|calls|] == calls;
    }
  }

  // ---------- filterTickets ----------

  predicate Picks<T(==)>(c: Choice<T>, v: T)
  {
    c.All? || c.value == v
  }

  function MatchesFilters(sf: Choice<Status>, pf: Choice<Priority>, cf: Choice<Category>): Ticket -> bool
  {
    (t: Ticket) => Picks(sf, t.status) && Picks(pf, t.priority) && Picks(cf, t.category)
  }

  /** filterTickets: the tickets each filter admits, in list order. */
  function FilterTickets(ts: seq<Ticket>, sf: Choice<Status>, pf: Choice<Priority>, cf: Choice<Category>): (r: seq<Ticket>)
    ensures forall t :: t in r <==> t in ts && Picks(sf, t.status) && Picks(pf, t.priority) && Picks(cf, t.category)
    ensures |r| <= |ts|
  {
    Filter(ts, MatchesFilters(sf, pf, cf))
  }

  /** With every filter on 'all' the whole list comes back. */
  lemma FilterAllChoicesIsIdentity(ts: seq<Ticket>)
    ensures FilterTickets(ts, All, All, All) == ts
  {
    FilterAll(ts, MatchesFilters(All, All, All));
  }

  // ---------- EscalatedTicketCard ----------

  predicate CanTake(t: Ticket)
  {
    t.status == Pending && !Assigned(t)
  }

  predicate CanUpdate(t: Ticket, admin: string)
  {
    t.assignedToAdmin == Some(admin) || t.status == Pending
  }

  datatype Action = TakeAction | MarkInProgressAction | ResolveFormAction | CloseAction

  /** The action buttons of a ticket card, in the order they are rendered. */
  function Actions(t: Ticket, admin: string): seq<Action>
  {
    (if CanTake(t) then [TakeAction] else []) +
    (if CanUpdate(t, admin) && t.status == Pending && Assigned(t) then [MarkInProgressAction] else []) +
    (if CanUpdate(t, admin) && t.status == InProgress then [ResolveFormAction] else []) +
    (if CanUpdate(t, admin) && t.status == Resolved then [CloseAction] else [])
  }

  /** The actions a card offers, status by status. */
  lemma ActionsByStatus(t: Ticket, admin: string)
    ensures t.status == Pending && !Assigned(t) ==> Actions(t, admin) == [TakeAction]
    ensures t.status == Pending && Assigned(t) ==> Actions(t, admin) == [MarkInProgressAction]
    ensures t.status == InProgress ==>
      Actions(t, admin) == (if t.assignedToAdmin == Some(admin) then [ResolveFormAction] else [])
    ensures t.status == Resolved ==>
      Actions(t, admin) == (if t.assignedToAdmin == Some(admin) then [CloseAction] else [])
    ensures t.status == Closed ==> Actions(t, admin) == []
    ensures |Actions(t, admin)| <= 1
  {
  }

  /** A callback a card invokes on the board. */
  datatype CardCall = TakeCall(id: string) | StatusCall(id: string, s: Status) | ResolutionCall(id: string, text: string)

  /** The effect of a sequence of card callbacks on the ticket list. */
  function Applied(ts: seq<Ticket>, calls: seq<CardCall>, admin: string, now: int): seq<Ticket>
    decreases |calls|
  {
    if calls == [] then ts
    else AppliedOne(Applied(ts, calls[..|calls| - 1], admin, now), calls[|calls| - 1], admin, now)
  }

  /** The list after one callback. */
  function AppliedOne(ts: seq<Ticket>, call: CardCall, admin: string, now: int): seq<Ticket>
  {
    match call
    case TakeCall(id) => Map(ts, TakeWhere(id, admin))
    case StatusCall(id, s) => Map(ts, StatusWhere(id, s, now))
    case ResolutionCall(id, text) => Map(ts, ResolutionWhere(id, text, now))
  }

  /** handleSubmitResolution: nothing for blank text; else add the resolution, then mark resolved. */
  function SubmitResolution(t: Ticket, text: string): (calls: seq<CardCall>)
    ensures IsBlank(text) <==> calls == []
  {
    TrimEmptyIffBlank(text);
    if Trim(text) != "" then [ResolutionCall(t.id, text), StatusCall(t.id, Resolved)] else []
  }

  /** Submitting a non-blank resolution leaves the ticket resolved and holding that text. */
  lemma SubmitResolutionResolves(ts: seq<Ticket>, t: Ticket, text: string, admin: string, now: int)
    requires !IsBlank(text)
    ensures |Applied(ts, SubmitResolution(t, text), admin, now)| == |ts|
    ensures forall k :: 0 <= k < |ts| && ts[k].id == t.id ==>
      Applied(ts, SubmitResolution(t, text), admin, now)[k] ==
        ts[k].(resolution := Some(text), resolvedAt := Some(now), status := Resolved)
    ensures forall k :: 0 <= k < |ts| && ts[k].id != t.id ==> Applied(ts, SubmitResolution(t, text), admin, now)[k] == ts[k]
  {
    TrimEmptyIffBlank(text);
    var calls := SubmitResolution(t, text);
    assert calls == [ResolutionCall(t.id, text), StatusCall(t.id, Resolved)];
    assert calls[..1] == [ResolutionCall(t.id, text)];
    assert calls[..1][..0] == [];
    var once := Map(ts, ResolutionWhere(t.id, text, now));
    assert Applied(ts, calls[..1], admin, now) == once;
    assert Applied(ts, calls, admin, now) == Map(once, StatusWhere(t.id, Resolved, now));
  }

  const QuestionPreview: nat := 150

  /** The collapsed question: its first 150 characters, then "..." only when it is longer. */
  function CollapsedQuestion(q: string): (r: string)
    ensures |q| <= QuestionPreview ==> r == q
    ensures |q| > QuestionPreview ==> |r| == QuestionPreview + 3 && r[..QuestionPreview] == q[..QuestionPreview] &&
                                       r[QuestionPreview..] == "..."
  {
    Take(q, QuestionPreview) + (if |q| > QuestionPreview then "..." else "")
  }

  // ---------- EscalationStats and EscalationFilters ----------

  function StatusIs(s: Status): Ticket -> bool { (t: Ticket) => t.status == s }
  function PriorityIs(p: Priority): Ticket -> bool { (t: Ticket) => t.priority == p }

  /** Every ticket has exactly one of the four statuses. */
  lemma {:induction false} StatusCountsPartition(ts: seq<Ticket>)
    ensures Count(ts, StatusIs(Pending)) + Count(ts, StatusIs(InProgress)) +
            Count(ts, StatusIs(Resolved)) + Count(ts, StatusIs(Closed)) == |ts|
  {
    if ts != [] { StatusCountsPartition(ts[1..]); }
  }

  /** Every ticket has exactly one of the four priorities. */
  lemma {:induction false} PriorityCountsPartition(ts: seq<Ticket>)
    ensures Count(ts, PriorityIs(Urgent)) + Count(ts, PriorityIs(High)) +
            Count(ts, PriorityIs(Medium)) + Count(ts, PriorityIs(Low)) == |ts|
  {
    if ts != [] { PriorityCountsPartition(ts[1..]); }
  }

  /** The counters of the filter panel. */
  datatype Counts = Counts(all: nat, pending: nat, inProgress: nat, resolved: nat, closed: nat,
                           urgent: nat, high: nat, medium: nat, low: nat)

  function FilterCounts(ts: seq<Ticket>): (c: Counts)
    ensures c.all == |ts|
    ensures c.pending + c.inProgress + c.resolved + c.closed == c.all
    ensures c.urgent + c.high + c.medium + c.low == c.all
  {
    StatusCountsPartition(ts);
    PriorityCountsPartition(ts);
    Counts(|ts|, Count(ts, StatusIs(Pending)), Count(ts, StatusIs(InProgress)), Count(ts, StatusIs(Resolved)),
           Count(ts, StatusIs(Closed)), Count(ts, PriorityIs(Urgent)), Count(ts, PriorityIs(High)),
           Count(ts, PriorityIs(Medium)), Count(ts, PriorityIs(Low)))
  }

  /** A filter button: the choice its click passes back, and whether it is drawn as the active one. */
  datatype FilterButton<T> = FilterButton(choice: Choice<T>, active: bool)

  /** Where a status choice's button sits in its row. */
  function StatusIndex(c: Choice<Status>): (i: nat)
    ensures i < 5
  {
    match c
    case All => 0
    case Only(Pending) => 1
    case Only(InProgress) => 2
    case Only(Resolved) => 3
    case Only(Closed) => 4
  }

  /** The status buttons in page order. */
  function StatusChoices(): (r: seq<Choice<Status>>)
    ensures |r| == 5
    ensures forall c: Choice<Status> :: r[StatusIndex(c)] == c
    ensures forall i, j :: 0 <= i < j < |r| ==> r[i] != r[j]
  {
    [All, Only(Pending), Only(InProgress), Only(Resolved), Only(Closed)]
  }

  /** Where a priority choice's button sits in its row. */
  function PriorityIndex(c: Choice<Priority>): (i: nat)
    ensures i < 5
  {
    match c
    case All => 0
    case Only(Urgent) => 1
    case Only(High) => 2
    case Only(Medium) => 3
    case Only(Low) => 4
  }

  /** The priority buttons in page order. */
  function PriorityChoices(): (r: seq<Choice<Priority>>)
    ensures |r| == 5
    ensures forall c: Choice<Priority> :: r[PriorityIndex(c)] == c
    ensures forall i, j :: 0 <= i < j < |r| ==> r[i] != r[j]
  {
    [All, Only(Urgent), Only(High), Only(Medium), Only(Low)]
  }

  /** Where a category choice's button sits in its row. */
  function CategoryIndex(c: Choice<Category>): (i: nat)
    ensures i < 5
  {
    match c
    case All => 0
    case Only(Academic) => 1
    case Only(Technical) => 2
    case Only(Administrative) => 3
    case Only(General) => 4
  }

  /** The category buttons in page order. */
  function CategoryChoices(): (r: seq<Choice<Category>>)
    ensures |r| == 5
    ensures forall c: Choice<Category> :: r[CategoryIndex(c)] == c
    ensures forall i, j :: 0 <= i < j < |r| ==> r[i] != r[j]
  {
    [All, Only(Academic), Only(Technical), Only(Administrative), Only(General)]
  }

  /** One button per choice, active when its choice is the current filter. */
  function FilterButtons<T(==)>(choices: seq<Choice<T>>, selected: Choice<T>): (r: seq<FilterButton<T>>)
    ensures |r| == |choices|
    ensures forall i :: 0 <= i < |r| ==> r[i].choice == choices[i]
    ensures forall i :: 0 <= i < |r| ==> (r[i].active <==> choices[i] == selected)
  {
    if choices == [] then []
    else [FilterButton(choices[0], choices[0] == selected)] + FilterButtons(choices[1..], selected)
  }

  /** Over choices that are distinct and cover every value, exactly one button is active. */
  lemma ExactlyOneActive<T>(choices: seq<Choice<T>>, selected: Choice<T>)
    requires selected in choices
    requires forall i, j :: 0 <= i < j < |choices| ==> choices[i] != choices[j]
    ensures exists i :: 0 <= i < |choices| && FilterButtons(choices, selected)[i].active
    ensures forall i, j :: 0 <= i < j < |choices| ==>
      !(FilterButtons(choices, selected)[i].active && FilterButtons(choices, selected)[j].active)
  {
    var r := FilterButtons(choices, selected);
    var k :| 0 <= k < |choices| && choices[k] == selected;
    assert r[k].active;
  }

  /** On each filter row of the panel a button is active, whatever the current filters (and only one, by ExactlyOneActive). */
  lemma PanelHighlightsOne(sf: Choice<Status>, pf: Choice<Priority>, cf: Choice<Category>)
    ensures exists i :: 0 <= i < 5 && FilterButtons(StatusChoices(), sf)[i].active
    ensures exists i :: 0 <= i < 5 && FilterButtons(PriorityChoices(), pf)[i].active
    ensures exists i :: 0 <= i < 5 && FilterButtons(CategoryChoices(), cf)[i].active
  {
    assert StatusChoices()[StatusIndex(sf)] == sf;
    ExactlyOneActive(StatusChoices(), sf);
    assert PriorityChoices()[PriorityIndex(pf)] == pf;
    ExactlyOneActive(PriorityChoices(), pf);
    assert CategoryChoices()[CategoryIndex(cf)] == cf;
    ExactlyOneActive(CategoryChoices(), cf);
  }

  /** Clicking a status button filters the list to that button's tickets, keeping the other filters. */
  lemma ClickStatusButton(ts: seq<Ticket>, i: nat, sf: Choice<Status>, pf: Choice<Priority>, cf: Choice<Category>)
    requires i < 5
    ensures var c := FilterButtons(StatusChoices(), sf)[i].choice;
      forall t :: t in FilterTickets(ts, c, pf, cf) <==> t in FilterTickets(ts, All, pf, cf) && Picks(c, t.status)
  {
  }

  /** `Math.round(resolved / total * 100)`, or 0 without tickets: the nearest percentage, halves up. */
  function ResolutionRate(resolved: nat, total: nat): (rate: nat)
    requires resolved <= total
    ensures total == 0 ==> rate == 0
    ensures total > 0 ==> 2 * total * rate <= 200 * resolved + total < 2 * total * (rate + 1)
    ensures rate <= 100
  {
    if total == 0 then 0
    else
      var n, d := 200 * resolved + total, 2 * total;
      DivBounds(n, d);
      assert n < d * 101;
      n / d
  }

  /** The quotient of a division is the largest m with d * m <= n, and lies below any bound b with n < d * b. */
  lemma DivBounds(n: nat, d: nat)
    requires d > 0
    ensures d * (n / d) <= n < d * (n / d + 1)
    ensures forall b: nat :: n < d * b ==> n / d < b
  {
    var q, r := n / d, n % d;
    assert n == d * q + r && 0 <= r < d;
    forall b: nat | n < d * b ensures q < b {
      assert d * (b - q) == d * b - d * q > 0;
    }
  }

  /** The cards of the statistics panel. */
  datatype Stats = Stats(total: nat, pending: nat, inProgress: nat, resolved: nat, urgent: nat, rate: nat)

  function EscalationStats(ts: seq<Ticket>): (s: Stats)
    ensures s.total == |ts|
    ensures s.pending + s.inProgress + s.resolved <= s.total
    ensures s.pending + s.inProgress + s.resolved == s.total - Count(ts, StatusIs(Closed))
    ensures s.rate <= 100
  {
    var c := FilterCounts(ts);
    Stats(|ts|, c.pending, c.inProgress, c.resolved, c.urgent, ResolutionRate(c.resolved, |ts|))
  }

  // ---------- EscalationBadge ----------

  /** The escalation status of a conversation as the badge reads it. */
  datatype EscalationStatus = EscalationStatus(isEscalated: bool, resolved: bool, requestStatus: Option<string>)

  datatype Badge = Resuelta | EnProceso | Pendiente | Escalada

  /** The badge: none unless escalated; resolved wins; then in progress; then pending or no request. */
  function BadgeFor(status: Option<EscalationStatus>): (b: Option<Badge>)
    ensures b.None? <==> status.None? || !status.value.isEscalated
    ensures b == Some(Resuelta) <==> status.Some? && status.value.isEscalated && status.value.resolved
    ensures b == Some(EnProceso) <==> status.Some? && status.value.isEscalated && !status.value.resolved &&
                                      status.value.requestStatus == Some("in_progress")
    ensures b == Some(Pendiente) <==> status.Some? && status.value.isEscalated && !status.value.resolved &&
                                      (status.value.requestStatus.None? || status.value.requestStatus == Some("pending"))
  {
    if status.None? || !status.value.isEscalated then None
    else if status.value.resolved then Some(Resuelta)
    else if status.value.requestStatus == Some("in_progress") then Some(EnProceso)
    else if status.value.requestStatus == Some("pending") || status.value.requestStatus.None? then Some(Pendiente)
    else Some(Escalada)
  }
}
