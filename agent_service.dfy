/**
 * agent_service.py: the queue of escalated requests, claiming (assign), resolving and
 * posting as an agent. A request moves only forward: pending -> in_progress -> resolved.
 */
module AgentService {
  import opened Wrappers
  import opened Seqs
  import opened ChatTables

  function StatusRank(s: RequestStatus): nat
  {
    match s
    case Pending => 0
    case InProgress => 1
    case Resolved => 2
  }

  // ---------- listing ----------

  /** The listing filter: every pending request, plus the in-progress ones of this agent. */
  predicate Visible(q: AgentRequest, agentId: string)
  {
    q.status == Pending || (q.status == InProgress && q.agentId == Some(agentId))
  }

  function VisibleTo(agentId: string): AgentRequest -> bool
  {
    (q: AgentRequest) => Visible(q, agentId)
  }

  predicate CreatedDesc(a: AgentRequest, b: AgentRequest) { a.createdAt >= b.createdAt }

  lemma CreatedDescTotal()
    ensures TotalPreorder(CreatedDesc)
  {
  }

  /** The rows the listing loop keeps, newest first. */
  function Listed(rows: seq<AgentRequest>, agentId: string): seq<AgentRequest>
  {
    CreatedDescTotal();
    Filter(SortBy(rows, CreatedDesc), VisibleTo(agentId))
  }

  /** Exactly the visible requests are listed, newest first. */
  lemma {:induction false} ListedExactlyVisible(rows: seq<AgentRequest>, agentId: string)
    ensures forall q :: q in Listed(rows, agentId) <==> q in rows && Visible(q, agentId)
    ensures SortedBy(Listed(rows, agentId), CreatedDesc)
  {
    CreatedDescTotal();
    var sorted := SortBy(rows, CreatedDesc);
    assert forall q :: q in sorted <==> q in multiset(rows);
    FilterKeepsSorted(sorted, VisibleTo(agentId), CreatedDesc);
  }

  /** One entry of the listing. `userEmail` holds the user id, as the source does. */
  datatype AgentRequestView = AgentRequestView(
    id: string, conversationId: string, agentId: Option<string>, status: RequestStatus,
    escalatedAt: Option<int>, assignedAt: Option<int>, resolvedAt: Option<int>,
    userEmail: string, userName: Option<string>, lastMessage: Option<string>, messageCount: nat)

  /** The last message content of the conversation in timestamp order. */
  function LastContent(ms: seq<Message>): Option<string>
  {
    if ms == [] then None else Some(ms[|ms| - 1].content)
  }

  /**
   * The entry for `q`, or None when its conversation row is missing (the join yields None and
   * `.get` raises) or its owner has no profile row (`.single()` raises). The name is the
   * profile's `full_name` as read, None for a null column.
   */
  function ViewOf(q: AgentRequest, convs: seq<Conversation>, profiles: seq<Profile>, msgs: seq<Message>): Option<AgentRequestView>
  {
    match ConversationById(convs, q.conversationId)
    case None => None
    case Some(c) =>
      match FindProfile(profiles, c.userId)
      case None => None
      case Some(owner) =>
        var ms := MessagesByTime(msgs, c.id);
        Some(AgentRequestView(q.id, q.conversationId, q.agentId, q.status, c.escalatedAt, q.assignedAt, q.resolvedAt,
                              c.userId, owner.fullName, LastContent(ms), |ms|))
  }

  function ViewStep(convs: seq<Conversation>, profiles: seq<Profile>, msgs: seq<Message>): AgentRequest -> Option<AgentRequestView>
  {
    (q: AgentRequest) => ViewOf(q, convs, profiles, msgs)
  }

  /** The entries for `qs` in order, or None as soon as one of them has no conversation. */
  function Views(qs: seq<AgentRequest>, convs: seq<Conversation>, profiles: seq<Profile>, msgs: seq<Message>)
    : Option<seq<AgentRequestView>>
  {
    MapAll(qs, ViewStep(convs, profiles, msgs))
  }

  /** `get_agent_requests`: the loop over the ordered rows; a dangling conversation or profile aborts with 500. */
  method GetAgentRequests(db: ChatDb, agentId: string) returns (r: Result<seq<AgentRequestView>>)
    ensures Views(Listed(db.requests, agentId), db.conversations, db.profiles, db.messages).None? ==> r == Fail(Http(500))
    ensures Views(Listed(db.requests, agentId), db.conversations, db.profiles, db.messages).Some? ==>
      r == Ok(Views(Listed(db.requests, agentId), db.conversations, db.profiles, db.messages).value)
  {
    CreatedDescTotal();
    var ordered := SortBy(db.requests, CreatedDesc);
    var keep := VisibleTo(agentId);
    var view := ViewStep(db.conversations, db.profiles, db.messages);
    var out: seq<AgentRequestView> := [];
    var i := 0;
    while i < |ordered|
      invariant 0 <= i <= |ordered|
      invariant FilterMapAll(ordered[..i], keep, view) == Some(out)
    {
      var q := ordered[i];
      FilterMapAllStep(ordered, i, keep, view);
      if keep(q) {
        var v := view(q);
        if v.None? {
          FilterMapAllFailsAt(ordered, i, keep, view);
          return Fail(Http(500));
        }
        out := out + [v.value];
      }
      i := i + 1;
    }
    assert ordered[..|ordered|] == ordered;
    FilterMapAllIsMapAllOfFilter(ordered, keep, view);
    r := Ok(out);
  }

  /** `last_message` is the content of a newest message of the conversation; `message_count` counts them all. */
  lemma {:induction false} LastMessageIsNewest(q: AgentRequest, convs: seq<Conversation>, profiles: seq<Profile>, msgs: seq<Message>)
    requires ViewOf(q, convs, profiles, msgs).Some?
    ensures var v := ViewOf(q, convs, profiles, msgs).value;
      v.messageCount == |MessagesOf(msgs, q.conversationId)| &&
      (v.lastMessage.None? <==> MessagesOf(msgs, q.conversationId) == []) &&
      (v.lastMessage.Some? ==>
         (exists m :: m in msgs && m.conversationId == q.conversationId && m.content == v.lastMessage.value &&
            (forall m' :: m' in msgs && m'.conversationId == q.conversationId ==> m'.timestamp <= m.timestamp)))
  {
    var c := ConversationById(convs, q.conversationId).value;
    assert c.id == q.conversationId;
    var ms := MessagesByTime(msgs, q.conversationId);
    var v := ViewOf(q, convs, profiles, msgs).value;
    assert v.messageCount == |ms| && v.lastMessage == LastContent(ms);
    NewestMessage(msgs, q.conversationId);
  }

  /** The time-ordered messages of a conversation hold all of them, the newest last. */
  lemma NewestMessage(msgs: seq<Message>, conversationId: string)
    ensures var ms := MessagesByTime(msgs, conversationId);
      |ms| == |MessagesOf(msgs, conversationId)| &&
      (ms == [] <==> MessagesOf(msgs, conversationId) == []) &&
      (ms != [] ==>
         var m := ms[|ms| - 1];
         m in msgs && m.conversationId == conversationId &&
         (forall m' :: m' in msgs && m'.conversationId == conversationId ==> m'.timestamp <= m.timestamp))
  {
    var ms := MessagesByTime(msgs, conversationId);
    var own := MessagesOf(msgs, conversationId);
    assert |ms| == |multiset(ms)| == |multiset(own)| == |own|;
    SameMembers(ms, own);
    if ms != [] {
      var m := ms[|ms| - 1];
      assert m in own;
      MessageOrdersTotal();
      forall m' | m' in msgs && m'.conversationId == conversationId ensures m'.timestamp <= m.timestamp {
        assert m' in own;
        SortedLastIsGreatest(ms, TimestampAsc, m');
      }
    }
  }

  // ---------- the active case ----------

  predicate ActiveFor(q: AgentRequest, agentId: string)
  {
    q.agentId == Some(agentId) && q.status == InProgress
  }

  /** The `limit(1)` query: the first in-progress request held by this agent. */
  function ActiveCaseOf(rows: seq<AgentRequest>, agentId: string): (r: Option<AgentRequest>)
    ensures r.Some? ==> r.value in rows && ActiveFor(r.value, agentId)
    ensures r.None? <==> forall q :: q in rows ==> !ActiveFor(q, agentId)
  {
    if rows == [] then None
    else if ActiveFor(rows[0], agentId) then Some(rows[0])
    else ActiveCaseOf(rows[1..], agentId)
  }

  datatype ActiveCase = ActiveCase(request: AgentRequest, conversation: Conversation, messages: seq<Message>,
                                   userEmail: string, userName: Option<string>)

  /**
   * `get_active_case`: None without an active request, 500 when its conversation row or the
   * owner's profile row is missing.
   */
  function GetActiveCase(db_requests: seq<AgentRequest>, convs: seq<Conversation>, profiles: seq<Profile>,
                         msgs: seq<Message>, agentId: string): (r: Result<Option<ActiveCase>>)
    ensures r == Ok(None) <==> ActiveCaseOf(db_requests, agentId).None?
    ensures r.Fail? ==> r.error == Http(500)
    ensures r.Ok? && r.value.Some? ==>
      FindProfile(profiles, r.value.value.conversation.userId).Some? &&
      r.value.value.userName == FindProfile(profiles, r.value.value.conversation.userId).value.fullName
    ensures r.Ok? && r.value.Some? ==>
      ActiveFor(r.value.value.request, agentId) && r.value.value.conversation.id == r.value.value.request.conversationId &&
      r.value.value.userEmail == r.value.value.conversation.userId &&
      SortedBy(r.value.value.messages, TimestampAsc) &&
      multiset(r.value.value.messages) == multiset(MessagesOf(msgs, r.value.value.conversation.id))
  {
    match ActiveCaseOf(db_requests, agentId)
    case None => Ok(None)
    case Some(q) =>
      match ConversationById(convs, q.conversationId)
      case None => Fail(Http(500))
      case Some(c) =>
        match FindProfile(profiles, c.userId)
        case None => Fail(Http(500))
        case Some(owner) => Ok(Some(ActiveCase(q, c, MessagesByTime(msgs, c.id), c.userId, owner.fullName)))
  }

  // ---------- claiming ----------

  /** The pre-write check: the first row with this id that is still pending. */
  function PendingRequest(rows: seq<AgentRequest>, id: string): (r: Option<AgentRequest>)
    ensures r.Some? ==> r.value in rows && r.value.id == id && r.value.status == Pending
    ensures r.None? <==> forall q :: q in rows ==> !(q.id == id && q.status == Pending)
  {
    if rows == [] then None
    else if rows[0].id == id && rows[0].status == Pending then Some(rows[0])
    else PendingRequest(rows[1..], id)
  }

  /** The claim write, keyed on the id only: it does not re-check the status. */
  function AssignWrite(rows: seq<AgentRequest>, id: string, agentId: string, now: int): (r: seq<AgentRequest>)
    ensures |r| == |rows|
    ensures forall k :: 0 <= k < |rows| ==>
      r[k] == if rows[k].id == id
              then rows[k].(agentId := Some(agentId), status := InProgress, assignedAt := Some(now), updatedAt := now)
              else rows[k]
  {
    if rows == [] then []
    else [if rows[0].id == id
          then rows[0].(agentId := Some(agentId), status := InProgress, assignedAt := Some(now), updatedAt := now)
          else rows[0]] + AssignWrite(rows[1..], id, agentId, now)
  }

  /** What the directory RPC `get_user_email` yields for the user, when it yields a row. */
  datatype DirectoryEntry = DirectoryEntry(email: Option<string>, fullName: Option<string>)

  /**
   * The assignment e-mail, as handed to the mailer. A name is None where the service hands
   * Python's None over: a profile whose `full_name` column is null.
   */
  datatype AssignmentNotice = AssignmentNotice(toEmail: string, userName: Option<string>, agentName: Option<string>,
                                               conversationId: string)

  /**
   * The notice for a claim. The names are the profiles' `full_name` values as read: a present
   * row always has the selected key, so `.get(..., default)` never defaults and a null column
   * stays None. A non-empty RPC name replaces the user's name. There is no notice at all
   * without a non-empty e-mail (a failed RPC is passed as None).
   */
  function NoticeFor(user: Profile, agent: Profile, conversationId: string,
                     directory: Option<DirectoryEntry>): (n: Option<AssignmentNotice>)
    ensures n.Some? <==> directory.Some? && directory.value.email.Some? && directory.value.email.value != ""
    ensures n.Some? ==> n.value.toEmail == directory.value.email.value && n.value.conversationId == conversationId
    ensures n.Some? ==> n.value.agentName == agent.fullName
    ensures n.Some? && directory.value.fullName.Some? && directory.value.fullName.value != "" ==>
              n.value.userName == directory.value.fullName
    ensures n.Some? && !(directory.value.fullName.Some? && directory.value.fullName.value != "") ==>
              n.value.userName == user.fullName
  {
    var userName :=
      if directory.Some? && directory.value.fullName.Some? && directory.value.fullName.value != ""
      then directory.value.fullName
      else user.fullName;
    if directory.Some? && directory.value.email.Some? && directory.value.email.value != ""
    then Some(AssignmentNotice(directory.value.email.value, userName, agent.fullName, conversationId))
    else None
  }

  /**
   * Whether a claim gets as far as the write: the request is pending, its conversation row
   * exists, and both the user's and the agent's profile rows exist (`.single()` raises on a
   * missing row, before anything is written).
   */
  predicate Claimable(rows: seq<AgentRequest>, convs: seq<Conversation>, profiles: seq<Profile>,
                      requestId: string, agentId: string)
  {
    PendingRequest(rows, requestId).Some? &&
    ConversationById(convs, PendingRequest(rows, requestId).value.conversationId).Some? &&
    FindProfile(profiles, ConversationById(convs, PendingRequest(rows, requestId).value.conversationId).value.userId).Some? &&
    FindProfile(profiles, agentId).Some?
  }

  /**
   * What `assign_request_to_agent` answers: 404 unless the request is pending, 500 when its
   * conversation or one of the two profiles is missing, otherwise the notice (if any).
   */
  function AssignOutcome(rows: seq<AgentRequest>, convs: seq<Conversation>, profiles: seq<Profile>,
                         requestId: string, agentId: string, directory: Option<DirectoryEntry>)
    : (r: Result<Option<AssignmentNotice>>)
    ensures r == Fail(Http(404)) <==> PendingRequest(rows, requestId).None?
    ensures r.Ok? <==> Claimable(rows, convs, profiles, requestId, agentId)
    ensures r.Fail? ==> r.error == Http(404) || r.error == Http(500)
    ensures r.Ok? ==>
      var q := PendingRequest(rows, requestId).value;
      (r.value.Some? <==> directory.Some? && directory.value.email.Some? && directory.value.email.value != "") &&
      (r.value.Some? ==> r.value.value.conversationId == q.conversationId &&
                         r.value.value.agentName == FindProfile(profiles, agentId).value.fullName)
  {
    match PendingRequest(rows, requestId)
    case None => Fail(Http(404))
    case Some(q) =>
      match ConversationById(convs, q.conversationId)
      case None => Fail(Http(500))
      case Some(c) =>
        match (FindProfile(profiles, c.userId), FindProfile(profiles, agentId))
        case (Some(user), Some(agent)) => Ok(NoticeFor(user, agent, q.conversationId, directory))
        case _ => Fail(Http(500))
  }

  /**
   * `assign_request_to_agent`: the outcome of `AssignOutcome`; the write happens only when the
   * claim gets that far, and the e-mail afterwards, so a failed or skipped e-mail never undoes
   * the write.
   */
  method AssignRequestToAgent(db: ChatDb, requestId: string, agentId: string, directory: Option<DirectoryEntry>,
                              mailerOk: bool, now: int) returns (r: Result<Option<AssignmentNotice>>, emailSent: bool)
    modifies db
    ensures r == AssignOutcome(old(db.requests), old(db.conversations), old(db.profiles), requestId, agentId, directory)
    ensures db.requests == if r.Ok? then AssignWrite(old(db.requests), requestId, agentId, now) else old(db.requests)
    ensures emailSent == (r.Ok? && r.value.Some? && mailerOk)
    ensures db.conversations == old(db.conversations) && db.messages == old(db.messages) && db.profiles == old(db.profiles)
  {
    emailSent := false;
    var pending := PendingRequest(db.requests, requestId);
    if pending.None? {
      return Fail(Http(404)), false;
    }
    var q := pending.value;
    var conv := ConversationById(db.conversations, q.conversationId);
    if conv.None? {
      return Fail(Http(500)), false;
    }
    var user := FindProfile(db.profiles, conv.value.userId);
    var agent := FindProfile(db.profiles, agentId);
    if user.None? || agent.None? {
      return Fail(Http(500)), false;
    }
    var notice := NoticeFor(user.value, agent.value, q.conversationId, directory);
    db.requests := AssignWrite(db.requests, requestId, agentId, now);
    if notice.Some? {
      emailSent := mailerOk;
    }
    r := Ok(notice);
  }

  /** With unique ids, a successful claim moves exactly the claimed request from pending to in_progress. */
  lemma {:induction false} ClaimMovesForward(rows: seq<AgentRequest>, id: string, agentId: string, now: int)
    requires UniqueRequestIds(rows)
    requires PendingRequest(rows, id).Some?
    ensures forall k :: 0 <= k < |rows| ==>
      StatusRank(AssignWrite(rows, id, agentId, now)[k].status) >= StatusRank(rows[k].status)
    ensures forall k :: 0 <= k < |rows| && rows[k].id == id ==>
      rows[k].status == Pending && AssignWrite(rows, id, agentId, now)[k].status == InProgress &&
      AssignWrite(rows, id, agentId, now)[k].agentId == Some(agentId)
  {
    var p := PendingRequest(rows, id).value;
    var i :| 0 <= i < |rows| && rows[i] == p;
    assert forall k :: 0 <= k < |rows| && rows[k].id == id ==> k == i;
  }

  // ---------- resolving ----------

  /** The resolve check: id, agent and in_progress must all match. */
  function ResolvableRequest(rows: seq<AgentRequest>, id: string, agentId: string): (r: Option<AgentRequest>)
    ensures r.Some? ==> r.value in rows && r.value.id == id && ActiveFor(r.value, agentId)
    ensures r.None? <==> forall q :: q in rows ==> !(q.id == id && ActiveFor(q, agentId))
  {
    if rows == [] then None
    else if rows[0].id == id && ActiveFor(rows[0], agentId) then Some(rows[0])
    else ResolvableRequest(rows[1..], id, agentId)
  }

  function ResolveWrite(rows: seq<AgentRequest>, id: string, now: int): (r: seq<AgentRequest>)
    ensures |r| == |rows|
    ensures forall k :: 0 <= k < |rows| ==>
      r[k] == if rows[k].id == id then rows[k].(status := Resolved, resolvedAt := Some(now), updatedAt := now) else rows[k]
  {
    if rows == [] then []
    else [if rows[0].id == id then rows[0].(status := Resolved, resolvedAt := Some(now), updatedAt := now) else rows[0]]
         + ResolveWrite(rows[1..], id, now)
  }

  function MarkConversationResolved(rows: seq<Conversation>, id: string, now: int): (r: seq<Conversation>)
    ensures |r| == |rows|
    ensures forall k :: 0 <= k < |rows| ==>
      r[k] == if rows[k].id == id then rows[k].(resolved := true, resolvedAt := Some(now), updatedAt := now) else rows[k]
  {
    if rows == [] then []
    else [if rows[0].id == id then rows[0].(resolved := true, resolvedAt := Some(now), updatedAt := now) else rows[0]]
         + MarkConversationResolved(rows[1..], id, now)
  }

  /** `resolve_request`: 404 unless the caller holds the request in progress; then both writes. */
  method ResolveRequest(db: ChatDb, requestId: string, agentId: string, now: int) returns (r: Result<bool>)
    modifies db
    ensures ResolvableRequest(old(db.requests), requestId, agentId).None? ==>
      r == Fail(Http(404)) && db.requests == old(db.requests) && db.conversations == old(db.conversations)
    ensures ResolvableRequest(old(db.requests), requestId, agentId).Some? ==>
      r == Ok(true) &&
      db.requests == ResolveWrite(old(db.requests), requestId, now) &&
      db.conversations == MarkConversationResolved(old(db.conversations),
                            ResolvableRequest(old(db.requests), requestId, agentId).value.conversationId, now)
    ensures db.messages == old(db.messages) && db.profiles == old(db.profiles)
  {
    var found := ResolvableRequest(db.requests, requestId, agentId);
    if found.None? {
      return Fail(Http(404));
    }
    db.requests := ResolveWrite(db.requests, requestId, now);
    db.conversations := MarkConversationResolved(db.conversations, found.value.conversationId, now);
    r := Ok(true);
  }

  /** Only the agent holding the request can resolve it, and resolving moves it forward. */
  lemma {:induction false} ResolveMovesForward(rows: seq<AgentRequest>, id: string, agentId: string, now: int)
    requires UniqueRequestIds(rows)
    requires ResolvableRequest(rows, id, agentId).Some?
    ensures forall k :: 0 <= k < |rows| && rows[k].id == id ==>
      ActiveFor(rows[k], agentId) && ResolveWrite(rows, id, now)[k].status == Resolved
    ensures forall k :: 0 <= k < |rows| ==>
      StatusRank(ResolveWrite(rows, id, now)[k].status) >= StatusRank(rows[k].status)
  {
    var p := ResolvableRequest(rows, id, agentId).value;
    var i :| 0 <= i < |rows| && rows[i] == p;
    assert forall k :: 0 <= k < |rows| && rows[k].id == id ==> k == i;
  }

  // ---------- one active case per agent ----------

  /** No agent holds two in-progress requests. */
  predicate OneActivePerAgent(rows: seq<AgentRequest>)
  {
    forall i, j :: 0 <= i < j < |rows| && rows[i].status == InProgress && rows[j].status == InProgress ==>
      rows[i].agentId != rows[j].agentId
  }

  /** A claim that passed the route's active-case guard keeps the invariant. */
  lemma {:induction false} GuardedClaimKeepsOneActive(rows: seq<AgentRequest>, id: string, agentId: string, now: int)
    requires UniqueRequestIds(rows) && OneActivePerAgent(rows)
    requires ActiveCaseOf(rows, agentId).None?
    requires PendingRequest(rows, id).Some?
    ensures OneActivePerAgent(AssignWrite(rows, id, agentId, now))
    ensures UniqueRequestIds(AssignWrite(rows, id, agentId, now))
  {
    var r := AssignWrite(rows, id, agentId, now);
    forall i, j | 0 <= i < j < |r| && r[i].status == InProgress && r[j].status == InProgress
      ensures r[i].agentId != r[j].agentId
    {
      if rows[i].id == id && rows[j].id == id {
        assert false;
      } else if rows[i].id == id {
        assert rows[j] in rows;
        assert !ActiveFor(rows[j], agentId);
      } else if rows[j].id == id {
        assert rows[i] in rows;
        assert !ActiveFor(rows[i], agentId);
      }
    }
  }

  /** Resolving never breaks the invariant. */
  lemma {:induction false} ResolveKeepsOneActive(rows: seq<AgentRequest>, id: string, now: int)
    requires OneActivePerAgent(rows)
    ensures OneActivePerAgent(ResolveWrite(rows, id, now))
  {
    var r := ResolveWrite(rows, id, now);
    forall i, j | 0 <= i < j < |r| && r[i].status == InProgress && r[j].status == InProgress
      ensures r[i].agentId != r[j].agentId
    {
      assert rows[i].status == InProgress && rows[j].status == InProgress;
    }
  }

  /** Without the route's guard the claim write alone would give an agent a second active case. */
  lemma UnguardedClaimBreaksOneActive()
    ensures var rows := [AgentRequest("r1", "c1", InProgress, Some("a"), 0, Some(0), None, 0),
                         AgentRequest("r2", "c2", Pending, None, 1, None, None, 1)];
      UniqueRequestIds(rows) && OneActivePerAgent(rows) && PendingRequest(rows, "r2").Some? &&
      !OneActivePerAgent(AssignWrite(rows, "r2", "a", 5))
  {
    var rows := [AgentRequest("r1", "c1", InProgress, Some("a"), 0, Some(0), None, 0),
                 AgentRequest("r2", "c2", Pending, None, 1, None, None, 1)];
    var w := AssignWrite(rows, "r2", "a", 5);
    assert w[0].status == InProgress && w[1].status == InProgress && w[0].agentId == w[1].agentId;
  }

  // ---------- posting as an agent ----------

  /** `send_agent_message`: the agent's text is stored as an assistant message; the type is left to the store default (""). */
  method SendAgentMessage(db: ChatDb, conversationId: string, content: string, messageId: string, now: int)
      returns (m: Message)
    modifies db
    ensures m.role == "assistant" && m.conversationId == conversationId && m.content == content
    ensures m == Message(messageId, conversationId, "assistant", content, "", now, None, None, None)
    ensures db.messages == old(db.messages) + [m]
    ensures db.conversations == old(db.conversations) && db.requests == old(db.requests) && db.profiles == old(db.profiles)
  {
    m := Message(messageId, conversationId, "assistant", content, "", now, None, None, None);
    db.messages := db.messages + [m];
  }
}
