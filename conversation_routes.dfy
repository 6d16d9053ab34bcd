/** conversation_routes.py: the checks and the order of store writes behind each endpoint. */
module ConversationRoutes {
  import opened Wrappers
  import opened Strings
  import opened Seqs
  import opened ChatTables
  import opened ConversationService

  /**
   * The guard every endpoint starts with: 401 without a session user (an empty id),
   * then 404 unless the conversation exists and belongs to the caller.
   */
  function OwnedConversation(convs: seq<Conversation>, conversationId: string, userId: string): (r: Result<Conversation>)
    ensures r.Ok? <==> userId != "" && FindConversation(convs, conversationId, userId).Some?
    ensures r.Ok? ==> r.value in convs && r.value.id == conversationId && r.value.userId == userId
    ensures r.Fail? ==> r.error == Http(if userId == "" then 401 else 404)
  {
    if userId == "" then Fail(Http(401))
    else match FindConversation(convs, conversationId, userId)
      case None => Fail(Http(404))
      case Some(c) => Ok(c)
  }

  predicate ValidRole(role: string)
  {
    role == "user" || role == "assistant"
  }

  /** The title check: 400 when blank or longer than 100 before trimming; else the trimmed text. */
  function ValidateTitle(title: string): (r: Result<string>)
    ensures r.Ok? <==> !IsBlank(title) && |title| <= 100
    ensures r.Ok? ==> r.value == Trim(title) && r.value != [] && |r.value| <= 100
    ensures r.Fail? ==> r.error == Http(400)
  {
    TrimEmptyIffBlank(title);
    if title == [] || |Trim(title)| == 0 then Fail(Http(400))
    else if |title| > 100 then Fail(Http(400))
    else Ok(Trim(title))
  }

  /** The reply text of the rating endpoint. */
  function RatingReply(rating: string): (text: string)
    requires ValidRating(rating)
    ensures rating == "up" <==> text == "Thank you for your feedback!"
  {
    if rating == "up" then "Thank you for your feedback!"
    else "We apologize that wasn't helpful. Let us try to assist you better."
  }

  // ---------- add_message ----------

  /**
   * POST /conversations/{id}/messages. Checks run in the order 401, 404, 400 (role) and
   * nothing is written when one fails; after saving a user message, auto-titling runs.
   */
  method AddMessage(db: ChatDb, conversationId: string, userId: string, role: string, content: string,
                    responseType: string, messageId: string, titleReply: string, now: int) returns (r: Result<Message>)
    modifies db
    ensures OwnedConversation(old(db.conversations), conversationId, userId).Fail? ==>
      r == Fail(OwnedConversation(old(db.conversations), conversationId, userId).error) &&
      db.conversations == old(db.conversations) && db.messages == old(db.messages)
    ensures OwnedConversation(old(db.conversations), conversationId, userId).Ok? && !ValidRole(role) ==>
      r == Fail(Http(400)) && db.conversations == old(db.conversations) && db.messages == old(db.messages)
    ensures OwnedConversation(old(db.conversations), conversationId, userId).Ok? && ValidRole(role) ==>
      var m := Message(messageId, conversationId, role, content, responseType, now, None, None, None);
      r == Ok(m) && db.messages == old(db.messages) + [m] &&
      db.conversations == if role == "user" then AutoTitle(old(db.conversations), db.messages, conversationId, titleReply, now)
                          else old(db.conversations)
    ensures db.requests == old(db.requests) && db.profiles == old(db.profiles)
  {
    var owned := OwnedConversation(db.conversations, conversationId, userId);
    if owned.Fail? {
      return Fail(owned.error);
    }
    if !ValidRole(role) {
      return Fail(Http(400));
    }
    var m := SaveMessage(db, messageId, conversationId, role, content, responseType, now);
    if role == "user" {
      AutoGenerateTitleIfNeeded(db, conversationId, titleReply, now);
    }
    r := Ok(m);
  }

  // ---------- escalate ----------

  /**
   * PUT /conversations/{id}/escalate: 401/404, then the escalation write, then the optional
   * message saved as a user message of type "escalation".
   */
  method EscalateRoute(db: ChatDb, conversationId: string, userId: string, message: Option<string>,
                       messageId: string, now: int) returns (r: Result<bool>)
    modifies db
    ensures OwnedConversation(old(db.conversations), conversationId, userId).Fail? ==>
      r == Fail(OwnedConversation(old(db.conversations), conversationId, userId).error) &&
      db.conversations == old(db.conversations) && db.messages == old(db.messages)
    ensures OwnedConversation(old(db.conversations), conversationId, userId).Ok? ==>
      r == Ok(true) &&
      db.conversations == EscalateRows(old(db.conversations), conversationId, now) &&
      db.messages == old(db.messages) +
        (if message.Some? && message.value != "" then [Message(messageId, conversationId, "user", message.value, "escalation", now, None, None, None)] else [])
    ensures db.requests == old(db.requests) && db.profiles == old(db.profiles)
  {
    var owned := OwnedConversation(db.conversations, conversationId, userId);
    if owned.Fail? {
      return Fail(owned.error);
    }
    var ok := EscalateConversation(db, conversationId, now);
    if !ok {
      // the conversation was just found, so the update always matches a row
      assert false;
    }
    if message.Some? && message.value != "" {
      var _ := SaveMessage(db, messageId, conversationId, "user", message.value, "escalation", now);
    }
    r := Ok(true);
  }

  // ---------- title ----------

  /** PUT /conversations/{id}/title: 401/404, then 400 for a bad title, then the trimmed title is stored. */
  method UpdateTitleRoute(db: ChatDb, conversationId: string, userId: string, title: string, now: int)
      returns (r: Result<string>)
    modifies db
    ensures OwnedConversation(old(db.conversations), conversationId, userId).Fail? ==>
      r == Fail(OwnedConversation(old(db.conversations), conversationId, userId).error) &&
      db.conversations == old(db.conversations)
    ensures OwnedConversation(old(db.conversations), conversationId, userId).Ok? ==>
      r == ValidateTitle(title) &&
      db.conversations == if r.Ok? then SetTitle(old(db.conversations), conversationId, r.value, now) else old(db.conversations)
    ensures db.messages == old(db.messages) && db.requests == old(db.requests) && db.profiles == old(db.profiles)
  {
    var owned := OwnedConversation(db.conversations, conversationId, userId);
    if owned.Fail? {
      return Fail(owned.error);
    }
    r := ValidateTitle(title);
    if r.Fail? {
      return;
    }
    var ok := UpdateConversationTitle(db, conversationId, r.value, now);
    if !ok {
      assert false;
    }
  }

  /** A stored title is never blank and never longer than 100 characters. */
  lemma {:induction false} StoredTitlesAreClean(convs: seq<Conversation>, conversationId: string, title: string, now: int)
    requires ValidateTitle(title).Ok?
    ensures forall c :: c in SetTitle(convs, conversationId, ValidateTitle(title).value, now) && c.id == conversationId ==>
      c.title != [] && |c.title| <= 100 && c.title == Trim(title)
  {
    var r := SetTitle(convs, conversationId, ValidateTitle(title).value, now);
    forall c | c in r && c.id == conversationId
      ensures c.title != [] && |c.title| <= 100 && c.title == Trim(title)
    {
      var k :| 0 <= k < |r| && r[k] == c;
    }
  }

  // ---------- rating ----------

  /**
   * PUT /messages/{id}/rate: 401, then 400 for a rating other than up/down, then 500 when no
   * message matched; ownership of the message is not checked.
   */
  method RateMessageRoute(db: ChatDb, messageId: string, userId: string, rating: string, now: int)
      returns (r: Result<string>)
    modifies db
    ensures userId == "" ==> r == Fail(Http(401)) && db.messages == old(db.messages)
    ensures userId != "" && !ValidRating(rating) ==> r == Fail(Http(400)) && db.messages == old(db.messages)
    ensures userId != "" && ValidRating(rating) ==>
      db.messages == RateRows(old(db.messages), messageId, rating, now) &&
      (r.Ok? <==> exists m :: m in old(db.messages) && m.id == messageId) &&
      (r.Ok? ==> r.value == RatingReply(rating)) &&
      (r.Fail? ==> r.error == Http(500))
    ensures db.conversations == old(db.conversations) && db.requests == old(db.requests) && db.profiles == old(db.profiles)
  {
    if userId == "" {
      return Fail(Http(401));
    }
    if !ValidRating(rating) {
      return Fail(Http(400));
    }
    var ok := RateMessage(db, messageId, rating, now);
    if !ok {
      return Fail(Http(500));
    }
    r := Ok(RatingReply(rating));
  }

  // ---------- escalation status ----------

  datatype AgentRequestView = AgentRequestView(
    id: string, status: RequestStatus, assignedAt: Option<int>, resolvedAt: Option<int>, agentName: Option<string>)

  datatype EscalationStatus = EscalationStatus(
    isEscalated: bool, escalatedAt: Option<int>, resolved: bool, resolvedAt: Option<int>,
    agentRequest: Option<AgentRequestView>)

  function RequestsOf(rows: seq<AgentRequest>, conversationId: string): (r: seq<AgentRequest>)
    ensures forall k :: 0 <= k < |r| ==> r[k] in rows && r[k].conversationId == conversationId
    ensures forall q :: q in rows && q.conversationId == conversationId ==> q in r
  {
    Filter(rows, (q: AgentRequest) => q.conversationId == conversationId)
  }

  /** The agent's display name: looked up only when the request names an agent. */
  function AgentName(profiles: seq<Profile>, agentId: Option<string>): (n: Option<string>)
    ensures agentId.None? || agentId.value == "" ==> n.None?
    ensures n.Some? ==> exists p :: p in profiles && p.id == agentId.value && p.fullName == n
  {
    if agentId.None? || agentId.value == "" then None
    else match FindProfile(profiles, agentId.value)
      case None => None
      case Some(p) => p.fullName
  }

  /** The status record as the endpoint assembles it: the conversation's flags, then its first request. */
  method GetEscalationStatus(db: ChatDb, conversationId: string, userId: string) returns (r: Result<EscalationStatus>)
    ensures OwnedConversation(db.conversations, conversationId, userId).Fail? ==>
      r == Fail(OwnedConversation(db.conversations, conversationId, userId).error)
    ensures OwnedConversation(db.conversations, conversationId, userId).Ok? ==>
      var c := OwnedConversation(db.conversations, conversationId, userId).value;
      var reqs := RequestsOf(db.requests, conversationId);
      r.Ok? &&
      r.value.isEscalated == c.isEscalated && r.value.escalatedAt == c.escalatedAt &&
      r.value.resolved == c.resolved && r.value.resolvedAt == c.resolvedAt &&
      (r.value.agentRequest.None? <==> reqs == []) &&
      (reqs != [] ==> r.value.agentRequest == Some(AgentRequestView(reqs[0].id, reqs[0].status,
         reqs[0].assignedAt, reqs[0].resolvedAt, AgentName(db.profiles, reqs[0].agentId))))
  {
    var owned := OwnedConversation(db.conversations, conversationId, userId);
    if owned.Fail? {
      return Fail(owned.error);
    }
    var c := owned.value;
    var data := EscalationStatus(c.isEscalated, c.escalatedAt, c.resolved, c.resolvedAt, None);
    var reqs := RequestsOf(db.requests, conversationId);
    if |reqs| > 0 {
      var q := reqs[0];
      var name: Option<string> := None;
      if q.agentId.Some? && q.agentId.value != "" {
        var p := FindProfile(db.profiles, q.agentId.value);
        if p.Some? {
          name := p.value.fullName;
        }
      }
      data := data.(agentRequest := Some(AgentRequestView(q.id, q.status, q.assignedAt, q.resolvedAt, name)));
    }
    r := Ok(data);
  }
}
