/** agent_routes.py: the agent role guard and the checks each agent endpoint makes before the service call. */
module AgentRoutes {
  import opened Wrappers
  import opened ChatTables
  import opened AgentService

  /**
   * `get_current_agent`: the caller's profile must exist (404 otherwise, from the user-info
   * lookup) and carry the role "agent" (403 otherwise).
   */
  function CurrentAgent(profiles: seq<Profile>, userId: string): (r: Result<string>)
    ensures r.Ok? <==> exists p :: p in profiles && p.id == userId && p.role == "agent" && FindProfile(profiles, userId) == Some(p)
    ensures r.Ok? ==> r.value == userId
    ensures r.Fail? ==> r.error == Http(if FindProfile(profiles, userId).None? then 404 else 403)
  {
    match FindProfile(profiles, userId)
    case None => Fail(Http(404))
    case Some(p) => if p.role != "agent" then Fail(Http(403)) else Ok(userId)
  }

  /** GET /active-case: 404 when the agent holds no in-progress request. */
  function ActiveCaseEndpoint(db_requests: seq<AgentRequest>, convs: seq<Conversation>, profiles: seq<Profile>,
                              msgs: seq<Message>, userId: string): (r: Result<ActiveCase>)
    ensures CurrentAgent(profiles, userId).Fail? ==> r == Fail(CurrentAgent(profiles, userId).error)
    ensures CurrentAgent(profiles, userId).Ok? && ActiveCaseOf(db_requests, userId).None? ==> r == Fail(Http(404))
    ensures r.Ok? ==> ActiveFor(r.value.request, userId) && r.value.request in db_requests
    ensures CurrentAgent(profiles, userId).Ok? ==>
      var a := GetActiveCase(db_requests, convs, profiles, msgs, userId);
      r == (if a.Fail? then Fail(a.error) else if a.value.None? then Fail(Http(404)) else Ok(a.value.value))
  {
    match CurrentAgent(profiles, userId)
    case Fail(e) => Fail(e)
    case Ok(agentId) =>
      match GetActiveCase(db_requests, convs, profiles, msgs, agentId)
      case Fail(e) => Fail(e)
      case Ok(None) => Fail(Http(404))
      case Ok(Some(c)) => Ok(c)
  }

  /** The requests table after POST /requests/{id}/take, whatever the outcome. */
  function TakeWrite(rows: seq<AgentRequest>, convs: seq<Conversation>, profiles: seq<Profile>,
                     requestId: string, userId: string, now: int): seq<AgentRequest>
  {
    if CurrentAgent(profiles, userId).Fail? then rows
    else if ActiveCaseOf(rows, userId).Some? then rows
    else if Claimable(rows, convs, profiles, requestId, userId) then AssignWrite(rows, requestId, userId, now)
    else rows
  }

  /**
   * POST /requests/{id}/take: the role guard, then 400 when the agent already has an active
   * case (500 when that case's conversation is missing), then the claim's outcome.
   */
  method TakeRequest(db: ChatDb, requestId: string, userId: string, directory: Option<DirectoryEntry>,
                     mailerOk: bool, now: int) returns (r: Result<Option<AssignmentNotice>>, emailSent: bool)
    modifies db
    ensures db.requests == TakeWrite(old(db.requests), old(db.conversations), old(db.profiles), requestId, userId, now)
    ensures CurrentAgent(old(db.profiles), userId).Fail? ==> r == Fail(CurrentAgent(old(db.profiles), userId).error)
    ensures CurrentAgent(old(db.profiles), userId).Ok? && ActiveCaseOf(old(db.requests), userId).Some? ==>
      r.Fail? && r.error in {Http(400), Http(500)}
    ensures CurrentAgent(old(db.profiles), userId).Ok? && ActiveCaseOf(old(db.requests), userId).None? ==>
      r == AssignOutcome(old(db.requests), old(db.conversations), old(db.profiles), requestId, userId, directory) &&
      emailSent == (r.Ok? && r.value.Some? && mailerOk)
    ensures r.Fail? ==> !emailSent
    ensures db.conversations == old(db.conversations) && db.messages == old(db.messages) && db.profiles == old(db.profiles)
  {
    emailSent := false;
    var agent := CurrentAgent(db.profiles, userId);
    if agent.Fail? {
      return Fail(agent.error), false;
    }
    var current := GetActiveCase(db.requests, db.conversations, db.profiles, db.messages, userId);
    if current.Fail? {
      return Fail(current.error), false;
    }
    if current.value.Some? {
      return Fail(Http(400)), false;
    }
    r, emailSent := AssignRequestToAgent(db, requestId, userId, directory, mailerOk, now);
  }

  /** Under sequential execution every take keeps "at most one in-progress request per agent". */
  lemma {:induction false} TakeKeepsOneActive(rows: seq<AgentRequest>, convs: seq<Conversation>, profiles: seq<Profile>,
                                              requestId: string, userId: string, now: int)
    requires UniqueRequestIds(rows) && OneActivePerAgent(rows)
    ensures OneActivePerAgent(TakeWrite(rows, convs, profiles, requestId, userId, now))
    ensures UniqueRequestIds(TakeWrite(rows, convs, profiles, requestId, userId, now))
  {
    if CurrentAgent(profiles, userId).Ok? && ActiveCaseOf(rows, userId).None? && PendingRequest(rows, requestId).Some? {
      GuardedClaimKeepsOneActive(rows, requestId, userId, now);
    }
  }

  /** The table after POST /requests/{id}/resolve: the caller's own id is passed, so only the holder resolves. */
  function ResolveEndpointWrite(rows: seq<AgentRequest>, profiles: seq<Profile>, requestId: string, userId: string, now: int)
    : seq<AgentRequest>
  {
    if CurrentAgent(profiles, userId).Fail? || ResolvableRequest(rows, requestId, userId).None? then rows
    else ResolveWrite(rows, requestId, now)
  }

  method ResolveEndpoint(db: ChatDb, requestId: string, userId: string, now: int) returns (r: Result<bool>)
    modifies db
    ensures db.requests == ResolveEndpointWrite(old(db.requests), old(db.profiles), requestId, userId, now)
    ensures CurrentAgent(old(db.profiles), userId).Fail? ==>
      r == Fail(CurrentAgent(old(db.profiles), userId).error) && db.conversations == old(db.conversations)
    ensures CurrentAgent(old(db.profiles), userId).Ok? && ResolvableRequest(old(db.requests), requestId, userId).None? ==>
      r == Fail(Http(404)) && db.conversations == old(db.conversations)
    ensures CurrentAgent(old(db.profiles), userId).Ok? && ResolvableRequest(old(db.requests), requestId, userId).Some? ==>
      r == Ok(true) && db.conversations == MarkConversationResolved(old(db.conversations),
                         ResolvableRequest(old(db.requests), requestId, userId).value.conversationId, now)
    ensures db.messages == old(db.messages) && db.profiles == old(db.profiles)
  {
    var agent := CurrentAgent(db.profiles, userId);
    if agent.Fail? {
      return Fail(agent.error);
    }
    r := ResolveRequest(db, requestId, userId, now);
  }

  /** A resolve through the endpoint changes a row only if the caller held it in progress. */
  lemma {:induction false} OnlyHolderResolves(rows: seq<AgentRequest>, profiles: seq<Profile>, requestId: string, userId: string, now: int)
    requires UniqueRequestIds(rows)
    ensures forall k :: 0 <= k < |rows| && ResolveEndpointWrite(rows, profiles, requestId, userId, now)[k] != rows[k] ==>
      rows[k].id == requestId && ActiveFor(rows[k], userId) &&
      ResolveEndpointWrite(rows, profiles, requestId, userId, now)[k].status == Resolved
    ensures OneActivePerAgent(rows) ==> OneActivePerAgent(ResolveEndpointWrite(rows, profiles, requestId, userId, now))
  {
    if CurrentAgent(profiles, userId).Ok? && ResolvableRequest(rows, requestId, userId).Some? {
      ResolveMovesForward(rows, requestId, userId, now);
      if OneActivePerAgent(rows) {
        ResolveKeepsOneActive(rows, requestId, now);
      }
    }
  }

  /** The posting rule: the agent's active case must be on this very conversation. */
  predicate CanPost(active: Option<ActiveCase>, conversationId: string)
  {
    active.Some? && active.value.conversation.id == conversationId
  }

  /** POST /conversations/{id}/messages as an agent: 403 and no insert unless the conversation is the active case's. */
  method SendMessageEndpoint(db: ChatDb, conversationId: string, userId: string, content: string,
                             messageId: string, now: int) returns (r: Result<Message>)
    modifies db
    ensures CurrentAgent(old(db.profiles), userId).Fail? ==>
      r == Fail(CurrentAgent(old(db.profiles), userId).error) && db.messages == old(db.messages)
    ensures r.Ok? ==>
      CurrentAgent(old(db.profiles), userId).Ok? &&
      (exists q :: q in old(db.requests) && ActiveFor(q, userId) && q.conversationId == conversationId) &&
      r.value.role == "assistant" && db.messages == old(db.messages) + [r.value]
    ensures r.Fail? ==> db.messages == old(db.messages)
    ensures CurrentAgent(old(db.profiles), userId).Ok? &&
            GetActiveCase(old(db.requests), old(db.conversations), old(db.profiles), old(db.messages), userId).Ok? &&
            !CanPost(GetActiveCase(old(db.requests), old(db.conversations), old(db.profiles), old(db.messages), userId).value, conversationId) ==>
      r == Fail(Http(403))
    ensures CurrentAgent(old(db.profiles), userId).Ok? &&
            GetActiveCase(old(db.requests), old(db.conversations), old(db.profiles), old(db.messages), userId).Ok? &&
            CanPost(GetActiveCase(old(db.requests), old(db.conversations), old(db.profiles), old(db.messages), userId).value, conversationId) ==>
      r == Ok(Message(messageId, conversationId, "assistant", content, "", now, None, None, None))
    ensures CurrentAgent(old(db.profiles), userId).Ok? &&
            GetActiveCase(old(db.requests), old(db.conversations), old(db.profiles), old(db.messages), userId).Fail? ==>
      r == Fail(GetActiveCase(old(db.requests), old(db.conversations), old(db.profiles), old(db.messages), userId).error)
    ensures db.conversations == old(db.conversations) && db.requests == old(db.requests) && db.profiles == old(db.profiles)
  {
    var agent := CurrentAgent(db.profiles, userId);
    if agent.Fail? {
      return Fail(agent.error);
    }
    var active := GetActiveCase(db.requests, db.conversations, db.profiles, db.messages, userId);
    if active.Fail? {
      return Fail(active.error);
    }
    if !CanPost(active.value, conversationId) {
      return Fail(Http(403));
    }
    var m := SendAgentMessage(db, conversationId, content, messageId, now);
    r := Ok(m);
  }

  /** GET /requests: the role guard, then the listing. */
  method GetRequestsEndpoint(db: ChatDb, userId: string) returns (r: Result<seq<AgentRequestView>>)
    ensures CurrentAgent(db.profiles, userId).Fail? ==> r == Fail(CurrentAgent(db.profiles, userId).error)
    ensures CurrentAgent(db.profiles, userId).Ok? ==>
      var vs := Views(Listed(db.requests, userId), db.conversations, db.profiles, db.messages);
      r == if vs.Some? then Ok(vs.value) else Fail(Http(500))
  {
    var agent := CurrentAgent(db.profiles, userId);
    if agent.Fail? {
      return Fail(agent.error);
    }
    r := GetAgentRequests(db, userId);
  }
}
