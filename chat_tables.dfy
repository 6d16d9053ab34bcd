/**
 * The rows of the chat datastore (conversations, messages, agent_requests, profiles)
 * as in-memory tables. A table is a sequence of rows in insertion order.
 */
module ChatTables {
  import opened Wrappers
  import opened Seqs

  datatype RequestStatus = Pending | InProgress | Resolved

  datatype Conversation = Conversation(
    id: string,
    userId: string,
    title: string,              // "" stands for a null or empty title: both are falsy in Python
    isEscalated: bool,
    escalatedAt: Option<int>,
    resolved: bool,
    resolvedAt: Option<int>,
    createdAt: int,
    updatedAt: int,
    lastMessageAt: int)

  datatype Message = Message(
    id: string,
    conversationId: string,
    role: string,
    content: string,
    responseType: string,
    timestamp: int,
    rating: Option<string>,
    ratedAt: Option<int>,
    imageUrl: Option<string>)

  datatype AgentRequest = AgentRequest(
    id: string,
    conversationId: string,
    status: RequestStatus,
    agentId: Option<string>,
    createdAt: int,
    assignedAt: Option<int>,
    resolvedAt: Option<int>,
    updatedAt: int)

  datatype Profile = Profile(id: string, fullName: Option<string>, role: string)

  class ChatDb {
    var conversations: seq<Conversation>
    var messages: seq<Message>
    var requests: seq<AgentRequest>
    var profiles: seq<Profile>

    constructor ()
      ensures conversations == [] && messages == [] && requests == [] && profiles == []
    {
      conversations, messages, requests, profiles := [], [], [], [];
    }
  }

  /** `get_conversation(id, user_id)`: the conversation with that id owned by that user. */
  function FindConversation(rows: seq<Conversation>, id: string, userId: string): (r: Option<Conversation>)
    ensures r.Some? ==> r.value in rows && r.value.id == id && r.value.userId == userId
    ensures r.None? ==> forall c :: c in rows ==> !(c.id == id && c.userId == userId)
  {
    if rows == [] then None
    else if rows[0].id == id && rows[0].userId == userId then Some(rows[0])
    else FindConversation(rows[1..], id, userId)
  }

  /** The conversation with that id, whoever owns it. */
  function ConversationById(rows: seq<Conversation>, id: string): (r: Option<Conversation>)
    ensures r.Some? ==> r.value in rows && r.value.id == id
    ensures r.None? ==> forall c :: c in rows ==> c.id != id
  {
    if rows == [] then None
    else if rows[0].id == id then Some(rows[0])
    else ConversationById(rows[1..], id)
  }

  function FindProfile(rows: seq<Profile>, id: string): (r: Option<Profile>)
    ensures r.Some? ==> r.value in rows && r.value.id == id
    ensures r.None? ==> forall p :: p in rows ==> p.id != id
  {
    if rows == [] then None
    else if rows[0].id == id then Some(rows[0])
    else FindProfile(rows[1..], id)
  }

  function MessagesOf(rows: seq<Message>, conversationId: string): seq<Message>
  {
    Filter(rows, (m: Message) => m.conversationId == conversationId)
  }

  predicate TimestampAsc(a: Message, b: Message) { a.timestamp <= b.timestamp }
  predicate TimestampDesc(a: Message, b: Message) { a.timestamp >= b.timestamp }

  lemma MessageOrdersTotal()
    ensures TotalPreorder(TimestampAsc) && TotalPreorder(TimestampDesc)
  {
  }

  /** `.order("timestamp", desc=False)` over one conversation's messages. */
  function MessagesByTime(rows: seq<Message>, conversationId: string): (r: seq<Message>)
    ensures SortedBy(r, TimestampAsc)
    ensures multiset(r) == multiset(MessagesOf(rows, conversationId))
  {
    MessageOrdersTotal();
    SortBy(MessagesOf(rows, conversationId), TimestampAsc)
  }

  predicate UniqueRequestIds(rows: seq<AgentRequest>)
  {
    forall i, j :: 0 <= i < j < |rows| ==> rows[i].id != rows[j].id
  }
}
