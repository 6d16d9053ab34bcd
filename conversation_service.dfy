/** conversation_service.py: conversations, messages, titles, escalation and ratings. */
module ConversationService {
  import opened Wrappers
  import opened Strings
  import opened Seqs
  import opened ChatTables

  const DefaultTitle: string := "Nueva conversación"

  // ---------- escalation detection ----------

  const EscalationPhrases: seq<string> := [
    "hablar con un humano", "hablar con una persona", "quiero hablar con alguien",
    "conectarme con un agente", "necesito ayuda humana", "transferirme a soporte",
    "hablar con un operador", "atención al cliente", "representante humano",
    "speak to a human", "talk to a person", "connect me with an agent", "human help",
    "transfer to support", "speak to an operator", "customer service", "human representative",
    "agente", "operador", "persona real", "real person"
  ]

  /** Some phrase of the list occurs in `text`. */
  function AnyPhraseIn(phrases: seq<string>, text: string): (b: bool)
    ensures b <==> exists i :: 0 <= i < |phrases| && Contains(text, phrases[i])
  {
    if phrases == [] then false
    else Contains(text, phrases[0]) || AnyPhraseIn(phrases[1..], text)
  }

  /** `detect_escalation_request`: a listed phrase occurs in the lower-cased message. */
  function DetectEscalationRequest(message: string): (b: bool)
    ensures b <==> exists i :: 0 <= i < |EscalationPhrases| && Contains(Lower(message), EscalationPhrases[i])
  {
    AnyPhraseIn(EscalationPhrases, Lower(message))
  }

  /** Text added before or after a triggering message never switches detection off. */
  lemma {:induction false} DetectionSurvivesContext(pre: string, message: string, post: string)
    requires DetectEscalationRequest(message)
    ensures DetectEscalationRequest(pre + message + post)
  {
    var i :| 0 <= i < |EscalationPhrases| && Contains(Lower(message), EscalationPhrases[i]);
    LowerConcat(pre, message);
    LowerConcat(pre + message, post);
    ContainsExtend(Lower(pre), Lower(message), Lower(post), EscalationPhrases[i]);
  }

  /** Matching ignores case: a message triggers iff its lower-cased form does. */
  lemma DetectionIgnoresCase(message: string)
    ensures DetectEscalationRequest(message) == DetectEscalationRequest(Lower(message))
  {
    var l := Lower(message);
    LowerIdempotent(message);
    calc {
      DetectEscalationRequest(l);
      AnyPhraseIn(EscalationPhrases, Lower(l));
      AnyPhraseIn(EscalationPhrases, l);
      DetectEscalationRequest(message);
    }
  }

  /** Any word that contains "agente" triggers: the match is on substrings, not whole words. */
  lemma {:induction false} AgenteAnywhereTriggers(pre: string, post: string)
    ensures DetectEscalationRequest(pre + "agente" + post)
  {
    AgenteTriggers();
    DetectionSurvivesContext(pre, "agente", post);
  }

  /** The single word "agente" is a listed phrase. */
  lemma AgenteTriggers()
    ensures DetectEscalationRequest("agente")
  {
    var word := "agente";
    assert EscalationPhrases[17] == word;
    LowerOfLowercase(word);
    assert OccursAt(word, word, 0);
  }

  /** Inputs from the repository's own manual escalation script. */
  lemma ExampleUpperCase()
    ensures DetectEscalationRequest("AGENTE")
  {
    assert Lower("AGENTE") == "agente";
    assert OccursAt("agente", "agente", 0);
    assert EscalationPhrases[17] == "agente";
  }

  lemma ExampleSentence()
    ensures DetectEscalationRequest("necesito hablar con un agente")
  {
    AgenteAnywhereTriggers("necesito hablar con un ", "");
    assert "necesito hablar con un " + "agente" + "" == "necesito hablar con un agente";
  }

  lemma PhrasesAreLong()
    ensures forall i :: 0 <= i < |EscalationPhrases| ==> |EscalationPhrases[i]| >= 6
  {
  }

  /** A message shorter than every phrase (a greeting such as "hola") cannot trigger. */
  lemma ShortMessageNeverEscalates(message: string)
    requires |message| < 6
    ensures !DetectEscalationRequest(message)
  {
    PhrasesAreLong();
  }

  // ---------- creating conversations and saving messages ----------

  /** The row `create_conversation` inserts: default title, not escalated. */
  function NewConversation(id: string, userId: string, now: int): (c: Conversation)
    ensures c.id == id && c.userId == userId
  {
    Conversation(id, userId, DefaultTitle, false, None, false, None, now, now, now)
  }

  method CreateConversation(db: ChatDb, id: string, userId: string, now: int) returns (c: Conversation)
    modifies db
    ensures c == NewConversation(id, userId, now)
    ensures db.conversations == old(db.conversations) + [c]
    ensures db.messages == old(db.messages) && db.requests == old(db.requests) && db.profiles == old(db.profiles)
  {
    c := NewConversation(id, userId, now);
    db.conversations := db.conversations + [c];
  }

  /** `save_message`: appends one row stamped with `now`. */
  method SaveMessage(db: ChatDb, id: string, conversationId: string, role: string, content: string,
                     responseType: string, now: int) returns (m: Message)
    modifies db
    ensures m == Message(id, conversationId, role, content, responseType, now, None, None, None)
    ensures db.messages == old(db.messages) + [m]
    ensures db.conversations == old(db.conversations) && db.requests == old(db.requests) && db.profiles == old(db.profiles)
  {
    m := Message(id, conversationId, role, content, responseType, now, None, None, None);
    db.messages := db.messages + [m];
  }

  function CountUserMessages(rows: seq<Message>, conversationId: string): nat
  {
    Count(rows, (m: Message) => m.conversationId == conversationId && m.role == "user")
  }

  /**
   * `get_conversation_messages`: the conversation's oldest messages, oldest first: as many as
   * it has up to `limit`, with no message left out that is older than one kept.
   */
  function ConversationMessages(rows: seq<Message>, conversationId: string, limit: nat): (r: seq<Message>)
    ensures |r| == if |MessagesOf(rows, conversationId)| < limit then |MessagesOf(rows, conversationId)| else limit
    ensures SortedBy(r, TimestampAsc)
    ensures forall k :: 0 <= k < |r| ==> r[k] in rows && r[k].conversationId == conversationId
    ensures forall m :: m in rows && m.conversationId == conversationId && m !in r ==>
      forall k :: 0 <= k < |r| ==> r[k].timestamp <= m.timestamp
    ensures |MessagesOf(rows, conversationId)| <= limit ==> multiset(r) == multiset(MessagesOf(rows, conversationId))
  {
    MessageOrdersTotal();
    var own := MessagesOf(rows, conversationId);
    forall m | m in rows && m.conversationId == conversationId ensures m in own {
    }
    FirstBy(own, TimestampAsc, limit)
  }

  // ---------- titles ----------

  /** The post-processing of the model's reply: strip, strip '"', strip "'", keep 100 characters. */
  function CleanTitle(reply: string): (t: string)
    ensures |t| <= 100
    ensures Contains(reply, t)
  {
    var a := Trim(reply);
    var b := StripChar(a, '"');
    var c := StripChar(b, '\'');
    var t := Take(c, 100);
    CleanTitleIsSlice(reply);
    t
  }

  lemma CleanTitleIsSlice(reply: string)
    ensures Contains(reply, Take(StripChar(StripChar(Trim(reply), '"'), '\''), 100))
  {
    var a := Trim(reply);
    var b := StripChar(a, '"');
    TrimIsSlice(reply);
    StripCharIsSlice(a, '"');
    ContainsTrans(reply, a, b);
    CleanTail(reply, b);
  }

  lemma CleanTail(reply: string, b: string)
    requires Contains(reply, b)
    ensures Contains(reply, Take(StripChar(b, '\''), 100))
  {
    var c := StripChar(b, '\'');
    StripCharIsSlice(b, '\'');
    ContainsTrans(reply, b, c);
    TakeIsSlice(c, 100);
    ContainsTrans(reply, c, Take(c, 100));
  }

  /** A reply that is already a clean, short title is kept as it is. */
  lemma CleanTitleKeepsCleanReply(reply: string)
    requires reply != [] && |reply| <= 100
    requires !IsSpace(reply[0]) && !IsSpace(reply[|reply| - 1])
    requires reply[0] != '"' && reply[|reply| - 1] != '"' && reply[0] != '\'' && reply[|reply| - 1] != '\''
    ensures CleanTitle(reply) == reply
  {
    TrimNoop(reply);
    assert StripStartChar(reply, '"') == reply;
    assert StripEndChar(reply, '"') == reply;
    assert StripStartChar(reply, '\'') == reply;
    assert StripEndChar(reply, '\'') == reply;
  }

  /**
   * `generate_conversation_title` around the model call: no title for fewer than two
   * messages, else the cleaned reply (possibly empty, which callers treat as no title).
   */
  function GenerateTitle(history: seq<Message>, reply: string): (r: Option<string>)
    ensures r.None? <==> |history| < 2
    ensures r.Some? ==> |r.value| <= 100 && Contains(reply, r.value)
  {
    if |history| < 2 then None else Some(CleanTitle(reply))
  }

  /** The guard of `auto_generate_title_if_needed`: no (truthy) title yet and exactly three user messages. */
  predicate NeedsTitle(title: string, userMessages: nat)
  {
    title == "" && userMessages == 3
  }

  /** Every conversation is created with the non-empty default title, so the guard never opens for it. */
  lemma DefaultTitleNeverAutoTitled(id: string, userId: string, now: int, userMessages: nat)
    ensures !NeedsTitle(NewConversation(id, userId, now).title, userMessages)
  {
  }

  /** Sets `title` and `updated_at` on the rows with that id. */
  function SetTitle(rows: seq<Conversation>, id: string, title: string, now: int): (r: seq<Conversation>)
    ensures |r| == |rows|
    ensures forall k :: 0 <= k < |rows| ==>
      r[k] == if rows[k].id == id then rows[k].(title := title, updatedAt := now) else rows[k]
  {
    if rows == [] then []
    else [if rows[0].id == id then rows[0].(title := title, updatedAt := now) else rows[0]]
         + SetTitle(rows[1..], id, title, now)
  }

  /** `update_conversation_title`: true iff some row has that id. */
  method UpdateConversationTitle(db: ChatDb, id: string, title: string, now: int) returns (ok: bool)
    modifies db
    ensures ok <==> ConversationById(old(db.conversations), id).Some?
    ensures db.conversations == SetTitle(old(db.conversations), id, title, now)
    ensures db.messages == old(db.messages) && db.requests == old(db.requests) && db.profiles == old(db.profiles)
  {
    ok := ConversationById(db.conversations, id).Some?;
    db.conversations := SetTitle(db.conversations, id, title, now);
  }

  /** The conversations table after `auto_generate_title_if_needed(id)` with the model replying `reply`. */
  function AutoTitle(convs: seq<Conversation>, msgs: seq<Message>, id: string, reply: string, now: int): seq<Conversation>
  {
    match ConversationById(convs, id)
    case None => convs                                     // `.single()` finds no row: the error is swallowed
    case Some(c) =>
      if !NeedsTitle(c.title, CountUserMessages(msgs, id)) then convs
      else
        var history := MessagesByTime(msgs, id);
        var first := if |history| <= 6 then history else history[..6];
        match GenerateTitle(first, reply)
        case Some(t) => if t != "" then SetTitle(convs, id, t, now) else convs
        case None => convs
  }

  method AutoGenerateTitleIfNeeded(db: ChatDb, id: string, reply: string, now: int)
    modifies db
    ensures db.conversations == AutoTitle(old(db.conversations), old(db.messages), id, reply, now)
    ensures db.messages == old(db.messages) && db.requests == old(db.requests) && db.profiles == old(db.profiles)
  {
    db.conversations := AutoTitle(db.conversations, db.messages, id, reply, now);
  }

  /** Auto-titling leaves a conversation that already has a title untouched. */
  lemma {:induction false} AutoTitleKeepsExistingTitle(convs: seq<Conversation>, msgs: seq<Message>, id: string, reply: string, now: int)
    requires forall c :: c in convs && c.id == id ==> c.title != ""
    ensures AutoTitle(convs, msgs, id, reply, now) == convs
  {
  }

  /** Only the conversation's own rows change, and only their title and `updated_at`. */
  lemma {:induction false} AutoTitleChangesOnlyTitle(convs: seq<Conversation>, msgs: seq<Message>, id: string, reply: string, now: int)
    ensures |AutoTitle(convs, msgs, id, reply, now)| == |convs|
    ensures forall k :: 0 <= k < |convs| ==>
      var c := AutoTitle(convs, msgs, id, reply, now)[k];
      c == convs[k] || (convs[k].id == id && c == convs[k].(title := c.title, updatedAt := now) && 0 < |c.title| <= 100)
  {
  }

  // ---------- escalation and rating ----------

  function EscalateRows(rows: seq<Conversation>, id: string, now: int): (r: seq<Conversation>)
    ensures |r| == |rows|
    ensures forall k :: 0 <= k < |rows| ==>
      r[k] == if rows[k].id == id then rows[k].(isEscalated := true, escalatedAt := Some(now), updatedAt := now) else rows[k]
  {
    if rows == [] then []
    else [if rows[0].id == id then rows[0].(isEscalated := true, escalatedAt := Some(now), updatedAt := now) else rows[0]]
         + EscalateRows(rows[1..], id, now)
  }

  /** `escalate_conversation`: true iff a row was updated. */
  method EscalateConversation(db: ChatDb, id: string, now: int) returns (ok: bool)
    modifies db
    ensures ok <==> ConversationById(old(db.conversations), id).Some?
    ensures db.conversations == EscalateRows(old(db.conversations), id, now)
    ensures db.messages == old(db.messages) && db.requests == old(db.requests) && db.profiles == old(db.profiles)
  {
    ok := ConversationById(db.conversations, id).Some?;
    db.conversations := EscalateRows(db.conversations, id, now);
  }

  /** New conversations are not escalated; escalating sets the flag and the time on the target only. */
  lemma {:induction false} EscalationFlag(rows: seq<Conversation>, id: string, userId: string, now: int, t: int)
    ensures !NewConversation(id, userId, now).isEscalated
    ensures forall c :: c in EscalateRows(rows, id, t) && c.id == id ==> c.isEscalated && c.escalatedAt == Some(t)
  {
    var r := EscalateRows(rows, id, t);
    forall c | c in r && c.id == id ensures c.isEscalated && c.escalatedAt == Some(t) {
      var k :| 0 <= k < |r| && r[k] == c;
    }
  }

  predicate ValidRating(rating: string)
  {
    rating == "up" || rating == "down"
  }

  function RateRows(rows: seq<Message>, id: string, rating: string, now: int): (r: seq<Message>)
    ensures |r| == |rows|
    ensures forall k :: 0 <= k < |rows| ==>
      r[k] == if rows[k].id == id then rows[k].(rating := Some(rating), ratedAt := Some(now)) else rows[k]
  {
    if rows == [] then []
    else [if rows[0].id == id then rows[0].(rating := Some(rating), ratedAt := Some(now)) else rows[0]]
         + RateRows(rows[1..], id, rating, now)
  }

  /** `rate_message`: an invalid rating writes nothing and yields false. */
  method RateMessage(db: ChatDb, id: string, rating: string, now: int) returns (ok: bool)
    modifies db
    ensures !ValidRating(rating) ==> !ok && db.messages == old(db.messages)
    ensures ValidRating(rating) ==>
      db.messages == RateRows(old(db.messages), id, rating, now) &&
      (ok <==> exists m :: m in old(db.messages) && m.id == id)
    ensures db.conversations == old(db.conversations) && db.requests == old(db.requests) && db.profiles == old(db.profiles)
  {
    if !ValidRating(rating) {
      return false;
    }
    ok := exists k :: 0 <= k < |db.messages| && db.messages[k].id == id;
    db.messages := RateRows(db.messages, id, rating, now);
  }

  // ---------- the conversation list ----------

  /** The preview: at most 100 characters, with "..." appended only when something was cut. */
  function Preview(content: string): (p: string)
    ensures |content| <= 100 ==> p == content
    ensures |content| > 100 ==> p == content[..100] + "..."
  {
    if |content| > 100 then content[..100] + "..." else content
  }

  lemma PreviewBounded(content: string)
    ensures |Preview(content)| <= 103
    ensures StartsWith(Preview(content), Take(content, 100))
  {
  }

  predicate ByLastMessageDesc(a: Conversation, b: Conversation) { a.lastMessageAt >= b.lastMessageAt }

  predicate Eligible(m: Message, conversationId: string)
  {
    m.conversationId == conversationId && m.responseType != "greeting"
  }

  /** The preview query: that conversation's messages but greetings, newest first, first row. */
  function LatestNonGreeting(rows: seq<Message>, conversationId: string): (r: Option<Message>)
  {
    MessageOrdersTotal();
    var sorted := SortBy(Filter(rows, (m: Message) => Eligible(m, conversationId)), TimestampDesc);
    if sorted == [] then None else Some(sorted[0])
  }

  /** The preview comes from the newest non-greeting message, and is absent only when there is none. */
  lemma {:induction false} LatestNonGreetingIsNewest(rows: seq<Message>, conversationId: string)
    ensures var r := LatestNonGreeting(rows, conversationId);
      (r.Some? ==> r.value in rows && Eligible(r.value, conversationId)) &&
      (r.Some? ==> forall m :: m in rows && Eligible(m, conversationId) ==> m.timestamp <= r.value.timestamp) &&
      (r.None? <==> forall m :: m in rows ==> !Eligible(m, conversationId))
  {
    MessageOrdersTotal();
    var eligible := Filter(rows, (m: Message) => Eligible(m, conversationId));
    if eligible != [] {
      SortByHead(eligible, TimestampDesc);
      var h := eligible[0];
      assert Eligible(h, conversationId) && h in rows;
    }
  }

  datatype ConversationSummary = ConversationSummary(conversation: Conversation, messageCount: nat, lastMessage: Option<string>)

  function Summarize(c: Conversation, rows: seq<Message>): ConversationSummary
  {
    var last := LatestNonGreeting(rows, c.id);
    ConversationSummary(c, |MessagesOf(rows, c.id)|,
      if last.Some? then Some(Preview(last.value.content)) else None)
  }

  function OwnedBy(userId: string): Conversation -> bool
  {
    (c: Conversation) => c.userId == userId
  }

  /**
   * The user's conversations, most recent activity first: as many as the user has up to
   * `limit`, none newer left out.
   */
  function UserConversations(rows: seq<Conversation>, userId: string, limit: nat): (r: seq<Conversation>)
    ensures |r| == if |Filter(rows, OwnedBy(userId))| < limit then |Filter(rows, OwnedBy(userId))| else limit
    ensures forall k :: 0 <= k < |r| ==> r[k] in rows && r[k].userId == userId
    ensures SortedBy(r, ByLastMessageDesc)
    ensures forall c :: c in rows && c.userId == userId && c !in r ==>
      forall k :: 0 <= k < |r| ==> r[k].lastMessageAt >= c.lastMessageAt
  {
    var own := Filter(rows, OwnedBy(userId));
    var r := FirstBy(own, ByLastMessageDesc, limit);
    assert forall c :: c in rows && c.userId == userId ==> c in own by {
      forall c | c in rows && c.userId == userId ensures c in own {
        assert OwnedBy(userId)(c);
      }
    }
    r
  }

  function SummaryIn(rows: seq<Message>): Conversation -> ConversationSummary
  {
    (c: Conversation) => Summarize(c, rows)
  }

  /** `get_user_conversations`: each selected conversation enriched in a loop. */
  method GetUserConversations(db: ChatDb, userId: string, limit: nat) returns (r: seq<ConversationSummary>)
    ensures |r| <= limit
    ensures r == Map(UserConversations(db.conversations, userId, limit), SummaryIn(db.messages))
  {
    var convs := UserConversations(db.conversations, userId, limit);
    r := [];
    for i := 0 to |convs|
      invariant r == Map(convs[..i], SummaryIn(db.messages))
    {
      var summary := Summarize(convs[i], db.messages);
      MapPrefixStep(convs, i, SummaryIn(db.messages));
      r := r + [summary];
    }
    assert convs[..|convs|] == convs;
  }

  /** Every listed preview is at most 103 characters and comes from a message of that conversation. */
  lemma {:induction false} SummaryPreviewBounded(c: Conversation, rows: seq<Message>)
    ensures Summarize(c, rows).lastMessage.Some? ==> |Summarize(c, rows).lastMessage.value| <= 103
    ensures Summarize(c, rows).lastMessage.None? <==> LatestNonGreeting(rows, c.id).None?
  {
    var last := LatestNonGreeting(rows, c.id);
    if last.Some? { PreviewBounded(last.value.content); }
  }

  // ---------- deletion ----------

  /** `delete_conversation`: its messages first, then the conversation; reports success either way. */
  method DeleteConversation(db: ChatDb, id: string) returns (ok: bool)
    modifies db
    ensures ok
    ensures db.messages == Filter(old(db.messages), (m: Message) => m.conversationId != id)
    ensures db.conversations == Filter(old(db.conversations), (c: Conversation) => c.id != id)
    ensures db.requests == old(db.requests) && db.profiles == old(db.profiles)
  {
    db.messages := Filter(db.messages, (m: Message) => m.conversationId != id);
    db.conversations := Filter(db.conversations, (c: Conversation) => c.id != id);
    ok := true;
  }

  /** After deletion nothing of the conversation is left and every other row survives. */
  lemma DeletionIsExact(convs: seq<Conversation>, msgs: seq<Message>, id: string)
    ensures MessagesOf(Filter(msgs, (m: Message) => m.conversationId != id), id) == []
    ensures ConversationById(Filter(convs, (c: Conversation) => c.id != id), id).None?
    ensures forall m :: m in msgs && m.conversationId != id ==> m in Filter(msgs, (m: Message) => m.conversationId != id)
  {
    var rest := Filter(msgs, (m: Message) => m.conversationId != id);
    forall m | m in rest ensures m.conversationId != id {
      var k :| 0 <= k < |rest| && rest[k] == m;
    }
    FilterNone(rest, (m: Message) => m.conversationId == id);
  }
}
