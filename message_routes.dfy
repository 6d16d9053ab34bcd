/**
 * The image message routes: posting a message with an attached image, and
 * removing the image from a message.
 */
module MessageRoutes {
  import opened Wrappers
  import opened Seqs
  import opened ChatTables
  import Cloudinary

  // ---------- send_message_with_image ----------

  /** The first `in_progress` agent request of a conversation, in table order. */
  function FirstInProgress(requests: seq<AgentRequest>, conversationId: string): (r: Option<AgentRequest>)
    ensures r.Some? ==> r.value in requests && r.value.conversationId == conversationId && r.value.status == InProgress
    ensures r.None? ==> forall q :: q in requests ==> !(q.conversationId == conversationId && q.status == InProgress)
  {
    if requests == [] then None
    else if requests[0].conversationId == conversationId && requests[0].status == InProgress then Some(requests[0])
    else FirstInProgress(requests[1..], conversationId)
  }

  /** Who may post in a conversation: its owner, or the agent of its first in-progress request. */
  predicate MayPost(conversation: Conversation, requests: seq<AgentRequest>, userId: string)
  {
    conversation.userId == userId ||
    (FirstInProgress(requests, conversation.id).Some? &&
     FirstInProgress(requests, conversation.id).value.agentId == Some(userId))
  }

  /** A stranger to the conversation is never allowed to post in it. */
  lemma StrangerMayNotPost(conversation: Conversation, requests: seq<AgentRequest>, userId: string)
    requires conversation.userId != userId
    requires forall q :: q in requests && q.conversationId == conversation.id ==> q.agentId != Some(userId)
    ensures !MayPost(conversation, requests, userId)
  {
  }

  /** The stored role: "assistant" for a caller whose profile role is "agent", "user" otherwise. */
  function SenderRole(profiles: seq<Profile>, userId: string): (role: string)
    ensures role == "assistant" || role == "user"
    ensures role == "assistant" <==> FindProfile(profiles, userId).Some? && FindProfile(profiles, userId).value.role == "agent"
  {
    var p := FindProfile(profiles, userId);
    if p.Some? && p.value.role == "agent" then "assistant" else "user"
  }

  /** `content or ""`: a missing text is stored as empty. */
  function StoredText(content: Option<string>): (r: string)
    ensures content.Some? ==> r == content.value
    ensures content.None? ==> r == ""
  {
    if content.Some? then content.value else ""
  }

  /** "image" when the message has no text (missing or empty), "text_with_image" otherwise. */
  function ImageResponseType(content: Option<string>): (r: string)
    ensures r == "image" <==> StoredText(content) == ""
    ensures r == "image" || r == "text_with_image"
  {
    if content.None? || content.value == "" then "image" else "text_with_image"
  }

  /** The conversation rows after its `last_message_at` is stamped. */
  function Touch(id: string, now: int): Conversation -> Conversation
  {
    (c: Conversation) => if c.id == id then c.(lastMessageAt := now) else c
  }

  /** The outcome of posting an image message. */
  datatype Posted = Posted(message: Message, imageUrl: string)

  /**
   * send_message_with_image. `uploaded` is the uploader's URL (None when it
   * failed), `messageId` the fresh id, `insertOk` whether the insert
   * returned the row, `destroyReply` the reply of the compensating delete.
   * `compensated` is the image whose deletion was attempted.
   */
  method SendMessageWithImage(db: ChatDb, conversationId: string, userId: string, content: Option<string>,
                              file: Cloudinary.ImageFile, config: Cloudinary.UploadConfig, uploaded: Option<string>,
                              messageId: string, now: int, insertOk: bool, destroyReply: Option<string>)
    returns (r: Result<Posted>, compensated: Option<string>)
    modifies db
    ensures ConversationById(old(db.conversations), conversationId).None? ==> r == Fail(Http(404))
    ensures r.Ok? ==> MayPost(ConversationById(old(db.conversations), conversationId).value, old(db.requests), userId)
    ensures ConversationById(old(db.conversations), conversationId).Some? &&
            !MayPost(ConversationById(old(db.conversations), conversationId).value, old(db.requests), userId) ==>
            r == Fail(Http(403))
    ensures r.Ok? ==> Cloudinary.UploadImage(file, None, config, uploaded) == Ok(r.value.imageUrl)
    ensures r.Ok? ==> r.value.message == Message(messageId, conversationId, SenderRole(old(db.profiles), userId),
                                                StoredText(content), ImageResponseType(content), now, None, None,
                                                Some(r.value.imageUrl))
    ensures r.Ok? ==> db.messages == old(db.messages) + [r.value.message]
    ensures r.Ok? ==> db.conversations == Map(old(db.conversations), Touch(conversationId, now))
    ensures !r.Ok? ==> db.messages == old(db.messages) && db.conversations == old(db.conversations)
    ensures compensated.Some? <==> r == Fail(Http(500)) && !insertOk &&
                                   Cloudinary.UploadImage(file, None, config, uploaded).Ok?
    ensures compensated.Some? ==> Cloudinary.UploadImage(file, None, config, uploaded) == Ok(compensated.value)
    ensures var c := ConversationById(old(db.conversations), conversationId);
            var u := Cloudinary.UploadImage(file, None, config, uploaded);
            c.Some? && MayPost(c.value, old(db.requests), userId) ==>
              (u.Fail? ==> r == Fail(u.error)) &&
              (u.Ok? ==> (r.Ok? <==> insertOk) && (!insertOk ==> r == Fail(Http(500))) &&
                         (insertOk ==> r.Ok? && r.value.imageUrl == u.value))
    ensures db.requests == old(db.requests) && db.profiles == old(db.profiles)
  {
    compensated := None;
    var conversation := ConversationById(db.conversations, conversationId);
    if conversation.None? {
      return Fail(Http(404)), None;
    }
    if !MayPost(conversation.value, db.requests, userId) {
      return Fail(Http(403)), None;
    }
    var upload := Cloudinary.UploadImage(file, None, config, uploaded);
    if upload.Fail? {
      return Fail(upload.error), None;
    }
    var url := upload.value;
    var role := SenderRole(db.profiles, userId);
    var message := Message(messageId, conversationId, role, StoredText(content), ImageResponseType(content),
                           now, None, None, Some(url));
    if !insertOk {
      var _ := Cloudinary.DeleteImage(url, destroyReply);
      return Fail(Http(500)), Some(url);
    }
    db.messages := db.messages + [message];
    db.conversations := Map(db.conversations, Touch(conversationId, now));
    r := Ok(Posted(message, url));
  }

  // ---------- delete_message_image ----------

  /** The first message with that id. */
  function MessageById(rows: seq<Message>, id: string): (r: Option<Message>)
    ensures r.Some? ==> r.value in rows && r.value.id == id
    ensures r.None? ==> forall m :: m in rows ==> m.id != id
  {
    if rows == [] then None
    else if rows[0].id == id then Some(rows[0])
    else MessageById(rows[1..], id)
  }

  /** Who may remove a message's image: the conversation's owner, or any agent. */
  predicate MayRemoveImage(conversation: Option<Conversation>, profiles: seq<Profile>, userId: string)
  {
    (conversation.Some? && conversation.value.userId == userId) ||
    (FindProfile(profiles, userId).Some? && FindProfile(profiles, userId).value.role == "agent")
  }

  /** The update of the rows with that id: no image, response type "text". */
  function ClearImage(id: string): Message -> Message
  {
    (m: Message) => if m.id == id then m.(imageUrl := None, responseType := "text") else m
  }

  /** After clearing, no message with that id carries an image; the other messages are unchanged. */
  lemma ClearImageEffect(rows: seq<Message>, id: string)
    ensures |Map(rows, ClearImage(id))| == |rows|
    ensures forall k :: 0 <= k < |rows| && rows[k].id == id ==>
      Map(rows, ClearImage(id))[k] == rows[k].(imageUrl := None, responseType := "text")
    ensures forall k :: 0 <= k < |rows| && rows[k].id != id ==> Map(rows, ClearImage(id))[k] == rows[k]
  {
  }

  /** Clearing twice is clearing once. */
  lemma ClearImageIdempotent(rows: seq<Message>, id: string)
    ensures Map(Map(rows, ClearImage(id)), ClearImage(id)) == Map(rows, ClearImage(id))
  {
    var once := Map(rows, ClearImage(id));
    assert forall k :: 0 <= k < |once| ==> Map(once, ClearImage(id))[k] == once[k];
  }

  /**
   * delete_message_image. `destroyReply` is the image store's reply;
   * `destroyed` is the public id handed to destroy, if it was called.
   */
  method DeleteMessageImage(db: ChatDb, messageId: string, userId: string, destroyReply: Option<string>)
    returns (r: Result<bool>, destroyed: Option<string>)
    modifies db
    ensures MessageById(old(db.messages), messageId).None? ==> r == Fail(Http(404))
    ensures MessageById(old(db.messages), messageId).Some? ==>
      var m := MessageById(old(db.messages), messageId).value;
      (r.Ok? <==> MayRemoveImage(ConversationById(old(db.conversations), m.conversationId), old(db.profiles), userId)) &&
      (!r.Ok? ==> r == Fail(Http(403))) &&
      (r.Ok? && m.imageUrl.Some? && m.imageUrl.value != "" ==> destroyed == Cloudinary.PublicId(m.imageUrl.value))
    ensures destroyed.Some? ==> r.Ok?
    ensures r.Ok? ==> r.value && db.messages == Map(old(db.messages), ClearImage(messageId))
    ensures !r.Ok? ==> db.messages == old(db.messages)
    ensures db.conversations == old(db.conversations) && db.requests == old(db.requests) && db.profiles == old(db.profiles)
  {
    destroyed := None;
    var found := MessageById(db.messages, messageId);
    if found.None? {
      return Fail(Http(404)), None;
    }
    var m := found.value;
    var conversation := ConversationById(db.conversations, m.conversationId);
    if !MayRemoveImage(conversation, db.profiles, userId) {
      return Fail(Http(403)), None;
    }
    if m.imageUrl.Some? && m.imageUrl.value != "" {
      var deletion := Cloudinary.DeleteImage(m.imageUrl.value, destroyReply);
      destroyed := deletion.0;
    }
    db.messages := Map(db.messages, ClearImage(messageId));
    r := Ok(true);
  }
}
