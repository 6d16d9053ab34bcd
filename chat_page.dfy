/**
 * The conversation page: which view it renders, and the conversion of a
 * stored conversation's messages into the chat box's message shape.
 */
module ChatPage {
  import opened Wrappers
  import opened Seqs
  import ChatBase

  /** A stored message as the conversation hook returns it. */
  datatype HistoryMessage = HistoryMessage(
    id: string,
    role: string,
    content: string,
    timestamp: ChatBase.Stamp,
    rating: Option<ChatBase.Rating>,
    imageUrl: Option<string>)

  datatype Sender = User | UniBot

  /** The chat box's message shape. */
  datatype PageMessage = PageMessage(
    id: string,
    sender: Sender,
    text: string,
    timestamp: Option<string>,
    avatar: Option<string>,
    rating: Option<ChatBase.Rating>,
    imageUrl: Option<string>)

  const BotAvatar: string := "/images/logo_uni.png"
  const NotFound: string := "Conversación no encontrada"

  /** One message of convertMessages; a Date timestamp's locale text is not modelled (None). */
  function Convert(): HistoryMessage -> PageMessage
  {
    (h: HistoryMessage) =>
      PageMessage(h.id, if h.role == "user" then User else UniBot, h.content,
                  if h.timestamp.StampText? then Some(h.timestamp.text) else None,
                  if h.role == "assistant" then Some(BotAvatar) else None,
                  h.rating, h.imageUrl)
  }

  /** convertMessages: one chat message per stored message, in order, fields carried over. */
  function ConvertMessages(hs: seq<HistoryMessage>): (r: seq<PageMessage>)
    ensures |r| == |hs|
    ensures forall k :: 0 <= k < |hs| ==>
      r[k].id == hs[k].id && r[k].text == hs[k].content && r[k].rating == hs[k].rating && r[k].imageUrl == hs[k].imageUrl
    ensures forall k :: 0 <= k < |hs| ==> (r[k].sender == User <==> hs[k].role == "user")
    ensures forall k :: 0 <= k < |hs| ==> (r[k].avatar.Some? <==> hs[k].role == "assistant")
    ensures forall k :: 0 <= k < |hs| && hs[k].timestamp.StampText? ==> r[k].timestamp == Some(hs[k].timestamp.text)
  {
    Map(hs, Convert())
  }

  function SentByUser(): PageMessage -> bool { (m: PageMessage) => m.sender == User }
  function RoleIsUser(): HistoryMessage -> bool { (h: HistoryMessage) => h.role == "user" }

  /** The page shows as many user messages as the conversation stores. */
  lemma {:induction false} ConvertKeepsUserCount(hs: seq<HistoryMessage>)
    ensures Count(ConvertMessages(hs), SentByUser()) == Count(hs, RoleIsUser())
  {
    if hs != [] {
      ConvertKeepsUserCount(hs[1..]);
      assert ConvertMessages(hs)[1..] == ConvertMessages(hs[1..]);
    }
  }

  /** What the conversation hook has delivered. */
  datatype Loaded = Loaded(loading: bool, error: Option<string>, conversation: Option<(string, seq<HistoryMessage>)>)

  datatype View =
    | PlainChat
    | LoadingView
    | ErrorView(message: string)
    | History(conversationId: string, messages: seq<PageMessage>)

  /** `propConversationId || params.id`: the prop unless it is missing or empty. */
  function ConversationId(prop: Option<string>, param: Option<string>): Option<string>
  {
    if prop.Some? && prop.value != "" then prop else param
  }

  /** The page: no id renders the plain chat; then loading; then the error; then the converted history. */
  function Page(prop: Option<string>, param: Option<string>, data: Loaded): (v: View)
    ensures v.PlainChat? <==> ConversationId(prop, param).None? || ConversationId(prop, param).value == ""
    ensures v.LoadingView? <==> !v.PlainChat? && data.loading
    ensures v.ErrorView? ==> v.message == (if data.error.Some? && data.error.value != "" then data.error.value else NotFound)
    ensures v.History? <==> !v.PlainChat? && !data.loading && !(data.error.Some? && data.error.value != "") &&
                            data.conversation.Some?
    ensures v.History? ==> v.conversationId == data.conversation.value.0 &&
                           v.messages == ConvertMessages(data.conversation.value.1)
  {
    var id := ConversationId(prop, param);
    if id.None? || id.value == "" then PlainChat
    else if data.loading then LoadingView
    else if (data.error.Some? && data.error.value != "") || data.conversation.None? then
      ErrorView(if data.error.Some? && data.error.value != "" then data.error.value else NotFound)
    else History(data.conversation.value.0, ConvertMessages(data.conversation.value.1))
  }
}
