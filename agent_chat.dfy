/**
 * The agent's view of an active case: the welcome message put in front of
 * the history, the de-duplicated appends of received and sent messages,
 * the send flow with its in-progress flag and the image size limit.
 *
 * Timestamps are milliseconds since the epoch. The websocket and HTTP
 * calls are external: whether the socket is connected, the temporary id
 * of a socket send and the HTTP reply (None when the call fails) are
 * parameters.
 */
module AgentChat {
  import opened Wrappers
  import opened Strings

  datatype AgentMessage = AgentMessage(
    id: string,
    conversationId: string,
    content: Option<string>,
    role: string,
    timestamp: int,
    responseType: string)

  /** A message received over the websocket. */
  datatype SocketMessage = SocketMessage(id: string, role: string, content: string, timestamp: int)

  // ---------- the welcome message ----------

  const WelcomeId: string := "welcome-agent-view"
  const GreetingMarker: string := "¡Hola! Soy UniBot"
  const FaqMarker: string := "Estas son algunas preguntas frecuentes"
  const FallbackGreeting: string := GreetingMarker + " 🤖. ¿En qué puedo ayudarte hoy?"
  const FaqGreetingHead: string := GreetingMarker + " 🤖. " + FaqMarker + " que puedo responder:\n\n"
  const FaqGreetingTail: string :=
    "\n\nTambién puedes hacerme cualquier pregunta sobre la universidad o escribir 'Agente' para hablar con un agente de soporte."

  /** The line of the k-th FAQ (0-based): "k+1. question". */
  function FaqLine(k: nat, question: string): string
  {
    NatToString(k + 1) + ". " + question
  }

  function FaqLines(questions: seq<string>): (r: seq<string>)
    ensures |r| == |questions|
    ensures forall k :: 0 <= k < |r| ==> r[k] == FaqLine(k, questions[k])
  {
    seq(|questions|, k requires 0 <= k < |questions| => FaqLine(k, questions[k]))
  }

  /** The greeting: the fallback without FAQs, else the FAQ lines between the fixed head and tail. */
  function WelcomeText(questions: seq<string>): (r: string)
    ensures StartsWith(r, GreetingMarker)
    ensures questions == [] ==> r == FallbackGreeting
    ensures questions != [] ==> forall k :: 0 <= k < |questions| ==> Contains(r, FaqLine(k, questions[k]))
  {
    if questions == [] then FallbackGreeting
    else
      var lines := FaqLines(questions);
      var r := FaqGreetingHead + JoinWith(lines, "\n") + FaqGreetingTail;
      assert r == GreetingMarker + (" 🤖. " + FaqMarker + " que puedo responder:\n\n" + JoinWith(lines, "\n") + FaqGreetingTail);
      forall k | 0 <= k < |questions| ensures Contains(r, FaqLine(k, questions[k])) {
        JoinWithContains(lines, "\n", k);
        ContainsExtend(FaqGreetingHead, JoinWith(lines, "\n"), FaqGreetingTail, lines[k]);
      }
      r
  }

  /** The welcome message of the agent view, one second before the first message. */
  function WelcomeMessage(questions: seq<string>, conversationId: string, first: AgentMessage): (w: AgentMessage)
    ensures w.id == WelcomeId && w.role == "assistant" && w.conversationId == conversationId
    ensures w.timestamp == first.timestamp - 1000
    ensures w.content == Some(WelcomeText(questions))
  {
    AgentMessage(WelcomeId, conversationId, Some(WelcomeText(questions)), "assistant", first.timestamp - 1000, "text")
  }

  /** An assistant message carrying either greeting marker is taken for a welcome already there. */
  predicate IsWelcome(m: AgentMessage)
  {
    m.role == "assistant" && m.content.Some? &&
    (Contains(m.content.value, GreetingMarker) || Contains(m.content.value, FaqMarker))
  }

  /** The list shown for the case's messages: the welcome in front unless empty or already greeted. */
  function Initial(incoming: seq<AgentMessage>, questions: seq<string>, conversationId: string): (r: seq<AgentMessage>)
    ensures incoming == [] || IsWelcome(incoming[0]) ==> r == incoming
    ensures incoming != [] && !IsWelcome(incoming[0]) ==>
      r == [WelcomeMessage(questions, conversationId, incoming[0])] + incoming
  {
    if incoming != [] && !IsWelcome(incoming[0]) then [WelcomeMessage(questions, conversationId, incoming[0])] + incoming
    else incoming
  }

  /** The generated welcome is recognised as one. */
  lemma WelcomeIsRecognised(questions: seq<string>, conversationId: string, first: AgentMessage)
    ensures IsWelcome(WelcomeMessage(questions, conversationId, first))
  {
    var text := WelcomeText(questions);
    assert OccursAt(text, GreetingMarker, 0);
  }

  /** Running the initialisation on its own output adds no second welcome. */
  lemma InitialIdempotent(incoming: seq<AgentMessage>, questions: seq<string>, conversationId: string)
    ensures Initial(Initial(incoming, questions, conversationId), questions, conversationId) ==
            Initial(incoming, questions, conversationId)
  {
    if incoming != [] && !IsWelcome(incoming[0]) {
      WelcomeIsRecognised(questions, conversationId, incoming[0]);
    }
  }

  // ---------- de-duplicated appends ----------

  predicate HasId(ms: seq<AgentMessage>, id: string)
  {
    exists m :: m in ms && m.id == id
  }

  predicate UniqueIds(ms: seq<AgentMessage>)
  {
    forall i, j :: 0 <= i < j < |ms| ==> ms[i].id != ms[j].id
  }

  /** Append unless a message with the same id is already listed. */
  function AppendIfNew(ms: seq<AgentMessage>, m: AgentMessage): (r: seq<AgentMessage>)
    ensures HasId(ms, m.id) ==> r == ms
    ensures !HasId(ms, m.id) ==> r == ms + [m]
    ensures HasId(r, m.id)
    ensures UniqueIds(ms) ==> UniqueIds(r)
  {
    if HasId(ms, m.id) then ms
    else
      assert forall k :: 0 <= k < |ms| ==> ms[k] in ms;
      ms + [m]
  }

  /** A received socket message as the agent view stores it. */
  function FromSocket(ws: SocketMessage, conversationId: string): AgentMessage
  {
    AgentMessage(ws.id, conversationId, Some(ws.content), "user", ws.timestamp, "live_chat")
  }

  /** Only the student's messages are taken from the socket, and never twice. */
  function Received(ms: seq<AgentMessage>, ws: SocketMessage, conversationId: string): (r: seq<AgentMessage>)
    ensures ws.role != "user" ==> r == ms
    ensures ws.role == "user" ==> r == AppendIfNew(ms, FromSocket(ws, conversationId))
    ensures UniqueIds(ms) ==> UniqueIds(r)
  {
    if ws.role == "user" then AppendIfNew(ms, FromSocket(ws, conversationId)) else ms
  }

  /** Receiving the same socket message twice is receiving it once. */
  lemma ReceivedTwice(ms: seq<AgentMessage>, ws: SocketMessage, conversationId: string)
    ensures Received(Received(ms, ws, conversationId), ws, conversationId) == Received(ms, ws, conversationId)
  {
  }

  function Abs(x: int): nat { if x < 0 then -x else x }

  /** An assistant message with the same text within one second of `now` is taken for the same send. */
  predicate EchoListed(ms: seq<AgentMessage>, content: string, now: int)
  {
    exists m :: m in ms && m.role == "assistant" && m.content == Some(content) && Abs(m.timestamp - now) < 1000
  }

  /** The local copy of a message sent over the socket. */
  function SocketEcho(tempId: string, conversationId: string, content: string, now: int): AgentMessage
  {
    AgentMessage(tempId, conversationId, Some(content), "assistant", now, "live_chat")
  }

  /** The list after a socket send: the local copy, unless a copy of it is already listed. */
  function AppendEcho(ms: seq<AgentMessage>, tempId: string, conversationId: string, content: string, now: int): (r: seq<AgentMessage>)
    ensures EchoListed(ms, content, now) ==> r == ms
    ensures !EchoListed(ms, content, now) ==> r == ms + [SocketEcho(tempId, conversationId, content, now)]
    ensures EchoListed(r, content, now)
  {
    if EchoListed(ms, content, now) then ms
    else
      var r := ms + [SocketEcho(tempId, conversationId, content, now)];
      assert r[|ms|] in r;
      r
  }

  /** The same text sent twice in the same millisecond is listed once. */
  lemma AppendEchoTwice(ms: seq<AgentMessage>, a: string, b: string, conversationId: string, content: string, now: int)
    ensures AppendEcho(AppendEcho(ms, a, conversationId, content, now), b, conversationId, content, now) ==
            AppendEcho(ms, a, conversationId, content, now)
  {
  }

  // ---------- the image picker ----------

  const MaxImageBytes: nat := 10 * 1024 * 1024

  datatype ImagePick = NotAnImage | TooLarge | Picked

  /** handleImageSelect: non-images are ignored, images over 10 MiB refused. */
  function PickImage(contentType: string, size: nat): (r: ImagePick)
    ensures r.Picked? <==> StartsWith(contentType, "image/") && size <= MaxImageBytes
    ensures r.TooLarge? <==> StartsWith(contentType, "image/") && size > MaxImageBytes
  {
    if !StartsWith(contentType, "image/") then NotAnImage
    else if size > MaxImageBytes then TooLarge
    else Picked
  }

  // ---------- the chat state ----------

  datatype SendRoute = Ignored | ViaSocket(content: string) | ViaHttp(content: string)

  /** The message list, the input box and the sending flag of the agent view. */
  class AgentChatState {
    const conversationId: string
    var messages: seq<AgentMessage>
    var inputValue: string
    var sending: bool

    constructor(conversationId: string)
      ensures this.conversationId == conversationId
      ensures messages == [] && inputValue == "" && !sending
    {
      this.conversationId := conversationId;
      messages := [];
      inputValue := "";
      sending := false;
    }

    /** The effect that loads the case's messages. */
    method Initialize(incoming: seq<AgentMessage>, questions: seq<string>)
      modifies this
      ensures messages == Initial(incoming, questions, conversationId)
      ensures inputValue == old(inputValue) && sending == old(sending)
    {
      messages := Initial(incoming, questions, conversationId);
    }

    /** handleWebSocketMessage. */
    method ReceiveSocket(ws: SocketMessage)
      modifies this
      ensures messages == Received(old(messages), ws, conversationId)
      ensures inputValue == old(inputValue) && sending == old(sending)
    {
      if ws.role == "user" {
        var m := FromSocket(ws, conversationId);
        if !HasId(messages, m.id) {
          messages := messages + [m];
        }
      }
    }

    /**
     * sendMessageWithText: blank text or a send in progress is ignored;
     * otherwise the trimmed text goes over the socket when connected, else
     * over HTTP, whose failure (reply None) puts the text back in the input.
     */
    method SendMessageWithText(text: string, connected: bool, now: int, tempId: string, reply: Option<AgentMessage>)
      returns (route: SendRoute)
      modifies this
      ensures IsBlank(text) || old(sending) ==>
        route == Ignored && messages == old(messages) && inputValue == old(inputValue) && sending == old(sending)
      ensures !IsBlank(text) && !old(sending) ==> !sending
      ensures !IsBlank(text) && !old(sending) && connected ==>
        route == ViaSocket(Trim(text)) && inputValue == "" &&
        messages == AppendEcho(old(messages), tempId, conversationId, Trim(text), now)
      ensures !IsBlank(text) && !old(sending) && !connected ==> route == ViaHttp(Trim(text))
      ensures !IsBlank(text) && !old(sending) && !connected && reply.Some? ==>
        inputValue == "" && messages == AppendIfNew(old(messages), reply.value)
      ensures !IsBlank(text) && !old(sending) && !connected && reply.None? ==>
        inputValue == Trim(text) && messages == old(messages)
    {
      TrimEmptyIffBlank(text);
      if Trim(text) == "" || sending {
        return Ignored;
      }
      var content := Trim(text);
      inputValue := "";
      sending := true;
      if connected {
        route := ViaSocket(content);
        var echo := SocketEcho(tempId, conversationId, content, now);
        if !EchoListed(messages, content, now) {
          messages := messages + [echo];
        }
      } else {
        route := ViaHttp(content);
        if reply.Some? {
          messages := AppendIfNew(messages, reply.value);
        } else {
          inputValue := content;
        }
      }
      sending := false;
    }
  }
}
