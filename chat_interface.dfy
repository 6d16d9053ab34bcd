/**
 * The student chat box: the greeting that lists the FAQs once they are
 * loaded, and what a send does with the typed text. The message is shown
 * first; then the exact word "agente" hands the chat to a human and blocks
 * it, a FAQ number asks for that FAQ, and anything else goes to the
 * academic chatbot. The replies of those calls are appended when they
 * arrive.
 *
 * The calls themselves are network I/O: their outcomes are parameters.
 * Message ids come from the clock, passed in as `now`; the locale time text
 * is not modelled.
 */
module ChatInterface {
  import opened Wrappers
  import opened Strings
  import AgentChat

  datatype Question = Question(id: int, question: string)

  datatype Sender = User | UniBot

  datatype UiMessage = UiMessage(id: int, sender: Sender, text: string, avatar: Option<string>)

  const BotAvatar: string := "/images/logo_uni.png"
  const HandOffNotice: string := "Has solicitado hablar con un agente humano. Por favor espera mientras te conectamos..."
  const HandOffWord: string := "agente"
  const ChatbotErrorText: string := "Hubo un problema al procesar tu consulta. Intenta nuevamente más tarde."
  const GreetingHead: string := "¡Hola! Soy UniBot 🤖. Estas son algunas preguntas frecuentes que puedo responder:\n\n"

  // ---------- the greeting ----------

  function QuestionTexts(questions: seq<Question>): (r: seq<string>)
    ensures |r| == |questions| && forall k :: 0 <= k < |r| ==> r[k] == questions[k].question
  {
    seq(|questions|, k requires 0 <= k < |questions| => questions[k].question)
  }

  /**
   * The greeting shown once the FAQs are loaded: the fixed head, the FAQs
   * numbered from 1 one per line, and a final newline.
   */
  function GreetingText(questions: seq<Question>): (r: string)
    ensures StartsWith(r, GreetingHead)
    ensures forall k :: 0 <= k < |questions| ==> Contains(r, AgentChat.FaqLine(k, questions[k].question))
  {
    var lines := AgentChat.FaqLines(QuestionTexts(questions));
    var r := GreetingHead + JoinWith(lines, "\n") + "\n";
    assert r[..|GreetingHead|] == GreetingHead;
    forall k | 0 <= k < |questions| ensures Contains(r, AgentChat.FaqLine(k, questions[k].question)) {
      JoinWithContains(lines, "\n", k);
      ContainsExtend(GreetingHead, JoinWith(lines, "\n"), "\n", lines[k]);
    }
    r
  }

  // ---------- parseInt(s, 10) ----------

  /** The longest run of decimal digits at the start of s. */
  function LeadingDigits(s: string): (r: string)
    ensures |r| <= |s|
    ensures r == s[..|r|]
    ensures forall i :: 0 <= i < |r| ==> IsDigit(r[i])
    ensures |r| == |s| || !IsDigit(s[|r|])
  {
    if s == [] || !IsDigit(s[0]) then []
    else
      var t := LeadingDigits(s[1..]);
      assert s[1..][..|t|] == s[1..|t| + 1];
      [s[0]] + t
  }

  /** An optional sign at the head of s: whether it is '-', and the rest. */
  function SignAndRest(s: string): (bool, string)
  {
    if s != [] && (s[0] == '+' || s[0] == '-') then (s[0] == '-', s[1..]) else (false, s)
  }

  /**
   * JavaScript's parseInt(s, 10) on text with no leading whitespace: an
   * optional sign and the digits that follow, ignoring whatever comes after;
   * None (NaN) when no digit follows the sign.
   */
  function ParseInt(s: string): (r: Option<int>)
    ensures r.None? <==> SignAndRest(s).1 == [] || !IsDigit(SignAndRest(s).1[0])
    ensures r.Some? && !SignAndRest(s).0 ==> r.value >= 0
  {
    var (negative, rest) := SignAndRest(s);
    var digits := LeadingDigits(rest);
    if digits == [] then None
    else
      var v: int := DigitsValue(digits);
      Some(if negative then -v else v)
  }

  /** The digits of a run are all taken, whatever non-digit text follows. */
  lemma {:induction false} LeadingDigitsOfRun(d: string, tail: string)
    requires forall i :: 0 <= i < |d| ==> IsDigit(d[i])
    requires tail == [] || !IsDigit(tail[0])
    ensures LeadingDigits(d + tail) == d
  {
    if d != [] {
      LeadingDigitsOfRun(d[1..], tail);
      assert (d + tail)[1..] == d[1..] + tail;
    }
  }

  /** parseInt reads back a number written in decimal, even with text after it. */
  lemma ParseIntOfNumber(n: nat, tail: string)
    requires tail == [] || !IsDigit(tail[0])
    ensures ParseInt(NatToString(n) + tail) == Some(n)
  {
    var d := NatToString(n);
    assert (d + tail)[0] == d[0];
    LeadingDigitsOfRun(d, tail);
    DigitsValueOfNatToString(n);
  }

  // ---------- the choice handleSendMessage makes ----------

  /** The call a send leads to. */
  datatype Dispatch = HandOff | Faq(questionId: int) | Chatbot(text: string)

  /** The text the choice reads: trimmed and lower-cased. */
  function Normalized(input: string): string
  {
    Lower(Trim(input))
  }

  /**
   * The exact word "agente" hands off; a parsed number n with
   * 1 <= n <= |questions| asks for FAQ n; anything else goes, untrimmed, to
   * the chatbot.
   */
  function Decide(input: string, questions: seq<Question>): (d: Dispatch)
    ensures d.HandOff? <==> Normalized(input) == HandOffWord
    ensures d.Faq? <==> Normalized(input) != HandOffWord && ParseInt(Normalized(input)).Some? &&
                        1 <= ParseInt(Normalized(input)).value <= |questions|
    ensures d.Faq? ==> d.questionId == questions[ParseInt(Normalized(input)).value - 1].id
    ensures d.Chatbot? ==> d.text == input
  {
    DecideOn(Normalized(input), input, questions)
  }

  /** The choice made on the normalised text `t` of `input`. */
  function DecideOn(t: string, input: string, questions: seq<Question>): (d: Dispatch)
    ensures d.HandOff? <==> t == HandOffWord
    ensures d.Faq? <==> t != HandOffWord && ParseInt(t).Some? && 1 <= ParseInt(t).value <= |questions|
    ensures d.Faq? ==> d.questionId == questions[ParseInt(t).value - 1].id
    ensures d.Chatbot? ==> d.text == input
  {
    if t == HandOffWord then HandOff
    else
      var n := ParseInt(t);
      if n.Some? && 1 <= n.value <= |questions| then Faq(questions[n.value - 1].id)
      else Chatbot(input)
  }

  /** Digits are their own lower case and their own trim. */
  lemma NormalizedDigits(d: string)
    requires forall i :: 0 <= i < |d| ==> IsDigit(d[i])
    ensures Normalized(d) == d
  {
    TrimDigits(d);
    LowerDigits(d);
  }

  lemma TrimDigits(d: string)
    requires forall i :: 0 <= i < |d| ==> IsDigit(d[i])
    ensures Trim(d) == d
  {
    if d != [] {
      assert IsDigit(d[0]) && IsDigit(d[|d| - 1]);
    }
    TrimNoop(d);
  }

  lemma LowerDigits(d: string)
    requires forall i :: 0 <= i < |d| ==> IsDigit(d[i])
    ensures Lower(d) == d
  {
    forall i | 0 <= i < |d| ensures Lower(d)[i] == d[i] {
      LowerDigit(d[i]);
    }
  }

  lemma LowerDigit(c: char)
    requires IsDigit(c)
    ensures LowerChar(c) == c
  {
  }

  /** A typed number is normalised to itself, parses back to its value, and is not the hand-off word. */
  lemma NumberReadsAsItself(n: nat)
    ensures Normalized(NatToString(n)) == NatToString(n)
    ensures ParseInt(NatToString(n)) == Some(n)
    ensures NatToString(n) != HandOffWord
  {
    NormalizedDigits(NatToString(n));
    NumberParses(n);
    NumberIsNotHandOff(n);
  }

  lemma NumberParses(n: nat)
    ensures ParseInt(NatToString(n)) == Some(n)
  {
    ParseIntOfNumber(n, []);
    assert NatToString(n) + [] == NatToString(n);
  }

  lemma NumberIsNotHandOff(n: nat)
    ensures NatToString(n) != HandOffWord
  {
    assert IsDigit(NatToString(n)[0]) && !IsDigit(HandOffWord[0]);
  }

  /** Typing the number of a listed FAQ asks for that FAQ. */
  lemma FaqNumberSelectsFaq(questions: seq<Question>, n: nat)
    requires 1 <= n <= |questions|
    ensures Decide(NatToString(n), questions) == Faq(questions[n - 1].id)
  {
    NumberReadsAsItself(n);
  }

  /** A number outside the list is a question for the chatbot. */
  lemma UnlistedNumberGoesToChatbot(questions: seq<Question>, n: nat)
    requires n == 0 || n > |questions|
    ensures Decide(NatToString(n), questions) == Chatbot(NatToString(n))
  {
    NumberReadsAsItself(n);
  }

  /** The hand-off needs the word alone: any text of another length, once trimmed, does not hand off. */
  lemma HandOffIsExact(input: string, questions: seq<Question>)
    requires |Trim(input)| != |HandOffWord|
    ensures !Decide(input, questions).HandOff?
  {
  }

  /** Every number the greeting shows, typed back, asks for the FAQ listed under it. */
  lemma GreetingNumbersSelectTheirFaq(questions: seq<Question>, k: nat)
    requires k < |questions|
    ensures Contains(GreetingText(questions), NatToString(k + 1) + ". " + questions[k].question)
    ensures Decide(NatToString(k + 1), questions) == Faq(questions[k].id)
  {
    assert AgentChat.FaqLine(k, questions[k].question) == NatToString(k + 1) + ". " + questions[k].question;
    FaqNumberSelectsFaq(questions, k + 1);
  }

  /** The outcome of the call to the academic chatbot. */
  datatype ChatbotReply = Answered(answer: string) | NotOk | CallFailed

  // ---------- the chat box state ----------

  /** The messages, the input box, the blocked flag and the loaded FAQs of the student chat. */
  class ChatBox {
    var messages: seq<UiMessage>
    var inputValue: string
    var blocked: bool
    var questions: seq<Question>

    /** The initial `useState` values: nothing shown, no FAQs yet. */
    constructor()
      ensures messages == [] && inputValue == "" && !blocked && questions == []
    {
      messages := [];
      inputValue := "";
      blocked := false;
      questions := [];
    }

    /**
     * fetchQuestions: on a good reply the FAQs are stored and the messages
     * become the greeting alone (id `now`); a failed call changes nothing.
     */
    method LoadQuestions(fetched: Option<seq<Question>>, now: int)
      modifies this
      ensures fetched.Some? ==>
        questions == fetched.value && messages == [UiMessage(now, UniBot, GreetingText(fetched.value), Some(BotAvatar))]
      ensures fetched.None? ==> questions == old(questions) && messages == old(messages)
      ensures inputValue == old(inputValue) && blocked == old(blocked)
    {
      if fetched.Some? {
        questions := fetched.value;
        messages := [UiMessage(now, UniBot, GreetingText(fetched.value), Some(BotAvatar))];
      }
    }

    /** sendFaqToBackend's reply: a good one appends the answer; a failed call changes nothing. */
    method ReceiveFaqAnswer(answer: Option<string>, now: int)
      modifies this
      ensures messages == old(messages) + (if answer.Some? then [UiMessage(now, UniBot, answer.value, Some(BotAvatar))] else [])
      ensures inputValue == old(inputValue) && blocked == old(blocked) && questions == old(questions)
    {
      if answer.Some? {
        messages := messages + [UiMessage(now, UniBot, answer.value, Some(BotAvatar))];
      }
    }

    /**
     * sendToAcademicChatbot's reply: the answer when the call succeeds, the
     * fixed apology when it answers with an error status, nothing when the
     * call itself throws.
     */
    method ReceiveChatbotReply(reply: ChatbotReply, now: int)
      modifies this
      ensures reply.Answered? ==> messages == old(messages) + [UiMessage(now, UniBot, reply.answer, Some(BotAvatar))]
      ensures reply.NotOk? ==> messages == old(messages) + [UiMessage(now, UniBot, ChatbotErrorText, Some(BotAvatar))]
      ensures reply.CallFailed? ==> messages == old(messages)
      ensures inputValue == old(inputValue) && blocked == old(blocked) && questions == old(questions)
    {
      match reply {
        case Answered(text) => messages := messages + [UiMessage(now, UniBot, text, Some(BotAvatar))];
        case NotOk => messages := messages + [UiMessage(now, UniBot, ChatbotErrorText, Some(BotAvatar))];
        case CallFailed =>
      }
    }

    /**
     * handleSendMessage. Blank input or a blocked chat does nothing;
     * otherwise the typed text is shown as the user's message (id `now`),
     * the hand-off adds its notice (id `now + 1`) and blocks the chat, and
     * the input is cleared. Returns the call made, if any.
     */
    method HandleSendMessage(now: int) returns (d: Option<Dispatch>)
      modifies this
      ensures IsBlank(old(inputValue)) || old(blocked) ==>
        d.None? && messages == old(messages) && inputValue == old(inputValue) && blocked == old(blocked)
      ensures !IsBlank(old(inputValue)) && !old(blocked) ==>
        d == Some(Decide(old(inputValue), questions)) && inputValue == "" && blocked == d.value.HandOff? &&
        messages == old(messages) + [UiMessage(now, User, old(inputValue), None)] +
                    (if d.value.HandOff? then [UiMessage(now + 1, UniBot, HandOffNotice, Some(BotAvatar))] else [])
      ensures questions == old(questions)
    {
      TrimEmptyIffBlank(inputValue);
      if Trim(inputValue) == "" || blocked {
        return None;
      }
      var typed := inputValue;
      messages := messages + [UiMessage(now, User, typed, None)];
      var choice := Decide(typed, questions);
      if choice.HandOff? {
        blocked := true;
        messages := messages + [UiMessage(now + 1, UniBot, HandOffNotice, Some(BotAvatar))];
        inputValue := "";
        return Some(choice);
      }
      inputValue := "";
      d := Some(choice);
    }
  }
}
