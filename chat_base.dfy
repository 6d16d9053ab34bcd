/**
 * The shared message list view: how a message in either shape (the live
 * chat's sender/text or the history's role/content) is normalised for
 * display, and the thumbs-up/down rating toggle.
 *
 * A Date timestamp is rendered by the locale, which is not modelled; the
 * clock value used in generated keys is passed in as `now`.
 */
module ChatBase {
  import opened Wrappers
  import opened Strings

  /** A message id: a number or a string. */
  datatype MessageId = NumberId(n: int) | TextId(s: string)

  datatype Stamp = StampText(text: string) | StampDate(ms: int)

  datatype ChatMessage = ChatMessage(
    id: Option<MessageId>,
    sender: Option<string>,
    role: Option<string>,
    text: Option<string>,
    content: Option<string>,
    timestamp: Stamp,
    avatar: Option<string>)

  datatype Normalized = Normalized(
    key: string,
    originalId: Option<MessageId>,
    isUser: bool,
    isBot: bool,
    content: string,
    timestamp: Option<string>,
    avatar: Option<string>)

  /** A JavaScript truthy string: present and not empty. */
  predicate Truthy(s: Option<string>)
  {
    s.Some? && s.value != ""
  }

  /** `msg.text || msg.content || ''`. */
  function DisplayText(text: Option<string>, content: Option<string>): (r: string)
    ensures Truthy(text) ==> r == text.value
    ensures !Truthy(text) && Truthy(content) ==> r == content.value
    ensures !Truthy(text) && !Truthy(content) ==> r == ""
  {
    if Truthy(text) then text.value else if Truthy(content) then content.value else ""
  }

  /** A decimal integer after an optional sign. */
  predicate SignedDigits(t: string)
  {
    DropSign(t) != [] && forall i :: 0 <= i < |DropSign(t)| ==> IsDigit(DropSign(t)[i])
  }

  function DropSign(t: string): string
  {
    if t != [] && (t[0] == '+' || t[0] == '-') then t[1..] else t
  }

  /** `!isNaN(Number(s))` for the integer texts the model reads: blank, or digits after a sign. */
  predicate NumericText(s: string)
  {
    Trim(s) == [] || SignedDigits(Trim(s))
  }

  predicate NumericId(id: MessageId)
  {
    id.NumberId? || NumericText(id.s)
  }

  /** `String(msg.id)`. */
  function IdText(id: MessageId): string
  {
    match id
    case NumberId(n) => IntToString(n)
    case TextId(s) => s
  }

  function GeneratedKey(index: nat, now: int): (k: string)
    ensures StartsWith(k, "msg-")
  {
    "msg-" + NatToString(index) + "-" + IntToString(now)
  }

  /** The render key: the id when it reads as a number, otherwise "msg-<index>-<now>". */
  function RenderKey(id: Option<MessageId>, index: nat, now: int): (k: string)
    ensures id.Some? && NumericId(id.value) ==> k == IdText(id.value)
    ensures !(id.Some? && NumericId(id.value)) ==> k == GeneratedKey(index, now)
  {
    if id.Some? && NumericId(id.value) then IdText(id.value) else GeneratedKey(index, now)
  }

  /** A text starting with a letter that is not blank space never reads as a number. */
  lemma LetterFirstNotNumeric(s: string)
    requires s != [] && s[0] == 'm'
    ensures !NumericText(s)
  {
    assert !IsSpace(s[0]);
    var t := TrimStart(s);
    assert t == s;
    var r := TrimEnd(t);
    assert r == t[..|r|];
    assert |r| > 0;
    assert r[0] == 'm';
    assert Trim(s) == r;
    assert !IsDigit(r[0]) && r[0] != '+' && r[0] != '-';
    assert DropSign(r) == r && !IsDigit(DropSign(r)[0]);
  }

  /** A kept key and a generated key never coincide, so generated keys cannot shadow real ids. */
  lemma KeptAndGeneratedKeysDiffer(a: Option<MessageId>, i: nat, b: Option<MessageId>, j: nat, now: int)
    requires a.Some? && NumericId(a.value)
    requires !(b.Some? && NumericId(b.value))
    ensures RenderKey(a, i, now) != RenderKey(b, j, now)
  {
    var g := GeneratedKey(j, now);
    assert g[0] == 'm';
    match a.value
    case NumberId(n) =>
      var k := IntToString(n);
      assert k[0] == '-' || IsDigit(k[0]);
    case TextId(s) =>
      if s == g {
        LetterFirstNotNumeric(s);
      }
  }

  /** normalizeMessage at position `index`. */
  function Normalize(m: ChatMessage, index: nat, now: int): (r: Normalized)
    ensures r.isUser <==> m.sender == Some("user") || m.role == Some("user")
    ensures r.isBot <==> m.sender == Some("UniBot") || m.role == Some("assistant")
    ensures r.content == DisplayText(m.text, m.content)
    ensures m.timestamp.StampText? ==> r.timestamp == Some(m.timestamp.text)
    ensures r.key == RenderKey(m.id, index, now) && r.originalId == m.id && r.avatar == m.avatar
  {
    Normalized(
      RenderKey(m.id, index, now),
      m.id,
      m.sender == Some("user") || m.role == Some("user"),
      m.sender == Some("UniBot") || m.role == Some("assistant"),
      DisplayText(m.text, m.content),
      if m.timestamp.StampText? then Some(m.timestamp.text) else None,
      m.avatar)
  }

  // ---------- ratings ----------

  datatype Rating = Up | Down

  /** Clicking the current rating clears it; clicking the other one sets it. */
  function Toggle(current: Option<Rating>, clicked: Rating): (r: Option<Rating>)
    ensures r.None? <==> current == Some(clicked)
    ensures r.Some? ==> r.value == clicked
  {
    if current == Some(clicked) then None else Some(clicked)
  }

  /** Clicking the same button twice from no rating, or from that rating, comes back to where it started. */
  lemma ToggleTwice(current: Option<Rating>, clicked: Rating)
    requires current == None || current == Some(clicked)
    ensures Toggle(Toggle(current, clicked), clicked) == current
  {
  }

  /** What a rating click does: the callback it invokes and the rating it posts to the backend. */
  datatype RatingEffects = RatingEffects(callback: Option<(MessageId, Option<Rating>)>, posted: Option<(MessageId, Option<Rating>)>)

  /** handleRating: the callback, when given, gets the new rating; the backend only when not read-only. */
  function HandleRating(id: MessageId, current: Option<Rating>, clicked: Rating, hasCallback: bool, readonly: bool): (e: RatingEffects)
    ensures e.callback.Some? <==> hasCallback
    ensures e.posted.Some? <==> !readonly
    ensures e.callback.Some? ==> e.callback.value == (id, Toggle(current, clicked))
    ensures e.posted.Some? ==> e.posted.value == (id, Toggle(current, clicked))
  {
    var next := Toggle(current, clicked);
    RatingEffects(if hasCallback then Some((id, next)) else None, if readonly then None else Some((id, next)))
  }

  /** The rating buttons: bot messages only, interactive mode, ratings shown and a callback given. */
  predicate ShowsRatingButtons(n: Normalized, readonly: bool, showRatings: bool, hasCallback: bool)
  {
    n.isBot && !readonly && showRatings && hasCallback
  }

  /**
   * A stored message gets rating buttons exactly when it is the bot's (sender UniBot or role
   * assistant), the chat is not read-only, ratings are shown and a rating callback is given.
   */
  lemma RatingButtonsFor(m: ChatMessage, index: nat, now: int, readonly: bool, showRatings: bool, hasCallback: bool)
    ensures ShowsRatingButtons(Normalize(m, index, now), readonly, showRatings, hasCallback) <==>
      (m.sender == Some("UniBot") || m.role == Some("assistant")) && !readonly && showRatings && hasCallback
  {
  }

  /** A plain user message of the live chat never gets rating buttons. */
  lemma UserMessagesHaveNoButtons(m: ChatMessage, index: nat, now: int, readonly: bool, showRatings: bool, hasCallback: bool)
    requires m.sender == Some("user") && m.role.None?
    ensures !ShowsRatingButtons(Normalize(m, index, now), readonly, showRatings, hasCallback)
  {
  }
}
