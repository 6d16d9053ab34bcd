/**
 * The student's conversation history list: each conversation the API
 * returns is converted to the list's shape (entries without an id are
 * dropped) and the list is ordered by last update, newest first.
 *
 * Timestamps are milliseconds; a missing one reads as "now", which is
 * passed in. Parsing of the timestamp text is not modelled: the API record
 * carries the instant, or None when the field is missing or empty.
 */
module ConversationList {
  import opened Wrappers
  import opened Seqs

  /** A conversation as the API returns it; `messageCount` is None when it is not a number. */
  datatype ApiConversation = ApiConversation(
    id: Option<string>,
    title: Option<string>,
    createdAt: Option<int>,
    updatedAt: Option<int>,
    messageCount: Option<int>,
    lastMessage: Option<string>)

  /** A list entry. Converted entries carry no messages yet, so the list holds only their count. */
  datatype Conversation = Conversation(
    id: string,
    title: string,
    createdAt: int,
    updatedAt: int,
    messageCount: int,
    lastMessage: Option<string>,
    messages: seq<string>)

  const DefaultTitle: string := "Nueva conversación"
  const LoadError: string := "No se pudo cargar el historial de conversaciones"

  /** A JavaScript truthy string. */
  predicate Truthy(s: Option<string>)
  {
    s.Some? && s.value != ""
  }

  /** convertApiConversation: None without an id; otherwise defaults for the missing fields and no messages. */
  function Convert(c: ApiConversation, now: int): (r: Option<Conversation>)
    ensures r.None? <==> !Truthy(c.id)
    ensures r.Some? ==> r.value.id == c.id.value && r.value.messages == []
    ensures r.Some? ==> r.value.title == (if Truthy(c.title) then c.title.value else DefaultTitle)
    ensures r.Some? ==> r.value.messageCount == (if c.messageCount.Some? then c.messageCount.value else 0)
    ensures r.Some? ==> r.value.updatedAt == (if c.updatedAt.Some? then c.updatedAt.value else now)
    ensures r.Some? ==> r.value.createdAt == (if c.createdAt.Some? then c.createdAt.value else now)
    ensures r.Some? ==> r.value.lastMessage == (if Truthy(c.lastMessage) then c.lastMessage else None)
  {
    if !Truthy(c.id) then None
    else
      Some(Conversation(
        c.id.value,
        if Truthy(c.title) then c.title.value else DefaultTitle,
        if c.createdAt.Some? then c.createdAt.value else now,
        if c.updatedAt.Some? then c.updatedAt.value else now,
        if c.messageCount.Some? then c.messageCount.value else 0,
        if Truthy(c.lastMessage) then c.lastMessage else None,
        []))
  }

  /** `.map(convert).filter(c => c !== null)`: the conversions that succeed, in API order. */
  function Converted(cs: seq<ApiConversation>, now: int): (r: seq<Conversation>)
    ensures |r| <= |cs|
    ensures forall x :: x in r ==> exists c :: c in cs && Convert(c, now) == Some(x)
  {
    if cs == [] then []
    else
      var rest := Converted(cs[1..], now);
      assert forall x :: x in rest ==> exists c :: c in cs && Convert(c, now) == Some(x) by {
        forall x | x in rest ensures exists c :: c in cs && Convert(c, now) == Some(x) {
          var c :| c in cs[1..] && Convert(c, now) == Some(x);
          assert c in cs;
        }
      }
      match Convert(cs[0], now)
      case Some(x) => [x] + rest
      case None => rest
  }

  /** Every conversation with an id makes it into the converted list. */
  lemma {:induction false} ConvertedKeepsValid(cs: seq<ApiConversation>, now: int, k: nat)
    requires k < |cs| && Truthy(cs[k].id)
    ensures Convert(cs[k], now).value in Converted(cs, now)
  {
    if k > 0 {
      assert cs[k] == cs[1..][k - 1];
      ConvertedKeepsValid(cs[1..], now, k - 1);
    }
  }

  /** The sort: `b.updatedAt - a.updatedAt`, newest first. */
  function NewestFirst(): (Conversation, Conversation) -> bool
  {
    (a: Conversation, b: Conversation) => a.updatedAt >= b.updatedAt
  }

  lemma NewestFirstIsTotalPreorder()
    ensures TotalPreorder(NewestFirst())
  {
  }

  /** The list fetchConversations shows. */
  function Listed(cs: seq<ApiConversation>, now: int): (r: seq<Conversation>)
    ensures SortedBy(r, NewestFirst())
    ensures multiset(r) == multiset(Converted(cs, now))
  {
    NewestFirstIsTotalPreorder();
    SortBy(Converted(cs, now), NewestFirst())
  }

  /** Exactly the conversations with an id are listed: each one is there, and nothing else is. */
  lemma ListedIsTheValidOnes(cs: seq<ApiConversation>, now: int)
    ensures forall k :: 0 <= k < |cs| && Truthy(cs[k].id) ==> Convert(cs[k], now).value in Listed(cs, now)
    ensures forall x :: x in Listed(cs, now) ==> exists c :: c in cs && Truthy(c.id) && Convert(c, now) == Some(x)
  {
    var r := Listed(cs, now);
    SameMembers(r, Converted(cs, now));
    forall k | 0 <= k < |cs| && Truthy(cs[k].id) ensures Convert(cs[k], now).value in r {
      ConvertedKeepsValid(cs, now, k);
    }
  }

  class Conversations {
    var conversations: seq<Conversation>
    var loading: bool
    var error: Option<string>

    constructor()
      ensures conversations == [] && loading && error.None?
    {
      conversations := [];
      loading := true;
      error := None;
    }

    /** fetchConversations: the listed conversations on success; the fixed error text on failure; loading ends either way. */
    method Fetch(fetched: Option<seq<ApiConversation>>, now: int)
      modifies this
      ensures !loading
      ensures fetched.Some? ==> conversations == Listed(fetched.value, now) && error.None?
      ensures fetched.None? ==> conversations == old(conversations) && error == Some(LoadError)
    {
      loading := true;
      error := None;
      if fetched.Some? {
        conversations := Listed(fetched.value, now);
      } else {
        error := Some(LoadError);
      }
      loading := false;
    }
  }
}
