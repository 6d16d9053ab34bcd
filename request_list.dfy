/**
 * The agents' list of escalated requests: the elapsed-time label, the
 * status label, the message count, the "take" button and which view the
 * list renders.
 *
 * Times are milliseconds and "now" is a parameter.
 */
module RequestList {
  import opened Wrappers
  import opened Strings

  const MinuteMs: int := 60000
  const HourMs: int := 3600000
  const DayMs: int := 86400000

  datatype Elapsed = JustNow | Minutes(n: int) | Hours(n: int) | Days(n: int)

  /** formatDate: whole minutes under an hour, whole hours under a day, whole days after, each floored. */
  function FormatElapsed(escalatedAt: int, now: int): (r: Elapsed)
    ensures now - escalatedAt < MinuteMs <==> r == JustNow
    ensures r.Minutes? <==> MinuteMs <= now - escalatedAt < HourMs
    ensures r.Hours? <==> HourMs <= now - escalatedAt < DayMs
    ensures r.Days? <==> now - escalatedAt >= DayMs
    ensures r.Minutes? ==> r.n * MinuteMs <= now - escalatedAt < (r.n + 1) * MinuteMs
    ensures r.Hours? ==> r.n * HourMs <= now - escalatedAt < (r.n + 1) * HourMs
    ensures r.Days? ==> r.n * DayMs <= now - escalatedAt < (r.n + 1) * DayMs
  {
    var mins := (now - escalatedAt) / MinuteMs;
    if mins < 1 then JustNow
    else if mins < 60 then Minutes(mins)
    else
      var hours := mins / 60;
      if hours < 24 then Hours(hours)
      else
        var days := hours / 24;
        Days(days)
  }

  /** The card's time label: "Hace un momento", or "Hace " then the count and its unit. */
  function ElapsedText(e: Elapsed): (r: string)
    ensures StartsWith(r, "Hace ")
    ensures r == "Hace un momento" <==> e.JustNow?
    ensures !e.JustNow? ==> StartsWith(r, "Hace " + IntToString(e.n))
  {
    match e
    case JustNow => "Hace un momento"
    case Minutes(n) => var r := "Hace " + IntToString(n) + " min"; assert r[|r| - 1] == 'n'; r
    case Hours(n) => var r := "Hace " + IntToString(n) + "h"; assert r[|r| - 1] == 'h'; r
    case Days(n) => var r := "Hace " + IntToString(n) + "d"; assert r[|r| - 1] == 'd'; r
  }

  /** Different elapsed times get different labels: the unit and the count can be read back. */
  lemma ElapsedTextInjective(a: Elapsed, b: Elapsed)
    requires ElapsedText(a) == ElapsedText(b)
    ensures a == b
  {
    var r := ElapsedText(a);
    assert r[|r| - 1] == ElapsedText(b)[|r| - 1];
    if !a.JustNow? {
      var cut := if a.Minutes? then 4 else 1;
      assert IntToString(a.n) == r[5..|r| - cut];
      assert IntToString(b.n) == r[5..|r| - cut];
      IntToStringInjective(a.n, b.n);
    }
  }

  /** The card's time label for a request escalated at `escalatedAt`. */
  function ElapsedLabel(escalatedAt: int, now: int): (r: string)
    ensures r == "Hace un momento" <==> now - escalatedAt < MinuteMs
  {
    ElapsedText(FormatElapsed(escalatedAt, now))
  }

  /** Two requests show the same time label exactly when their floored elapsed times agree. */
  lemma SameLabelSameElapsed(t1: int, t2: int, now: int)
    ensures ElapsedLabel(t1, now) == ElapsedLabel(t2, now) <==> FormatElapsed(t1, now) == FormatElapsed(t2, now)
  {
    if ElapsedLabel(t1, now) == ElapsedLabel(t2, now) {
      ElapsedTextInjective(FormatElapsed(t1, now), FormatElapsed(t2, now));
    }
  }

  /** The status badge: pending, in progress, and anything else reads as resolved. */
  function StatusLabel(status: string): (r: string)
    ensures status == "pending" <==> r == "Pendiente"
    ensures status == "in_progress" <==> r == "En Progreso"
    ensures status != "pending" && status != "in_progress" <==> r == "Resuelta"
  {
    if status == "pending" then "Pendiente" else if status == "in_progress" then "En Progreso" else "Resuelta"
  }

  /** `message_count || 0`: missing and zero both read 0. */
  function ShownCount(count: Option<int>): (n: int)
    ensures count.Some? ==> n == count.value
    ensures count.None? ==> n == 0
  {
    if count.Some? && count.value != 0 then count.value else 0
  }

  /** "N mensaje", with an "s" unless N is exactly 1. */
  function CountText(count: Option<int>): (r: string)
    ensures StartsWith(r, IntToString(ShownCount(count)) + " mensaje")
    ensures r[|r| - 1] == 's' <==> ShownCount(count) != 1
  {
    var n := ShownCount(count);
    IntToString(n) + " mensaje" + (if n != 1 then "s" else "")
  }

  /** A missing count shows "0 mensajes", not the singular. */
  lemma MissingCountIsPlural()
    ensures CountText(None) == "0 mensajes"
  {
    assert IntToString(0) == "0";
  }

  datatype Request = Request(id: string, userName: Option<string>, userEmail: string, status: string,
                             escalatedAt: int, lastMessage: Option<string>, messageCount: Option<int>)

  /** `user_name || 'Usuario'`: a non-empty name as given, else "Usuario"; never blank. */
  function DisplayName(r: Request): (n: string)
    ensures n != ""
    ensures r.userName.Some? && r.userName.value != "" ==> n == r.userName.value
    ensures r.userName.None? || r.userName.value == "" ==> n == "Usuario"
  {
    if r.userName.Some? && r.userName.value != "" then r.userName.value else "Usuario"
  }

  datatype TakeButton = TakeButton(requestId: string, disabled: bool, text: string)

  /** The take button: pending requests only; disabled, reading "Tomando...", while that request is being taken. */
  function Take(r: Request, takingId: Option<string>): (b: Option<TakeButton>)
    ensures b.Some? <==> r.status == "pending"
    ensures b.Some? ==> b.value.requestId == r.id
    ensures b.Some? ==> (b.value.disabled <==> takingId == Some(r.id))
    ensures b.Some? ==> b.value.text == (if b.value.disabled then "Tomando..." else "Tomar caso")
  {
    if r.status != "pending" then None
    else
      var taking := takingId == Some(r.id);
      Some(TakeButton(r.id, taking, if taking then "Tomando..." else "Tomar caso"))
  }

  /** Only pending requests can be taken: a take button always reads "Pendiente" beside it. */
  lemma TakeOnlyWhenPending(r: Request, takingId: Option<string>)
    requires Take(r, takingId).Some?
    ensures StatusLabel(r.status) == "Pendiente"
  {
  }

  datatype View = Spinner | NoRequests | Cards(requests: seq<Request>)

  /** Loading wins over everything; then an empty list shows the empty state. */
  function Render(loading: bool, requests: seq<Request>): (v: View)
    ensures loading <==> v == Spinner
    ensures v == NoRequests <==> !loading && requests == []
    ensures v.Cards? ==> v.requests == requests && requests != []
  {
    if loading then Spinner else if requests == [] then NoRequests else Cards(requests)
  }

  /** The request being taken: set while the take call runs, cleared when it ends, whatever the outcome. */
  class TakeState {
    var takingId: Option<string>

    constructor()
      ensures takingId.None?
    {
      takingId := None;
    }

    method StartTake(id: string)
      modifies this
      ensures takingId == Some(id)
    {
      takingId := Some(id);
    }

    method FinishTake()
      modifies this
      ensures takingId.None?
    {
      takingId := None;
    }
  }
}
