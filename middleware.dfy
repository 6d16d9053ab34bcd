/**
 * The edge middleware that guards the student and admin pages: a guarded
 * path needs a session cookie that the backend accepts.
 *
 * The backend session check is external: its outcome is a parameter.
 */
module Middleware {
  import opened Wrappers
  import opened Strings

  /** The guarded path prefixes. */
  function ProtectedRoutes(): (r: seq<string>)
    ensures |r| == 5
  {
    ["/chat", "/calendar", "/history", "/notifications", "/escalate"]
  }

  /** `routes.some(route => path.startsWith(route))`. */
  function AnyPrefix(path: string, routes: seq<string>): (b: bool)
    ensures b <==> exists i :: 0 <= i < |routes| && StartsWith(path, routes[i])
  {
    if routes == [] then false
    else if StartsWith(path, routes[0]) then true
    else
      assert forall i :: 1 <= i < |routes| ==> routes[i] == routes[1..][i - 1];
      AnyPrefix(path, routes[1..])
  }

  predicate IsProtected(path: string)
  {
    AnyPrefix(path, ProtectedRoutes())
  }

  /** The outcome of `GET /auth/me` with the request's cookies. */
  datatype SessionCheck = Accepted | Rejected(status: int) | Unreachable

  /** What the middleware answers: let the request through, or redirect (with the `redirect` query value, if any). */
  datatype Decision = Pass | Redirect(target: string, back: Option<string>)

  /**
   * middleware: unguarded paths pass; no (or an empty) session cookie goes
   * to the login page, which will send the user back; a 401 from the
   * backend goes to /401; any other refusal or a failed call goes to the
   * login page; an accepted session passes.
   */
  function Decide(path: string, session: Option<string>, check: SessionCheck): (d: Decision)
    ensures d == Pass <==> !IsProtected(path) || (session.Some? && session.value != "" && check == Accepted)
    ensures d == Redirect("/401", None) <==>
      IsProtected(path) && session.Some? && session.value != "" && check == Rejected(401)
    ensures d != Pass && d != Redirect("/401", None) ==> d == Redirect("/login", Some(path))
  {
    if !IsProtected(path) then Pass
    else if session.None? || session.value == "" then Redirect("/login", Some(path))
    else
      match check
      case Accepted => Pass
      case Rejected(status) => if status == 401 then Redirect("/401", None) else Redirect("/login", Some(path))
      case Unreachable => Redirect("/login", Some(path))
  }

  /** A guarded page is only ever reached with a session cookie the backend accepted. */
  lemma PassMeansAllowed(path: string, session: Option<string>, check: SessionCheck)
    requires IsProtected(path) && Decide(path, session, check) == Pass
    ensures session.Some? && session.value != "" && check == Accepted
  {
  }

  /** Every redirect to the login page carries the requested path back. */
  lemma LoginRedirectKeepsPath(path: string, session: Option<string>, check: SessionCheck)
    requires Decide(path, session, check).Redirect? && Decide(path, session, check).target == "/login"
    ensures Decide(path, session, check).back == Some(path)
  {
  }

  /** The test is a prefix test: a conversation page is guarded, and so is any path that merely begins with "/chat". */
  lemma PrefixGuardsMoreThanPages(id: string)
    ensures IsProtected("/chat/" + id)
    ensures IsProtected("/chatx")
    ensures !IsProtected("/login")
  {
    assert StartsWith("/chat/" + id, ProtectedRoutes()[0]);
    assert StartsWith("/chatx", ProtectedRoutes()[0]);
    assert forall i :: 0 <= i < 5 ==> !StartsWith("/login", ProtectedRoutes()[i]) by {
      assert "/login"[1] == 'l';
    }
  }
}
