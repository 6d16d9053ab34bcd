/**
 * Where a signed-in user is sent by role: the role guard of the role-only
 * pages (which replaces the history entry) and the landing redirect (which
 * pushes one). Both use the same role-to-page table.
 */
module RoleRedirect {
  import opened Wrappers

  /** The roles a page can be restricted to. */
  datatype AllowedRole = UserRole | AgentRole | AdminRole
  {
    function Name(): string
    {
      match this
      case UserRole => "user"
      case AgentRole => "agent"
      case AdminRole => "admin"
    }
  }

  datatype Navigation = Replace(path: string) | Push(path: string)

  /** Each role's home page; an unknown role goes to the login page. */
  function HomeFor(role: string): (path: string)
    ensures role == "user" <==> path == "/chat"
    ensures role == "agent" <==> path == "/caso-activo"
    ensures role == "admin" <==> path == "/escalate"
    ensures role != "user" && role != "agent" && role != "admin" <==> path == "/login"
  {
    if role == "user" then "/chat"
    else if role == "agent" then "/caso-activo"
    else if role == "admin" then "/escalate"
    else "/login"
  }

  /** The home page of each restricted role. */
  function HomeRole(r: AllowedRole): (path: string)
    ensures path == HomeFor(r.Name())
  {
    match r
    case UserRole => "/chat"
    case AgentRole => "/caso-activo"
    case AdminRole => "/escalate"
  }

  /**
   * useRoleRedirect: nothing while the user loads or when nobody is signed
   * in; nothing for the allowed role; anyone else is sent home, replacing
   * the current entry.
   */
  function Guard(allowed: AllowedRole, role: Option<string>, loading: bool): (n: Option<Navigation>)
    ensures n.None? <==> loading || role.None? || role.value == allowed.Name()
    ensures n.Some? ==> n.value == Replace(HomeFor(role.value))
  {
    if loading || role.None? || role.value == allowed.Name() then None
    else Some(Replace(HomeFor(role.value)))
  }

  /** RoleBasedRedirect: nothing while loading; the login page without a user; otherwise home, pushing a new entry. */
  function Landing(role: Option<string>, loading: bool): (n: Option<Navigation>)
    ensures n.None? <==> loading
    ensures !loading && role.None? ==> n == Some(Push("/login"))
    ensures !loading && role.Some? ==> n == Some(Push(HomeFor(role.value)))
  {
    if loading then None
    else if role.None? then Some(Push("/login"))
    else Some(Push(HomeFor(role.value)))
  }

  /** The guard and the landing redirect send a signed-in user to the same page. */
  lemma SameTable(allowed: AllowedRole, role: string)
    requires role != allowed.Name()
    ensures Guard(allowed, Some(role), false).value.path == Landing(Some(role), false).value.path
  {
  }

  /** A user sent to their home page is not sent on again by that page's guard. */
  lemma HomeIsStable(r: AllowedRole)
    ensures Guard(r, Some(r.Name()), false).None?
    ensures Landing(Some(r.Name()), false) == Some(Push(HomeRole(r)))
  {
  }
}
