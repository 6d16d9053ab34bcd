/** auth_services.py: token lookup, registration, login error mapping and the user-info lookup with retries. */
module Auth {
  import opened Wrappers
  import opened Strings
  import opened ChatTables
  import opened Retry

  /** A user or profile record: field name to value. */
  type Record = map<string, string>

  /** `get_user_from_token`: any failure of the lookup, or no user in its answer, is 401. */
  function GetUserFromToken(lookup: Result<Option<string>>): (r: Result<string>)
    ensures r.Ok? <==> lookup.Ok? && lookup.value.Some?
    ensures r.Ok? ==> r.value == lookup.value.value
    ensures r.Fail? ==> r.error == Http(401)
  {
    if lookup.Ok? && lookup.value.Some? then Ok(lookup.value.value) else Fail(Http(401))
  }

  /** The role a registration gets when the caller passes none. */
  const DefaultRole: string := "user"

  /**
   * `register_user`: without a created user (sign-up gave none, or raised) the result is 400 and
   * nothing is inserted; else a profile row with the given name and role is added. `role` is None
   * when the caller leaves the argument out, and the row then gets the default role "user".
   */
  method RegisterUser(db: ChatDb, signUp: Option<string>, fullName: string, role: Option<string>) returns (r: Result<string>)
    modifies db
    ensures signUp.None? ==> r == Fail(Http(400)) && db.profiles == old(db.profiles)
    ensures signUp.Some? ==>
      (r == Ok(signUp.value) && db.profiles == old(db.profiles) + [Profile(signUp.value, Some(fullName), role.GetOr(DefaultRole))])
    ensures signUp.Some? && role.None? ==> db.profiles[|db.profiles| - 1].role == "user"
    ensures db.conversations == old(db.conversations) && db.messages == old(db.messages) && db.requests == old(db.requests)
  {
    if signUp.None? {
      return Fail(Http(400));
    }
    db.profiles := db.profiles + [Profile(signUp.value, Some(fullName), role.GetOr(DefaultRole))];
    r := Ok(signUp.value);
  }

  /** What the password sign-in call does. */
  datatype SignIn =
    | Session(accessToken: string)
    | NoSession                    // returned without a session
    | SignInError(message: string) // raised, with this message

  /**
   * `login_user`: a session yields its token; an error whose text contains
   * "Invalid login credentials" is 401; every other failure, including the missing
   * session (raised inside the try and caught again), is 400.
   */
  function LoginUser(s: SignIn): (r: Result<string>)
    ensures r.Ok? <==> s.Session?
    ensures r.Ok? ==> r.value == s.accessToken
    ensures r == Fail(Http(401)) <==> s.SignInError? && Contains(s.message, "Invalid login credentials")
    ensures r.Fail? ==> r.error in {Http(400), Http(401)}
  {
    match s
    case Session(t) => Ok(t)
    case NoSession => Fail(Http(400))
    case SignInError(msg) => if Contains(msg, "Invalid login credentials") then Fail(Http(401)) else Fail(Http(400))
  }

  /** The wrapped message of a provider error still maps to 401. */
  lemma {:induction false} WrappedCredentialsErrorIs401(pre: string, post: string)
    ensures LoginUser(SignInError(pre + "Invalid login credentials" + post)) == Fail(Http(401))
  {
    assert OccursAt("Invalid login credentials", "Invalid login credentials", 0);
    ContainsExtend(pre, "Invalid login credentials", post, "Invalid login credentials");
  }

  /** `{**user_data, **profile.data}`: the profile's fields win on shared keys. */
  function MergeUserInfo(user: Record, profile: Record): (m: Record)
    ensures m.Keys == user.Keys + profile.Keys
    ensures forall k :: k in profile ==> m[k] == profile[k]
    ensures forall k :: k in user && k !in profile ==> m[k] == user[k]
  {
    user + profile
  }

  /** One pass of the loop body: a missing profile raises 404 inside the try, which is not retried. */
  function ProfileAttempt(fetch: nat -> Attempt<Option<Record>>, user: Record): nat -> Attempt<Record>
  {
    (i: nat) =>
      match fetch(i)
      case Succeeds(p) => if p.Some? then Succeeds(MergeUserInfo(user, p.value)) else Fatal(Http(404))
      case Transient => Transient
      case Fatal(e) => Fatal(e)
  }

  const UserInfoAttempts: nat := 3

  /** What `get_user_info` returns or raises, given what each profile fetch does. */
  function UserInfoSpec(fetch: nat -> Attempt<Option<Record>>, user: Record): Result<Record>
  {
    match Spec(ProfileAttempt(fetch, user), UserInfoAttempts)
    case Returned(m) => Ok(m)
    case Reraised(e) => Fail(e)
    case Unavailable => Fail(Http(503))
    case NoCall => Fail(Http(503))
  }

  /** `get_user_info`: the profile fetch under the three-attempt retry policy. */
  method GetUserInfo(fetch: nat -> Attempt<Option<Record>>, user: Record) returns (r: Result<Record>, calls: nat, slept: seq<nat>)
    ensures r == UserInfoSpec(fetch, user)
    ensures calls == Calls(ProfileAttempt(fetch, user), UserInfoAttempts) && 1 <= calls <= 3
    ensures slept == Delays(calls - 1)
  {
    var o;
    o, calls, slept := ExecuteWithRetry(ProfileAttempt(fetch, user), UserInfoAttempts);
    CallsBounded(ProfileAttempt(fetch, user), UserInfoAttempts);
    match o {
      case Returned(m) => r := Ok(m);
      case Reraised(e) => r := Fail(e);
      case Unavailable => r := Fail(Http(503));
      case NoCall => r := Fail(Http(503));
    }
  }

  /** A found profile on the first fetch gives the merged record at once. */
  lemma {:induction false} ProfileFoundFirst(fetch: nat -> Attempt<Option<Record>>, user: Record)
    requires fetch(0).Succeeds? && fetch(0).value.Some?
    ensures UserInfoSpec(fetch, user) == Ok(MergeUserInfo(user, fetch(0).value.value))
  {
    FirstCallSucceeds(ProfileAttempt(fetch, user), UserInfoAttempts);
  }

  /** A missing profile is 404, raised on the first fetch with no retry. */
  lemma {:induction false} MissingProfileIs404(fetch: nat -> Attempt<Option<Record>>, user: Record)
    requires fetch(0) == Succeeds(None)
    ensures UserInfoSpec(fetch, user) == Fail(Http(404))
    ensures Calls(ProfileAttempt(fetch, user), UserInfoAttempts) == 1
  {
    FatalNotRetried(ProfileAttempt(fetch, user), UserInfoAttempts);
  }

  /** Three connection errors in a row end in 503 after waiting 0.5 s and 1 s. */
  lemma {:induction false} ThreeConnectionErrorsAre503(fetch: nat -> Attempt<Option<Record>>, user: Record)
    requires fetch(0).Transient? && fetch(1).Transient? && fetch(2).Transient?
    ensures UserInfoSpec(fetch, user) == Fail(Http(503))
    ensures Calls(ProfileAttempt(fetch, user), UserInfoAttempts) == 3
    ensures Delays(2) == [500, 1000]
  {
    var f := ProfileAttempt(fetch, user);
    assert f(0).Transient? && f(1).Transient? && f(2).Transient?;
    AllTransientUnavailable(f, UserInfoAttempts);
  }

  /** Any successful result carries every profile field unchanged. */
  lemma {:induction false} ResultHasProfileFields(fetch: nat -> Attempt<Option<Record>>, user: Record)
    requires UserInfoSpec(fetch, user).Ok?
    ensures exists i, p ::
      (0 <= i < 3 && fetch(i) == Succeeds(Some(p)) &&
       forall k :: k in p ==> k in UserInfoSpec(fetch, user).value && UserInfoSpec(fetch, user).value[k] == p[k])
  {
    var f := ProfileAttempt(fetch, user);
    ReturnedIsFirstSuccess(f, UserInfoAttempts);
    var i :| 0 <= i < 3 && f(i) == Succeeds(Spec(f, UserInfoAttempts).value);
    var p := fetch(i).value.value;
    assert fetch(i) == Succeeds(Some(p));
  }
}
