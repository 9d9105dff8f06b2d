/**
 * The client's authentication state: the module-level `currentUser` beside the
 * session store, the start-up check against the server (tolerating an offline
 * start when a user is cached), the quick local check, sign-out, and reading
 * and replacing the current user.
 */
module Auth {
  import opened Basics
  import opened Text
  import opened UserCodec
  import opened Api

  /** What `checkAuth` leaves behind: its answer, `currentUser` and the storage. */
  datatype AuthStep = AuthStep(accepted: bool, user: Slot, storage: Storage)

  /** The offline exception: a cached user and an error message mentioning "fetch". */
  predicate OfflineTolerated(cached: Option<User>, message: string) {
    cached.Some? && Contains(message, "fetch")
  }

  /** `checkAuth` as a function of the storage, `currentUser`, the clock and the server's reply. */
  function CheckAuthSpec(m: Storage, current: Slot, now: int, reply: Reply): AuthStep {
    if !ValidSession(m, now) then AuthStep(false, current, m)
    else
      var cached := CachedUser(m);
      var shown := if cached.Some? then Present(cached.value) else current;
      var m1 := AfterFetchUser(m, now, reply);
      match Outcome(reply)
      case Success(d) => AuthStep(true, d.user, m1)
      case Failure(msg) =>
        if OfflineTolerated(cached, msg) then AuthStep(true, shown, m1)
        else AuthStep(false, Null, Cleared(m1))
  }

  /** `isLoggedIn`: a valid local session and a user known either in memory or in the cache. */
  predicate LoggedIn(m: Storage, current: Slot, now: int) {
    ValidSession(m, now) && (current != Null || CachedUser(m).Some?)
  }

  /** `getCurrentUser`: the in-memory user, else the cached one. */
  function CurrentUserOf(current: Slot, m: Storage): (u: Option<User>)
    ensures current.Present? ==> u == Some(current.user)
    ensures !current.Present? ==> u == CachedUser(m)
  {
    if current.Present? then Some(current.user) else CachedUser(m)
  }

  // ---------------------------------------------------------------------------
  // Properties of checkAuth

  /** Without a valid local session the answer is false and nothing changes. */
  lemma NoLocalSessionRefused(m: Storage, current: Slot, now: int, reply: Reply)
    requires !ValidSession(m, now)
    ensures CheckAuthSpec(m, current, now, reply) == AuthStep(false, current, m)
  {
  }

  /** When the server confirms the session, `currentUser` becomes the user it returned and the answer is true. */
  lemma ServerConfirms(m: Storage, current: Slot, now: int, reply: Reply)
    requires ValidSession(m, now) && Outcome(reply).Success?
    ensures CheckAuthSpec(m, current, now, reply).accepted
    ensures CheckAuthSpec(m, current, now, reply).user == Outcome(reply).value.user
    ensures LoggedIn(CheckAuthSpec(m, current, now, reply).storage, Outcome(reply).value.user, now)
        <==> Outcome(reply).value.user != Null || CachedUser(AfterFetchUser(m, now, reply)).Some?
  {
    var d := Outcome(reply).value;
    ValidSessionKeepsToken(m, now);
    RequestClearsOnlyOnRefusal(m, now, reply);
    assert AfterRequest(m, now, reply) == m;
    if d.user.Present? {
      assert Encode(d.user.user) != "";
    }
    assert ValidSession(WithUser(m, d.user), now);
  }

  /** Offline with a cached user: the answer is true and the session is kept as it was. */
  lemma OfflineKeepsSession(m: Storage, current: Slot, now: int, message: string)
    requires ValidSession(m, now) && CachedUser(m).Some? && Contains(message, "fetch")
    ensures CheckAuthSpec(m, current, now, Rejected(message)) == AuthStep(true, Present(CachedUser(m).value), m)
    ensures LoggedIn(m, Present(CachedUser(m).value), now)
  {
    ValidSessionKeepsToken(m, now);
  }

  /** Any other failure clears the session, nulls `currentUser` and answers false. */
  lemma OtherFailureSignsOut(m: Storage, current: Slot, now: int, reply: Reply, later: int)
    requires ValidSession(m, now) && Outcome(reply).Failure?
    requires !OfflineTolerated(CachedUser(m), Outcome(reply).error)
    ensures !CheckAuthSpec(m, current, now, reply).accepted
    ensures CheckAuthSpec(m, current, now, reply).user == Null
    ensures !LoggedIn(CheckAuthSpec(m, current, now, reply).storage, Null, later)
  {
    ClearedEndsSession(AfterFetchUser(m, now, reply), later);
  }

  /**
   * A 401 or 403 whose error text mentions "fetch" clears the session inside the
   * request, yet `checkAuth` still answers true when a user was cached.
   */
  lemma RefusalMentioningFetchAccepted(m: Storage, current: Slot, now: int, status: int, d: Payload)
    requires ValidSession(m, now) && CachedUser(m).Some?
    requires status == 401 || status == 403
    requires Truthy(d.error) && Contains(d.error.value, "fetch")
    ensures CheckAuthSpec(m, current, now, Received(status, Success(d))).accepted
    ensures !ValidSession(CheckAuthSpec(m, current, now, Received(status, Success(d))).storage, now)
  {
    var reply := Received(status, Success(d));
    RequestClearsOnlyOnRefusal(m, now, reply);
  }

  /** An accepted check that did not go through a refusal leaves the user logged in. */
  lemma AcceptedMeansLoggedIn(m: Storage, current: Slot, now: int, reply: Reply)
    requires CheckAuthSpec(m, current, now, reply).accepted
    requires CheckAuthSpec(m, current, now, reply).user != Null
    requires !ClearsSession(reply)
    ensures LoggedIn(CheckAuthSpec(m, current, now, reply).storage, CheckAuthSpec(m, current, now, reply).user, now)
  {
    ValidSessionKeepsToken(m, now);
    RequestClearsOnlyOnRefusal(m, now, reply);
    match Outcome(reply)
    case Success(d) =>
      if d.user.Present? {
        assert Encode(d.user.user) != "";
      }
      assert ValidSession(WithUser(m, d.user), now);
    case Failure(_) =>
  }

  // ---------------------------------------------------------------------------
  // Properties of the other operations

  /** After `logout`, nobody is logged in, at any time, and no user is known. */
  lemma LogoutSignsOut(m: Storage, later: int)
    ensures !LoggedIn(Cleared(m), Null, later)
    ensures CurrentUserOf(Null, Cleared(m)) == None
  {
    ClearedEndsSession(m, later);
  }

  /** `setCurrentUser(u)` with a user makes it the current user, in memory and in the cache. */
  lemma SetUserIsCurrent(m: Storage, u: User)
    ensures CurrentUserOf(Present(u), WithUser(m, Present(u))) == Some(u)
    ensures CachedUser(WithUser(m, Present(u))) == Some(u)
  {
    CachedUserRoundTrip(m, Present(u));
  }

  /** `isLoggedIn` is true only with a valid session, and then iff some user is known. */
  lemma LoggedInIff(m: Storage, current: Slot, now: int)
    ensures LoggedIn(m, current, now) ==> ValidSession(m, now) && TokenAt(m, now) == Some(m[TOKEN_KEY])
    ensures ValidSession(m, now) ==> (LoggedIn(m, current, now) <==> current != Null || CachedUser(m).Some?)
    ensures current.Present? && ValidSession(m, now) ==> LoggedIn(m, current, now) && CurrentUserOf(current, m).Some?
  {
    if ValidSession(m, now) {
      ValidSessionKeepsToken(m, now);
    }
  }

  // ---------------------------------------------------------------------------
  // The module state

  class Session {
    var currentUser: Slot
    const api: Client

    constructor(api: Client)
      ensures this.api == api && currentUser == Null
    {
      this.api := api;
      currentUser := Null;
    }

    method CheckAuth(now: int, reply: Reply) returns (accepted: bool)
      modifies this, api
      ensures var step := CheckAuthSpec(old(api.storage), old(currentUser), now, reply);
        accepted == step.accepted && currentUser == step.user && api.storage == step.storage
      ensures !ValidSession(old(api.storage), now) ==> api.calls == old(api.calls)
      ensures ValidSession(old(api.storage), now) ==>
        api.calls == old(api.calls) + [Call(api.apiUrl + "/auth/me", "GET", Headers(map[], TokenAt(old(api.storage), now)), None)]
    {
      var valid := api.HasValidSession(now);
      if !valid {
        return false;
      }
      var cachedUser := api.GetCachedUser();
      if cachedUser.Some? {
        currentUser := Present(cachedUser.value);
      }
      var data := api.FetchCurrentUser(now, reply);
      match data
      case Success(d) =>
        currentUser := d.user;
        return true;
      case Failure(message) =>
        if cachedUser.Some? && Contains(message, "fetch") {
          return true;
        }
        api.ClearSession();
        currentUser := Null;
        return false;
    }

    method IsLoggedIn(now: int) returns (b: bool)
      ensures b == LoggedIn(api.storage, currentUser, now)
    {
      var valid := api.HasValidSession(now);
      var cached := api.GetCachedUser();
      b := valid && (currentUser != Null || cached.Some?);
    }

    method Logout()
      modifies this, api
      ensures api.storage == Cleared(old(api.storage)) && currentUser == Null
      ensures api.calls == old(api.calls)
    {
      api.ClearSession();
      currentUser := Null;
    }

    method GetCurrentUser() returns (u: Option<User>)
      ensures u == CurrentUserOf(currentUser, api.storage)
    {
      if currentUser.Present? {
        return Some(currentUser.user);
      }
      u := api.GetCachedUser();
    }

    method SetCurrentUser(user: Slot)
      modifies this, api
      ensures currentUser == user && api.storage == WithUser(old(api.storage), user)
      ensures api.calls == old(api.calls)
    {
      currentUser := user;
      if user.Present? {
        api.SetCachedUser(user);
      }
    }
  }
}
