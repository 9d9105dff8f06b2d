/**
 * The client's API service: the session kept in `localStorage` (token, token
 * expiry, cached user), the rules every request follows (headers, error
 * handling, clearing the session on 401/403), the sign-in calls that store a
 * session, the transaction query and the course-progress mapping.
 *
 * `localStorage` is a string-to-string map; the clock is the parameter `now`
 * (milliseconds); each server exchange is the input `Reply`; every request the
 * client sends is recorded in `calls`.
 */
module Api {
  import opened Basics
  import opened Text
  import opened UserCodec

  const TOKEN_KEY := "ecoris_token"
  const TOKEN_EXPIRY_KEY := "ecoris_token_expiry"
  const USER_KEY := "ecoris_user"

  /** A session lasts seven days, in milliseconds. */
  const SESSION_MS := 7 * 24 * 60 * 60 * 1000

  type Storage = map<string, string>

  /** `localStorage.getItem(k)`: `None` stands for `null`. */
  function Get(m: Storage, k: string): Option<string> {
    if k in m then Some(m[k]) else None
  }

  /** JavaScript truthiness of a stored string: present and not empty. */
  predicate Truthy(v: Option<string>) {
    v.Some? && v.value != ""
  }

  /**
   * A JavaScript value that may hold a user: `undefined`, `null` or an object.
   * Only `Present` is truthy; `Undefined` and `Null` differ under `!== null`.
   */
  datatype Slot = Undefined | Null | Present(user: User)

  // ---------------------------------------------------------------------------
  // Expiry text

  /** The text stored as the expiry of a session ending at `t`. */
  function ExpiryText(t: int): string {
    ShowInt(t)
  }

  /** `new Date() < new Date(text)`: text that is no date compares false, as NaN does. */
  predicate Before(now: int, text: string) {
    match ParseInt(text)
    case Some(t) => now < t
    case None => false
  }

  lemma BeforeExpiryText(now: int, t: int)
    ensures Before(now, ExpiryText(t)) <==> now < t
  {
    ParseIntShowInt(t);
  }

  // ---------------------------------------------------------------------------
  // The session store as functions of the old storage

  /** `clearSession`: the three session keys removed. */
  function Cleared(m: Storage): (r: Storage)
    ensures forall k :: k in r <==> k in m && k != TOKEN_KEY && k != TOKEN_EXPIRY_KEY && k != USER_KEY
    ensures forall k :: k in r ==> r[k] == m[k]
  {
    m - {TOKEN_KEY, TOKEN_EXPIRY_KEY, USER_KEY}
  }

  /** Both a token and an expiry are stored and the expiry has passed (or is no date). */
  predicate Expired(m: Storage, now: int) {
    Truthy(Get(m, TOKEN_KEY)) && Truthy(Get(m, TOKEN_EXPIRY_KEY)) && !Before(now, m[TOKEN_EXPIRY_KEY])
  }

  /** What `getToken` returns. */
  function TokenAt(m: Storage, now: int): (r: Option<string>)
    ensures r.Some? ==> r == Get(m, TOKEN_KEY)
  {
    if Expired(m, now) then None else Get(m, TOKEN_KEY)
  }

  /** The storage after `getToken`: cleared when the stored session has expired. */
  function AfterGetToken(m: Storage, now: int): Storage {
    if Expired(m, now) then Cleared(m) else m
  }

  /** The storage after `setToken(token)`. */
  function WithToken(m: Storage, token: string, now: int): Storage {
    m[TOKEN_KEY := token][TOKEN_EXPIRY_KEY := ExpiryText(now + SESSION_MS)]
  }

  /** The storage after `setCachedUser(user)`. */
  function WithUser(m: Storage, user: Slot): Storage {
    if user.Present? then m[USER_KEY := Encode(user.user)] else m
  }

  /** What `getCachedUser` returns. */
  function CachedUser(m: Storage): (r: Option<User>)
    ensures r.Some? ==> Truthy(Get(m, USER_KEY)) && Decode(m[USER_KEY]) == r
    ensures USER_KEY !in m ==> r == None
  {
    var text := Get(m, USER_KEY);
    if Truthy(text) then Decode(text.value) else None
  }

  /** `hasValidSession`. */
  predicate ValidSession(m: Storage, now: int) {
    Truthy(Get(m, TOKEN_KEY)) && Truthy(Get(m, TOKEN_EXPIRY_KEY)) && Truthy(Get(m, USER_KEY))
    && Before(now, m[TOKEN_EXPIRY_KEY])
  }

  // ---------------------------------------------------------------------------
  // Properties of the session store

  /** `getToken` on an unexpired session returns the token and changes nothing. */
  lemma TokenUnexpired(m: Storage, now: int)
    requires Truthy(Get(m, TOKEN_KEY)) && Truthy(Get(m, TOKEN_EXPIRY_KEY)) && Before(now, m[TOKEN_EXPIRY_KEY])
    ensures TokenAt(m, now) == Some(m[TOKEN_KEY]) && AfterGetToken(m, now) == m
  {
  }

  /** `getToken` on an expired session clears it and returns null. */
  lemma TokenExpired(m: Storage, now: int)
    requires Truthy(Get(m, TOKEN_KEY)) && Truthy(Get(m, TOKEN_EXPIRY_KEY)) && !Before(now, m[TOKEN_EXPIRY_KEY])
    ensures TokenAt(m, now) == None && AfterGetToken(m, now) == Cleared(m)
    ensures TOKEN_KEY !in AfterGetToken(m, now) && USER_KEY !in AfterGetToken(m, now)
  {
  }

  /** Without an expiry, `getToken` returns whatever token is stored, unchecked, and changes nothing. */
  lemma TokenWithoutExpiry(m: Storage, now: int)
    requires !Truthy(Get(m, TOKEN_EXPIRY_KEY))
    ensures TokenAt(m, now) == Get(m, TOKEN_KEY) && AfterGetToken(m, now) == m
  {
  }

  /** Calling `getToken` twice at the same instant is the same as calling it once. */
  lemma GetTokenIdempotent(m: Storage, now: int)
    ensures AfterGetToken(AfterGetToken(m, now), now) == AfterGetToken(m, now)
    ensures TokenAt(AfterGetToken(m, now), now) == TokenAt(m, now)
  {
    if Expired(m, now) {
      assert TOKEN_KEY !in Cleared(m);
    }
  }

  /** `clearSession` removes exactly the three session keys, leaving no session behind. */
  lemma ClearedEndsSession(m: Storage, now: int)
    ensures !ValidSession(Cleared(m), now)
    ensures TokenAt(Cleared(m), now) == None && CachedUser(Cleared(m)) == None
    ensures forall k :: k != TOKEN_KEY && k != TOKEN_EXPIRY_KEY && k != USER_KEY ==> Get(Cleared(m), k) == Get(m, k)
  {
  }

  /** `setToken` stores the token with an expiry of exactly seven days later. */
  lemma WithTokenExpiry(m: Storage, token: string, now: int)
    ensures Get(WithToken(m, token, now), TOKEN_KEY) == Some(token)
    ensures ParseInt(WithToken(m, token, now)[TOKEN_EXPIRY_KEY]) == Some(now + 604800000)
    ensures forall k :: k != TOKEN_KEY && k != TOKEN_EXPIRY_KEY ==> Get(WithToken(m, token, now), k) == Get(m, k)
  {
    ParseIntShowInt(now + SESSION_MS);
  }

  /** A token just set is returned by `getToken` until seven days have passed, and not after. */
  lemma TokenLastsSevenDays(m: Storage, token: string, now: int, later: int)
    requires token != "" && now <= later
    ensures later < now + SESSION_MS ==>
      TokenAt(WithToken(m, token, now), later) == Some(token) && AfterGetToken(WithToken(m, token, now), later) == WithToken(m, token, now)
    ensures later >= now + SESSION_MS ==>
      TokenAt(WithToken(m, token, now), later) == None && AfterGetToken(WithToken(m, token, now), later) == Cleared(WithToken(m, token, now))
  {
    BeforeExpiryText(later, now + SESSION_MS);
    assert ExpiryText(now + SESSION_MS) != "";
  }

  /** A cached user reads back as itself; a falsy user leaves the storage as it was. */
  lemma CachedUserRoundTrip(m: Storage, user: Slot)
    ensures user.Present? ==> CachedUser(WithUser(m, user)) == Some(user.user)
    ensures !user.Present? ==> WithUser(m, user) == m
  {
    if user.Present? {
      DecodeEncode(user.user);
    }
  }

  /** A valid session is one `getToken` honours unchanged. */
  lemma ValidSessionKeepsToken(m: Storage, now: int)
    requires ValidSession(m, now)
    ensures TokenAt(m, now) == Some(m[TOKEN_KEY]) && AfterGetToken(m, now) == m
  {
  }

  /** `hasValidSession` holds exactly when token, expiry and user are all stored and `getToken` would honour the token. */
  lemma ValidSessionIff(m: Storage, now: int)
    ensures ValidSession(m, now) <==>
      Truthy(Get(m, USER_KEY)) && Truthy(Get(m, TOKEN_EXPIRY_KEY)) && Truthy(TokenAt(m, now))
  {
  }

  // ---------------------------------------------------------------------------
  // Requests

  /** The fields of the decoded JSON answer that the client reads. */
  datatype Payload = Payload(
    error: Option<string>,
    token: Option<string>,
    user: Slot,
    completedLessons: Option<int>,
    totalLessons: Option<int>,
    progress: Option<int>)

  /**
   * One server exchange: `fetch` rejects with a message, or a response arrives
   * whose body `response.json()` decodes, or fails to decode with a message.
   */
  datatype Reply = Rejected(message: string) | Received(status: int, body: Result<Payload, string>)

  /** Name/value pairs: a JSON request body or a query string, in order. */
  type Fields = seq<(string, string)>

  /** A request as sent: URL, method, headers and body. */
  datatype Call = Call(url: string, verb: string, headers: map<string, string>, body: Option<Fields>)

  predicate OkStatus(status: int) {
    200 <= status <= 299
  }

  /** The headers `request` sends: JSON content type, caller headers over it, then the bearer token. */
  function Headers(caller: map<string, string>, token: Option<string>): (h: map<string, string>)
    ensures Truthy(token) ==> "Authorization" in h && h["Authorization"] == "Bearer " + token.value
    ensures !Truthy(token) ==> ("Authorization" in h <==> "Authorization" in caller)
    ensures "Content-Type" in h
    ensures h["Content-Type"] == if "Content-Type" in caller then caller["Content-Type"] else "application/json"
    ensures forall k :: k in caller && k != "Authorization" ==> k in h && h[k] == caller[k]
  {
    var base := map["Content-Type" := "application/json"] + caller;
    if Truthy(token) then base["Authorization" := "Bearer " + token.value] else base
  }

  /** The message a failed answer is thrown with. */
  function ErrorMessage(d: Payload): (msg: string)
    ensures msg != ""
    ensures Truthy(d.error) ==> msg == d.error.value
  {
    if Truthy(d.error) then d.error.value else "Erreur serveur"
  }

  /** What `request` resolves to (`Success`) or throws (`Failure`). */
  function Outcome(reply: Reply): (r: Result<Payload, string>)
    ensures r.Success? <==> reply.Received? && reply.body.Success? && OkStatus(reply.status)
    ensures r.Success? ==> r.value == reply.body.value
  {
    match reply
    case Rejected(msg) => Failure(msg)
    case Received(status, body) =>
      match body
      case Failure(msg) => Failure(msg)
      case Success(d) => if OkStatus(status) then Success(d) else Failure(ErrorMessage(d))
  }

  /** The answer is an authentication refusal whose body decoded: `request` clears the session. */
  predicate ClearsSession(reply: Reply) {
    reply.Received? && reply.body.Success? && (reply.status == 401 || reply.status == 403)
  }

  /** The storage after `request`. */
  function AfterRequest(m: Storage, now: int, reply: Reply): Storage {
    var m1 := AfterGetToken(m, now);
    if ClearsSession(reply) then Cleared(m1) else m1
  }

  /** A non-`ok` decoded answer always throws, with the server's error text or "Erreur serveur". */
  lemma RejectedAnswerThrows(reply: Reply)
    requires reply.Received? && reply.body.Success? && !OkStatus(reply.status)
    ensures Outcome(reply) == Failure(ErrorMessage(reply.body.value))
    ensures !Truthy(reply.body.value.error) ==> Outcome(reply) == Failure("Erreur serveur")
  {
  }

  /** Only a decoded 401 or 403 answer clears the session; every other exchange leaves what `getToken` left. */
  lemma RequestClearsOnlyOnRefusal(m: Storage, now: int, reply: Reply)
    ensures ClearsSession(reply) ==> !ValidSession(AfterRequest(m, now, reply), now) && AfterRequest(m, now, reply) == Cleared(AfterGetToken(m, now))
    ensures !ClearsSession(reply) ==> AfterRequest(m, now, reply) == AfterGetToken(m, now)
    ensures ValidSession(m, now) && !ClearsSession(reply) ==> AfterRequest(m, now, reply) == m
  {
    if ClearsSession(reply) {
      ClearedEndsSession(AfterGetToken(m, now), now);
    }
  }

  /** A 401 whose body is not JSON throws the parse error before the status is read, so nothing is cleared. */
  lemma UndecodableRefusalKeepsSession(m: Storage, now: int, msg: string)
    requires ValidSession(m, now)
    ensures AfterRequest(m, now, Received(401, Failure(msg))) == m
    ensures Outcome(Received(401, Failure(msg))) == Failure(msg)
  {
  }

  // ---------------------------------------------------------------------------
  // Signing in

  /** The storage after `login`/`register`: a returned token is stored with the returned user. */
  function AfterSignIn(m: Storage, now: int, reply: Reply): Storage {
    var m1 := AfterRequest(m, now, reply);
    match Outcome(reply)
    case Success(d) => if Truthy(d.token) then WithUser(WithToken(m1, d.token.value, now), d.user) else m1
    case Failure(_) => m1
  }

  /** A sign-in answer carrying a token and a user opens a session valid for seven days. */
  lemma SignInOpensSession(m: Storage, now: int, reply: Reply, later: int)
    requires Outcome(reply).Success?
    requires Truthy(Outcome(reply).value.token) && Outcome(reply).value.user.Present?
    requires now <= later < now + SESSION_MS
    ensures ValidSession(AfterSignIn(m, now, reply), later)
    ensures TokenAt(AfterSignIn(m, now, reply), later) == Outcome(reply).value.token
    ensures CachedUser(AfterSignIn(m, now, reply)) == Some(Outcome(reply).value.user.user)
  {
    var d := Outcome(reply).value;
    assert AfterSignIn(m, now, reply) == WithUser(WithToken(AfterRequest(m, now, reply), d.token.value, now), d.user);
    FreshSession(AfterRequest(m, now, reply), d.token.value, d.user.user, now, later);
  }

  /** A token and a user just stored make a session valid, with that token and user, for seven days. */
  lemma FreshSession(m: Storage, token: string, user: User, now: int, later: int)
    requires token != "" && now <= later < now + SESSION_MS
    ensures ValidSession(WithUser(WithToken(m, token, now), Present(user)), later)
    ensures TokenAt(WithUser(WithToken(m, token, now), Present(user)), later) == Some(token)
    ensures CachedUser(WithUser(WithToken(m, token, now), Present(user))) == Some(user)
  {
    var expiry := ExpiryText(now + SESSION_MS);
    var m2 := WithToken(m, token, now);
    var m3 := WithUser(m2, Present(user));
    SessionKeysDistinct();
    assert m3 == m[TOKEN_KEY := token][TOKEN_EXPIRY_KEY := expiry][USER_KEY := Encode(user)];
    assert Get(m3, TOKEN_KEY) == Some(token);
    assert Get(m3, TOKEN_EXPIRY_KEY) == Some(expiry) && expiry != "";
    assert Get(m3, USER_KEY) == Some(Encode(user)) && Encode(user) != "";
    BeforeExpiryText(later, now + SESSION_MS);
    assert ValidSession(m3, later);
    ValidSessionKeepsToken(m3, later);
    CachedUserRoundTrip(m2, Present(user));
  }

  /** The three session keys are different keys. */
  lemma SessionKeysDistinct()
    ensures TOKEN_KEY != TOKEN_EXPIRY_KEY && TOKEN_KEY != USER_KEY && TOKEN_EXPIRY_KEY != USER_KEY
  {
    assert |TOKEN_KEY| == 12 && |TOKEN_EXPIRY_KEY| == 19 && |USER_KEY| == 11;
  }

  /** A sign-in answer without a token stores nothing beyond what `request` did. */
  lemma SignInWithoutTokenStoresNothing(m: Storage, now: int, reply: Reply)
    requires Outcome(reply).Failure? || !Truthy(Outcome(reply).value.token)
    ensures AfterSignIn(m, now, reply) == AfterRequest(m, now, reply)
  {
  }

  /** The storage after `API.getCurrentUser`: a returned user is cached. */
  function AfterFetchUser(m: Storage, now: int, reply: Reply): Storage {
    var m1 := AfterRequest(m, now, reply);
    match Outcome(reply)
    case Success(d) => WithUser(m1, d.user)
    case Failure(_) => m1
  }

  // ---------------------------------------------------------------------------
  // Transaction query and course progress

  /** The filters `getTransactions` reads; `None` is an absent property. */
  datatype TransactionFilters = TransactionFilters(
    kind: Option<string>,
    category: Option<string>,
    startDate: Option<string>,
    endDate: Option<string>)

  function ParamRank(name: string): nat {
    if name == "type" then 0
    else if name == "category" then 1
    else if name == "startDate" then 2
    else 3
  }

  /** A set filter other than `'all'` narrows the query. */
  predicate Narrows(v: Option<string>) {
    Truthy(v) && v.value != "all"
  }

  /** Parameters in the order `getTransactions` appends them: type, category, start date, end date. */
  predicate Ranked(ps: Fields) {
    forall i, j :: 0 <= i < j < |ps| ==> ParamRank(ps[i].0) < ParamRank(ps[j].0)
  }

  lemma RankedAppend(a: Fields, b: Fields)
    requires Ranked(a) && Ranked(b)
    requires forall x, y :: x in a && y in b ==> ParamRank(x.0) < ParamRank(y.0)
    ensures Ranked(a + b)
  {
    forall i, j | 0 <= i < j < |a + b| ensures ParamRank((a + b)[i].0) < ParamRank((a + b)[j].0) {
      if i < |a| && j >= |a| {
        assert (a + b)[i] in a;
        assert (a + b)[j] == b[j - |a|];
      } else if i >= |a| {
        assert (a + b)[i] == b[i - |a|];
      }
    }
  }

  /** One `params.append(name, value)`, made only when `on`. */
  function Param(name: string, on: bool, value: string): (ps: Fields)
    ensures forall v :: (name, v) in ps <==> on && v == value
    ensures forall p :: p in ps ==> p.0 == name
    ensures Ranked(ps)
  {
    if on then [(name, value)] else []
  }

  /** The query parameters `getTransactions` appends, in order. */
  function TransactionParams(f: TransactionFilters): Fields {
    Param("type", Narrows(f.kind), f.kind.GetOr(""))
    + Param("category", Narrows(f.category), f.category.GetOr(""))
    + Param("startDate", Truthy(f.startDate), f.startDate.GetOr(""))
    + Param("endDate", Truthy(f.endDate), f.endDate.GetOr(""))
  }

  /** A filter is sent iff it is set (and, for the type and the category, not `'all'`), with its value. */
  lemma TransactionParamsSelect(f: TransactionFilters)
    ensures forall v :: ("type", v) in TransactionParams(f) <==> Narrows(f.kind) && v == f.kind.value
    ensures forall v :: ("category", v) in TransactionParams(f) <==> Narrows(f.category) && v == f.category.value
    ensures forall v :: ("startDate", v) in TransactionParams(f) <==> Truthy(f.startDate) && v == f.startDate.value
    ensures forall v :: ("endDate", v) in TransactionParams(f) <==> Truthy(f.endDate) && v == f.endDate.value
  {
    forall v ensures ("type", v) in TransactionParams(f) <==> Narrows(f.kind) && v == f.kind.value {
      ParamsHold(f, "type", v);
    }
    forall v ensures ("category", v) in TransactionParams(f) <==> Narrows(f.category) && v == f.category.value {
      ParamsHold(f, "category", v);
    }
    forall v ensures ("startDate", v) in TransactionParams(f) <==> Truthy(f.startDate) && v == f.startDate.value {
      ParamsHold(f, "startDate", v);
    }
    forall v ensures ("endDate", v) in TransactionParams(f) <==> Truthy(f.endDate) && v == f.endDate.value {
      ParamsHold(f, "endDate", v);
    }
  }

  /** Which of the four appends, if any, put `(name, v)` into the query. */
  lemma ParamsHold(f: TransactionFilters, name: string, v: string)
    ensures (name, v) in TransactionParams(f) <==>
      || (name == "type" && Narrows(f.kind) && v == f.kind.value)
      || (name == "category" && Narrows(f.category) && v == f.category.value)
      || (name == "startDate" && Truthy(f.startDate) && v == f.startDate.value)
      || (name == "endDate" && Truthy(f.endDate) && v == f.endDate.value)
  {
    var x := (name, v);
    var a := Param("type", Narrows(f.kind), f.kind.GetOr(""));
    var b := Param("category", Narrows(f.category), f.category.GetOr(""));
    var c := Param("startDate", Truthy(f.startDate), f.startDate.GetOr(""));
    var d := Param("endDate", Truthy(f.endDate), f.endDate.GetOr(""));
    assert x in TransactionParams(f) <==> x in a || x in b || x in c || x in d;
    assert |"type"| == 4 && |"category"| == 8 && |"startDate"| == 9 && |"endDate"| == 7;
  }

  /** The parameters come in the order type, category, start date, end date. */
  lemma TransactionParamsRanked(f: TransactionFilters)
    ensures Ranked(TransactionParams(f))
  {
    var a := Param("type", Narrows(f.kind), f.kind.GetOr(""));
    var b := Param("category", Narrows(f.category), f.category.GetOr(""));
    var c := Param("startDate", Truthy(f.startDate), f.startDate.GetOr(""));
    var d := Param("endDate", Truthy(f.endDate), f.endDate.GetOr(""));
    assert ParamRank("type") == 0 && ParamRank("category") == 1 && ParamRank("startDate") == 2 && ParamRank("endDate") == 3;
    RankedAppend(a, b);
    RankedAppend(a + b, c);
    RankedAppend(a + b + c, d);
  }

  /** `URLSearchParams.toString()` without percent-encoding. */
  function QueryString(ps: Fields): string {
    if |ps| == 0 then ""
    else if |ps| == 1 then ps[0].0 + "=" + ps[0].1
    else ps[0].0 + "=" + ps[0].1 + "&" + QueryString(ps[1..])
  }

  /** The summary `getFormationProgress` returns: a missing or zero field reads 0. */
  datatype Progress = Progress(completed: int, total: int, percentage: int)

  function ProgressOf(d: Payload): (p: Progress)
    ensures d.completedLessons.Some? ==> p.completed == d.completedLessons.value
    ensures d.totalLessons.Some? ==> p.total == d.totalLessons.value
    ensures d.progress.Some? ==> p.percentage == d.progress.value
    ensures d.completedLessons.None? ==> p.completed == 0
    ensures d.totalLessons.None? ==> p.total == 0
    ensures d.progress.None? ==> p.percentage == 0
  {
    Progress(d.completedLessons.GetOr(0), d.totalLessons.GetOr(0), d.progress.GetOr(0))
  }

  const NO_PROGRESS := Progress(0, 0, 0)

  // ---------------------------------------------------------------------------
  // The service object

  class Client {
    /** `API_URL`, the base every endpoint is appended to. */
    const apiUrl: string
    /** `localStorage`. */
    var storage: Storage
    /** Every request sent, oldest first. */
    var calls: seq<Call>

    constructor(apiUrl: string, storage: Storage)
      ensures this.apiUrl == apiUrl && this.storage == storage && calls == []
    {
      this.apiUrl := apiUrl;
      this.storage := storage;
      calls := [];
    }

    method ClearSession()
      modifies this
      ensures storage == Cleared(old(storage)) && calls == old(calls)
    {
      storage := storage - {TOKEN_KEY};
      storage := storage - {TOKEN_EXPIRY_KEY};
      storage := storage - {USER_KEY};
    }

    method GetToken(now: int) returns (token: Option<string>)
      modifies this
      ensures token == TokenAt(old(storage), now)
      ensures storage == AfterGetToken(old(storage), now) && calls == old(calls)
    {
      token := Get(storage, TOKEN_KEY);
      var expiry := Get(storage, TOKEN_EXPIRY_KEY);
      if Truthy(token) && Truthy(expiry) {
        if Before(now, expiry.value) {
          return token;
        } else {
          ClearSession();
          return None;
        }
      }
    }

    method SetToken(token: string, now: int)
      modifies this
      ensures storage == WithToken(old(storage), token, now) && calls == old(calls)
    {
      storage := storage[TOKEN_KEY := token];
      var expiry := now + SESSION_MS;
      storage := storage[TOKEN_EXPIRY_KEY := ExpiryText(expiry)];
    }

    /** `removeToken` is `clearSession`. */
    method RemoveToken()
      modifies this
      ensures storage == Cleared(old(storage)) && calls == old(calls)
    {
      ClearSession();
    }

    method GetCachedUser() returns (user: Option<User>)
      ensures user == CachedUser(storage)
      ensures user.Some? ==> Truthy(Get(storage, USER_KEY))
    {
      var text := Get(storage, USER_KEY);
      if Truthy(text) {
        return Decode(text.value);
      }
      return None;
    }

    method SetCachedUser(user: Slot)
      modifies this
      ensures storage == WithUser(old(storage), user) && calls == old(calls)
    {
      if user.Present? {
        storage := storage[USER_KEY := Encode(user.user)];
      }
    }

    method HasValidSession(now: int) returns (valid: bool)
      ensures valid == ValidSession(storage, now)
      ensures valid ==> TokenAt(storage, now) == Some(storage[TOKEN_KEY])
    {
      var token := Get(storage, TOKEN_KEY);
      var expiry := Get(storage, TOKEN_EXPIRY_KEY);
      var user := Get(storage, USER_KEY);
      if !Truthy(token) || !Truthy(expiry) || !Truthy(user) {
        return false;
      }
      return Before(now, expiry.value);
    }

    /** `request(endpoint, options)`: one call sent, its outcome returned or thrown. */
    method Request(endpoint: string, verb: string, caller: map<string, string>, body: Option<Fields>, now: int, reply: Reply)
      returns (r: Result<Payload, string>)
      modifies this
      ensures r == Outcome(reply)
      ensures calls == old(calls) + [Call(apiUrl + endpoint, verb, Headers(caller, TokenAt(old(storage), now)), body)]
      ensures storage == AfterRequest(old(storage), now, reply)
    {
      var token := GetToken(now);
      var headers := map["Content-Type" := "application/json"] + caller;
      if Truthy(token) {
        headers := headers["Authorization" := "Bearer " + token.value];
      }
      calls := calls + [Call(apiUrl + endpoint, verb, headers, body)];
      match reply
      case Rejected(msg) =>
        r := Failure(msg);
      case Received(status, decoded) =>
        match decoded
        case Failure(msg) =>
          r := Failure(msg);
        case Success(d) =>
          if !OkStatus(status) {
            if status == 401 || status == 403 {
              ClearSession();
            }
            r := Failure(ErrorMessage(d));
          } else {
            r := Success(d);
          }
    }

    /** Stores the token and user of a successful sign-in answer. */
    method StoreSignIn(r: Result<Payload, string>, now: int)
      modifies this
      ensures r.Success? && Truthy(r.value.token) ==>
        storage == WithUser(WithToken(old(storage), r.value.token.value, now), r.value.user)
      ensures !(r.Success? && Truthy(r.value.token)) ==> storage == old(storage)
      ensures calls == old(calls)
    {
      if r.Success? && Truthy(r.value.token) {
        SetToken(r.value.token.value, now);
        SetCachedUser(r.value.user);
      }
    }

    method Login(email: string, password: string, now: int, reply: Reply) returns (r: Result<Payload, string>)
      modifies this
      ensures r == Outcome(reply)
      ensures calls == old(calls) + [Call(apiUrl + "/auth/login", "POST", Headers(map[], TokenAt(old(storage), now)),
                                          Some([("email", email), ("password", password)]))]
      ensures storage == AfterSignIn(old(storage), now, reply)
    {
      r := Request("/auth/login", "POST", map[], Some([("email", email), ("password", password)]), now, reply);
      StoreSignIn(r, now);
    }

    method Register(fullName: string, email: string, password: string, purchaseCode: Option<string>, now: int, reply: Reply)
      returns (r: Result<Payload, string>)
      modifies this
      ensures r == Outcome(reply)
      ensures calls == old(calls) + [Call(apiUrl + "/auth/register", "POST", Headers(map[], TokenAt(old(storage), now)),
                                          Some(RegisterBody(fullName, email, password, purchaseCode)))]
      ensures storage == AfterSignIn(old(storage), now, reply)
    {
      var body: Fields := [("fullName", fullName), ("email", email), ("password", password)];
      if Truthy(purchaseCode) {
        body := body + [("purchaseCode", purchaseCode.value)];
      }
      assert body == RegisterBody(fullName, email, password, purchaseCode);
      r := Request("/auth/register", "POST", map[], Some(body), now, reply);
      StoreSignIn(r, now);
    }

    /** `API.getCurrentUser`: asks the server who is signed in and caches the answer's user. */
    method FetchCurrentUser(now: int, reply: Reply) returns (r: Result<Payload, string>)
      modifies this
      ensures r == Outcome(reply)
      ensures calls == old(calls) + [Call(apiUrl + "/auth/me", "GET", Headers(map[], TokenAt(old(storage), now)), None)]
      ensures storage == AfterFetchUser(old(storage), now, reply)
    {
      r := Request("/auth/me", "GET", map[], None, now, reply);
      if r.Success? {
        SetCachedUser(r.value.user);
      }
    }

    method GetTransactions(f: TransactionFilters, now: int, reply: Reply) returns (r: Result<Payload, string>)
      modifies this
      ensures r == Outcome(reply)
      ensures calls == old(calls) + [Call(apiUrl + ("/transactions?" + QueryString(TransactionParams(f))), "GET",
                                          Headers(map[], TokenAt(old(storage), now)), None)]
      ensures storage == AfterRequest(old(storage), now, reply)
    {
      var params: Fields := [];
      if Narrows(f.kind) {
        params := params + [("type", f.kind.value)];
      }
      ghost var upToType := Param("type", Narrows(f.kind), f.kind.GetOr(""));
      assert params == upToType;
      if Narrows(f.category) {
        params := params + [("category", f.category.value)];
      }
      ghost var upToCategory := upToType + Param("category", Narrows(f.category), f.category.GetOr(""));
      assert params == upToCategory;
      if Truthy(f.startDate) {
        params := params + [("startDate", f.startDate.value)];
      }
      ghost var upToStart := upToCategory + Param("startDate", Truthy(f.startDate), f.startDate.GetOr(""));
      assert params == upToStart;
      if Truthy(f.endDate) {
        params := params + [("endDate", f.endDate.value)];
      }
      assert params == upToStart + Param("endDate", Truthy(f.endDate), f.endDate.GetOr(""));
      r := Request("/transactions?" + QueryString(params), "GET", map[], None, now, reply);
    }

    method GetFormationProgress(now: int, reply: Reply) returns (r: Result<Progress, string>)
      modifies this
      ensures Outcome(reply).Success? ==> r == Success(ProgressOf(Outcome(reply).value))
      ensures Outcome(reply).Failure? ==> r == Failure(Outcome(reply).error)
      ensures calls == old(calls) + [Call(apiUrl + "/courses/progress", "GET", Headers(map[], TokenAt(old(storage), now)), None)]
      ensures storage == AfterRequest(old(storage), now, reply)
    {
      var data := Request("/courses/progress", "GET", map[], None, now, reply);
      match data
      case Success(d) => r := Success(ProgressOf(d));
      case Failure(msg) => r := Failure(msg);
    }
  }

  /** The JSON body `register` sends: the purchase code only when one was given. */
  function RegisterBody(fullName: string, email: string, password: string, purchaseCode: Option<string>): (b: Fields)
    ensures |b| == (if Truthy(purchaseCode) then 4 else 3)
    ensures b[..3] == [("fullName", fullName), ("email", email), ("password", password)]
    ensures Truthy(purchaseCode) ==> b[3] == ("purchaseCode", purchaseCode.value)
  {
    [("fullName", fullName), ("email", email), ("password", password)]
    + (if Truthy(purchaseCode) then [("purchaseCode", purchaseCode.value)] else [])
  }
}
