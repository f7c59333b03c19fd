/**
 * One installation's client of the chat platform's REST API: its settings,
 * the cached OAuth2 access token, and the requests it issues.
 *
 * The network stays outside the model. The token endpoint, the HTTP
 * transport and JSON encoding/decoding are oracles carried by an `Env`
 * value; the client records every request it hands to the transport in
 * `sent` and counts token acquisitions in `tokenFetches`.
 */
module Authorities {
  import opened Values
  import opened OrderedHash
  import Atom

  type Byte = b: int | 0 <= b < 256

  // ---------------------------------------------------------------------
  // Settings

  /**
   * What `Authority#initialize` keeps: the OAuth credentials and endpoints as
   * given, the room and group ids as integers (absent stays absent), and the
   * API base URL as text ending in '/'.
   */
  datatype Config = Config(
    oauthId: Value,
    oauthSecret: Value,
    authorizationUrl: Value,
    tokenUrl: Value,
    roomId: Option<int>,
    groupId: Option<int>,
    apiBase: string)

  predicate EndsWithSlash(s: string)
  {
    |s| > 0 && s[|s| - 1] == '/'
  }

  /** The api_base normalisation: append '/' unless already there. */
  function WithTrailingSlash(s: string): (r: string)
    ensures EndsWithSlash(r)
    ensures EndsWithSlash(s) ==> r == s
    ensures r == s || r == s + "/"
  {
    if EndsWithSlash(s) then s else s + "/"
  }

  /** `v.to_i if ! v.nil?`. */
  function OptionalInt(v: Value): (r: Result<Option<int>>)
    ensures v.Nil? ==> r == Ok(None)
    ensures v.Int? ==> r == Ok(Some(v.i))
    ensures v.Str? ==> r == Ok(Some(StrToI(v.s)))
  {
    if v.Nil? then Ok(None)
    else
      var i :- ToI(v);
      Ok(Some(i))
  }

  /** `Authority#initialize` on a symbol-keyed option hash. */
  function Configure(params: Pairs<Key, Value>): (r: Result<Config>)
    ensures r.Ok? ==> EndsWithSlash(r.value.apiBase)
    ensures r.Ok? ==> (r.value.roomId.None? <==> Get(params, SymKey("room_id")).Nil?)
    ensures r.Ok? ==> (r.value.groupId.None? <==> Get(params, SymKey("group_id")).Nil?)
    ensures r.Ok? && Get(params, SymKey("room_id")).Int? ==> r.value.roomId == Some(Get(params, SymKey("room_id")).i)
    ensures r.Ok? && Get(params, SymKey("group_id")).Int? ==> r.value.groupId == Some(Get(params, SymKey("group_id")).i)
    ensures r.Ok? ==>
              && r.value.oauthId == Get(params, SymKey("oauth_id"))
              && r.value.oauthSecret == Get(params, SymKey("oauth_secret"))
              && r.value.authorizationUrl == Get(params, SymKey("authorization_url"))
              && r.value.tokenUrl == Get(params, SymKey("token_url"))
    ensures r.Ok? && Get(params, SymKey("room_id")).Str? ==>
              r.value.roomId == Some(StrToI(Get(params, SymKey("room_id")).s))
    ensures r.Ok? && Get(params, SymKey("group_id")).Str? ==>
              r.value.groupId == Some(StrToI(Get(params, SymKey("group_id")).s))
    ensures r.Ok? && Get(params, SymKey("api_base")).Str? ==>
              r.value.apiBase == WithTrailingSlash(Get(params, SymKey("api_base")).s)
    ensures r.Ok? && Get(params, SymKey("api_base")).Nil? ==> r.value.apiBase == "/"
    ensures r.Err? <==> ToI(Get(params, SymKey("room_id"))).Err? || ToI(Get(params, SymKey("group_id"))).Err?
                        || ToS(Get(params, SymKey("api_base"))).Err?
    ensures r.Ok? ==>
              && r.value.roomId == OptionalInt(Get(params, SymKey("room_id"))).value
              && r.value.groupId == OptionalInt(Get(params, SymKey("group_id"))).value
              && r.value.apiBase == WithTrailingSlash(ToS(Get(params, SymKey("api_base"))).value)
  {
    var roomId :- OptionalInt(Get(params, SymKey("room_id")));
    var groupId :- OptionalInt(Get(params, SymKey("group_id")));
    var apiBase :- ToS(Get(params, SymKey("api_base")));
    Ok(Config(
      Get(params, SymKey("oauth_id")), Get(params, SymKey("oauth_secret")),
      Get(params, SymKey("authorization_url")), Get(params, SymKey("token_url")),
      roomId, groupId, WithTrailingSlash(apiBase)))
  }

  function OptionalIntValue(o: Option<int>): Value
  {
    match o
    case None => Nil
    case Some(i) => Int(i)
  }

  /** `as_hash`: the settings as the option hash `Authority.new` accepts. */
  function SettingsHash(c: Config): Pairs<Key, Value>
  {
    [ (SymKey("oauth_id"), c.oauthId),
      (SymKey("oauth_secret"), c.oauthSecret),
      (SymKey("authorization_url"), c.authorizationUrl),
      (SymKey("token_url"), c.tokenUrl),
      (SymKey("room_id"), OptionalIntValue(c.roomId)),
      (SymKey("group_id"), OptionalIntValue(c.groupId)),
      (SymKey("api_base"), Str(c.apiBase)) ]
  }

  /** Rebuilding an authority from its `as_hash` (as a persistent store does) gives back the same settings. */
  lemma ConfigureAsHash(c: Config)
    requires EndsWithSlash(c.apiBase)
    ensures Configure(SettingsHash(c)) == Ok(c)
  {
    var h := SettingsHash(c);
    assert DistinctKeys(h);
    FindDistinct(h, 0);
    FindDistinct(h, 1);
    FindDistinct(h, 2);
    FindDistinct(h, 3);
    FindDistinct(h, 4);
    FindDistinct(h, 5);
    FindDistinct(h, 6);
  }

  // ---------------------------------------------------------------------
  // Tokens

  /** An OAuth2 access token and the time (in seconds) it expires at, when it has one. */
  datatype Token = Token(value: string, expiresAt: Option<int>)

  /** A token expires once its expiry time is reached; one without an expiry never does. */
  predicate Expired(t: Token, now: int)
  {
    t.expiresAt.Some? && t.expiresAt.value <= now
  }

  predicate NeedsFetch(cached: Option<Token>, now: int)
  {
    cached.None? || Expired(cached.value, now)
  }

  /** The scopes every client-credentials token request asks for. */
  const TokenScope := "send_notification send_message admin_room view_group"

  /** A client-credentials grant request, as the OAuth2 client would issue it. */
  datatype TokenRequest = TokenRequest(
    clientId: Value, clientSecret: Value, authorizeUrl: Value, tokenUrl: Value, scope: string)

  function TokenRequestOf(c: Config): (t: TokenRequest)
    ensures t.scope == TokenScope && t.clientId == c.oauthId && t.tokenUrl == c.tokenUrl
  {
    TokenRequest(c.oauthId, c.oauthSecret, c.authorizationUrl, c.tokenUrl, TokenScope)
  }

  // ---------------------------------------------------------------------
  // Requests

  datatype HttpMethod = HttpGet | HttpPost | HttpPut | HttpDelete

  /** The request handed to the transport. */
  datatype Request = Request(
    verb: HttpMethod,
    path: string,
    query: Pairs<Key, Value>,
    contentType: string,
    contentLength: Option<nat>,
    body: Option<seq<Byte>>)

  /** A response: its media type (when the server sent one) and its body. */
  datatype Response = Response(contentType: Option<string>, body: seq<Byte>)

  /**
   * The outside world for one call: the clock, the token endpoint and the
   * transport (each told how many times it was used before), and JSON.
   */
  datatype Env = Env(
    now: int,
    tokenServer: (TokenRequest, nat) -> Result<Token>,
    http: (Request, nat) -> Result<Response>,
    generateJson: Pairs<Key, Value> -> seq<Byte>,
    parseJson: seq<Byte> -> Result<Value>)

  /** A resolved target: its path and the decoded name/value pairs of its query. */
  datatype Uri = Uri(path: string, query: seq<(string, string)>)

  /** The arguments of `call_api`. */
  datatype ApiCall = ApiCall(verb: string, uri: Uri, queryParams: Option<Pairs<Key, Value>>, bodyParams: Option<Pairs<Key, Value>>)

  const AuthTokenKey := SymKey("auth_token")

  const JsonContentType := "application/json; charset=UTF-8"

  /** The path's own query pairs, with their names turned into symbols. */
  function Symbolize(q: seq<(string, string)>): (r: Pairs<Key, Value>)
    ensures |r| == |q|
    ensures forall i :: 0 <= i < |q| ==> r[i] == (SymKey(q[i].0), Str(q[i].1))
  {
    if q == [] then [] else [(SymKey(q[0].0), Str(q[0].1))] + Symbolize(q[1..])
  }

  /** The query of a call: the path's pairs, merged with the caller's, then the access token. */
  function BuildQuery(pathQuery: seq<(string, string)>, queryParams: Option<Pairs<Key, Value>>, token: string): Pairs<Key, Value>
  {
    var caller := if queryParams.Some? then queryParams.value else [];
    Put(Merge(FromPairs(Symbolize(pathQuery)), caller), AuthTokenKey, Str(token))
  }

  /**
   * The query carries the token under `auth_token`, names no key twice, and
   * for every other key answers the caller's value when the caller gave one,
   * else the path's. Unless the caller or the path already had `auth_token`,
   * the token is the last pair.
   */
  lemma BuildQueryProperties(pathQuery: seq<(string, string)>, queryParams: Option<Pairs<Key, Value>>, token: string)
    requires queryParams.Some? ==> DistinctKeys(queryParams.value)
    ensures var q := BuildQuery(pathQuery, queryParams, token);
      && DistinctKeys(q)
      && Find(q, AuthTokenKey) == Some(Str(token))
      && (forall k :: k != AuthTokenKey ==>
            Find(q, k) == (if queryParams.Some? && Find(queryParams.value, k).Some? then Find(queryParams.value, k)
                           else Find(FromPairs(Symbolize(pathQuery)), k)))
      && (AuthTokenKey !in KeySet(Symbolize(pathQuery)) && (queryParams.Some? ==> AuthTokenKey !in KeySet(queryParams.value)) ==>
            q[|q| - 1] == (AuthTokenKey, Str(token)))
  {
    var caller := if queryParams.Some? then queryParams.value else [];
    var base := FromPairs(Symbolize(pathQuery));
    var merged := Merge(base, caller);
    FromPairsShape(Symbolize(pathQuery));
    MergeDistinct(base, caller);
    PutShape(merged, AuthTokenKey, Str(token));
    forall k ensures Find(Put(merged, AuthTokenKey, Str(token)), k) == (if k == AuthTokenKey then Some(Str(token)) else Find(merged, k)) {
      FindPut(merged, AuthTokenKey, Str(token), k);
    }
    forall k ensures Find(merged, k) == (if Find(caller, k).Some? then Find(caller, k) else Find(base, k)) {
      FindMerge(base, caller, k);
    }
  }

  /** ASCII `downcase`: A-Z become a-z, every other character stays. */
  function LowerChar(c: char): char
  {
    if 'A' <= c <= 'Z' then (c as int + 32) as char else c
  }

  function Downcase(s: string): (r: string)
    ensures |r| == |s|
    ensures forall i :: 0 <= i < |s| ==> r[i] == LowerChar(s[i])
  {
    if s == [] then [] else [LowerChar(s[0])] + Downcase(s[1..])
  }

  /** `args[:method].to_s.downcase` matched against the four verbs; anything else raises. */
  function MethodFor(name: string): (r: Result<HttpMethod>)
    ensures r.Err? ==> r.error == RuntimeError("unhandled exception")
    ensures name == "get" ==> r == Ok(HttpGet)
    ensures name == "post" ==> r == Ok(HttpPost)
    ensures name == "put" ==> r == Ok(HttpPut)
    ensures name == "delete" ==> r == Ok(HttpDelete)
    ensures r.Ok? <==> Downcase(name) in {"get", "post", "put", "delete"}
    ensures Downcase(name) == "get" ==> r == Ok(HttpGet)
    ensures Downcase(name) == "post" ==> r == Ok(HttpPost)
    ensures Downcase(name) == "put" ==> r == Ok(HttpPut)
    ensures Downcase(name) == "delete" ==> r == Ok(HttpDelete)
  {
    var m := Downcase(name);
    assert name == "get" ==> m == "get";
    assert name == "post" ==> m == "post";
    assert name == "put" ==> m == "put";
    assert name == "delete" ==> m == "delete";
    if m == "get" then Ok(HttpGet)
    else if m == "post" then Ok(HttpPost)
    else if m == "put" then Ok(HttpPut)
    else if m == "delete" then Ok(HttpDelete)
    else Err(RuntimeError("unhandled exception"))
  }

  /** Lower-casing twice changes nothing more. */
  lemma DowncaseIdempotent(s: string)
    ensures Downcase(Downcase(s)) == Downcase(s)
  {
    var d := Downcase(s);
    assert forall i :: 0 <= i < |d| ==> Downcase(d)[i] == LowerChar(LowerChar(s[i]));
  }

  /** The method name is matched without regard to ASCII case: "GET", "Get" and "get" are one verb. */
  lemma MethodForFoldsCase(name: string)
    ensures MethodFor(name) == MethodFor(Downcase(name))
  {
    DowncaseIdempotent(name);
  }

  /** Upper-case spellings of the four verbs are accepted. */
  lemma MethodForUpperCase()
    ensures MethodFor("GET") == Ok(HttpGet)
    ensures MethodFor("DELETE") == Ok(HttpDelete)
  {
    var g := Downcase("GET");
    assert g[0] == 'g' && g[1] == 'e' && g[2] == 't';
    assert g == "get";
    var d := Downcase("DELETE");
    assert d[0] == 'd' && d[1] == 'e' && d[2] == 'l' && d[3] == 'e' && d[4] == 't' && d[5] == 'e';
    assert d == "delete";
  }

  /** The request `call_api` hands to the transport once it holds a token. */
  function BuildRequest(call: ApiCall, token: string, generateJson: Pairs<Key, Value> -> seq<Byte>): (r: Result<Request>)
    ensures r.Ok? ==> MethodFor(call.verb).Ok? && r.value.verb == MethodFor(call.verb).value
    ensures r.Ok? ==> r.value.path == call.uri.path && r.value.contentType == JsonContentType
    ensures r.Ok? ==> r.value.query == BuildQuery(call.uri.query, call.queryParams, token)
    ensures r.Ok? ==> (r.value.contentLength.Some? <==> call.bodyParams.Some?)
    ensures r.Ok? && call.bodyParams.Some? ==>
              r.value.body == Some(generateJson(call.bodyParams.value)) && r.value.contentLength == Some(|r.value.body.value|)
    ensures r.Err? <==> MethodFor(call.verb).Err?
  {
    var query := BuildQuery(call.uri.query, call.queryParams, token);
    var body := if call.bodyParams.Some? then Some(generateJson(call.bodyParams.value)) else None;
    var verb :- MethodFor(call.verb);
    Ok(Request(verb, call.uri.path, query, JsonContentType,
               if body.Some? then Some(|body.value|) else None, body))
  }

  predicate StartsWith(s: string, prefix: string)
  {
    |prefix| <= |s| && s[..|prefix|] == prefix
  }

  /** A JSON response is decoded; any other (or no) media type yields an empty hash. */
  function DecodeResponse(resp: Response, parseJson: seq<Byte> -> Result<Value>): (r: Result<Value>)
    ensures !(resp.contentType.Some? && StartsWith(resp.contentType.value, "application/json")) ==> r == Ok(Hash(map[]))
    ensures resp.contentType.Some? && StartsWith(resp.contentType.value, "application/json") ==> r == parseJson(resp.body)
  {
    if resp.contentType.Some? && StartsWith(resp.contentType.value, "application/json")
    then parseJson(resp.body)
    else Ok(Hash(map[]))
  }

  // ---------------------------------------------------------------------
  // The client's evolving state, as a value

  datatype ClientState = ClientState(token: Option<Token>, fetches: nat, sent: seq<Request>)

  datatype TokenOutcome = TokenOutcome(cached: Option<Token>, fetches: nat, token: Result<string>)

  /** The `token` method: reuse the cached token unless it is missing or expired, else fetch one. */
  function TokenStep(req: TokenRequest, cached: Option<Token>, fetches: nat, env: Env): (o: TokenOutcome)
    ensures NeedsFetch(cached, env.now) <==> o.fetches == fetches + 1
    ensures !NeedsFetch(cached, env.now) ==> o.fetches == fetches && o.cached == cached && o.token == Ok(cached.value.value)
    ensures o.token.Ok? ==> o.cached.Some? && o.token.value == o.cached.value.value
    ensures o.token.Err? ==> o.cached == cached
    ensures NeedsFetch(cached, env.now) && env.tokenServer(req, fetches).Ok? ==>
              && o.cached == Some(env.tokenServer(req, fetches).value)
              && o.token == Ok(env.tokenServer(req, fetches).value.value)
    ensures NeedsFetch(cached, env.now) && env.tokenServer(req, fetches).Err? ==>
              o.token == Err(env.tokenServer(req, fetches).error)
  {
    if NeedsFetch(cached, env.now) then
      match env.tokenServer(req, fetches)
      case Ok(t) => TokenOutcome(Some(t), fetches + 1, Ok(t.value))
      case Err(e) => TokenOutcome(cached, fetches + 1, Err(e))
    else TokenOutcome(cached, fetches, Ok(cached.value.value))
  }

  /**
   * Two token lookups in a row fetch at most once: when the first one
   * leaves a token that is still valid at the time of the second, the second
   * reuses it. A lookup made after expiry fetches exactly once.
   */
  lemma TwoLookupsFetchAtMostOnce(req: TokenRequest, cached: Option<Token>, fetches: nat, env1: Env, env2: Env)
    requires TokenStep(req, cached, fetches, env1).token.Ok?
    requires !Expired(TokenStep(req, cached, fetches, env1).cached.value, env2.now)
    ensures var o1 := TokenStep(req, cached, fetches, env1);
            var o2 := TokenStep(req, o1.cached, o1.fetches, env2);
            && o2.token == o1.token
            && o2.fetches == fetches + (if NeedsFetch(cached, env1.now) then 1 else 0)
  {
  }

  /** The request and the result of `call_api` once the token lookup is done. */
  function CallOutcome(call: ApiCall, token: Result<string>, env: Env, n: nat): (Option<Request>, Result<Value>)
  {
    match token
    case Err(e) => (None, Err(e))
    case Ok(t) =>
      match BuildRequest(call, t, env.generateJson)
      case Err(e) => (None, Err(e))
      case Ok(req) =>
        (Some(req), match env.http(req, n)
                    case Err(e) => Err(e)
                    case Ok(resp) => DecodeResponse(resp, env.parseJson))
  }

  /** `call_api` on the client state: look up the token, build and send the request, decode. */
  function Perform(c: Config, s: ClientState, call: ApiCall, env: Env): (ClientState, Result<Value>)
  {
    var t := TokenStep(TokenRequestOf(c), s.token, s.fetches, env);
    var (req, r) := CallOutcome(call, t.token, env, |s.sent|);
    (ClientState(t.cached, t.fetches, if req.Some? then s.sent + [req.value] else s.sent), r)
  }

  /**
   * What `call_api` sends: at most one request, and only once a token is
   * held; it goes to the call's path, carries that token as `auth_token` in a
   * query without repeated keys, and has a content length exactly when the
   * call has body parameters. An unknown method sends nothing. The answer
   * is the transport's error, or the response decoded by its media type
   * alone (the HTTP status is never looked at): anything but JSON gives `{}`.
   */
  lemma PerformSends(c: Config, s: ClientState, call: ApiCall, env: Env)
    requires call.queryParams.Some? ==> DistinctKeys(call.queryParams.value)
    ensures var (s', r) := Perform(c, s, call, env);
      && (s'.sent == s.sent || (|s'.sent| == |s.sent| + 1 && s'.sent[..|s.sent|] == s.sent))
      && (MethodFor(call.verb).Err? ==> s'.sent == s.sent && r.Err?)
      && (|s'.sent| == |s.sent| + 1 ==>
            var req := s'.sent[|s.sent|];
            && s'.token.Some?
            && req.path == call.uri.path
            && DistinctKeys(req.query)
            && Find(req.query, AuthTokenKey) == Some(Str(s'.token.value.value))
            && (req.contentLength.Some? <==> call.bodyParams.Some?))
    ensures var (s', r) := Perform(c, s, call, env);
            var t := TokenStep(TokenRequestOf(c), s.token, s.fetches, env);
      && (t.token.Err? ==> s'.sent == s.sent && r == Err(t.token.error))
      && (t.token.Ok? && MethodFor(call.verb).Ok? ==>
            && s'.sent == s.sent + [BuildRequest(call, t.token.value, env.generateJson).value]
            && s'.sent[|s.sent|].verb == MethodFor(call.verb).value
            && s'.token.value.value == t.token.value)
    ensures var (s', r) := Perform(c, s, call, env);
            var t := TokenStep(TokenRequestOf(c), s.token, s.fetches, env);
      && (t.token.Ok? && MethodFor(call.verb).Err? ==> r == Err(MethodFor(call.verb).error))
      && (t.token.Ok? && MethodFor(call.verb).Ok? ==>
            var req := BuildRequest(call, t.token.value, env.generateJson).value;
            var answer := env.http(req, |s.sent|);
            && (answer.Err? ==> r == Err(answer.error))
            && (answer.Ok? ==> r == DecodeResponse(answer.value, env.parseJson))
            && (answer.Ok? && !(answer.value.contentType.Some? &&
                                StartsWith(answer.value.contentType.value, "application/json")) ==>
                  r == Ok(Hash(map[]))))
  {
    var t := TokenStep(TokenRequestOf(c), s.token, s.fetches, env);
    if t.token.Ok? {
      BuildQueryProperties(call.uri.query, call.queryParams, t.token.value);
    }
  }

  // ---------------------------------------------------------------------
  // The API operations

  datatype Api =
    | SendNotification | ReplyMessage
    | GetAllRooms | GetRoom | GetAllMembers | GetAllParticipants
    | AddMember | RemoveMember

  const RoomIdKey := SymKey("room_id")
  const UserIdKey := SymKey("user_id")
  const UserMentionKey := SymKey("user_mention")
  const UserEmailKey := SymKey("user_email")

  const RoomIdRequired := "room_id required"
  const UserRequired := "user_id or user_mention or user_email required"

  /** `user_name_from_params` on the three values it deletes: id, else "@" + mention, else email, else nil. */
  function UserNameOf(id: Value, mention: Value, email: Value): Result<Value>
  {
    if Truthy(id) then Ok(id)
    else if Truthy(mention) then
      if mention.Str? then Ok(Str("@" + mention.s)) else Err(TypeError("no implicit conversion into String"))
    else if Truthy(email) then Ok(email)
    else Ok(Nil)
  }

  /** The member segment of a membership path, or why there is none. */
  function MemberSegment(id: Value, mention: Value, email: Value): Result<string>
  {
    var name :- UserNameOf(id, mention, email);
    if !Truthy(name) then Err(ArgumentError(UserRequired)) else ToS(name)
  }

  /**
   * The user identity is the id when given, else the mention handle after
   * an '@', else the e-mail address; with none of them the call fails.
   */
  lemma MemberSegmentCases(id: Value, mention: Value, email: Value)
    ensures Truthy(id) && id.Str? ==> MemberSegment(id, mention, email) == Ok(id.s)
    ensures Truthy(id) && id.Int? ==> MemberSegment(id, mention, email) == Ok(IntToString(id.i))
    ensures !Truthy(id) && mention.Str? ==> MemberSegment(id, mention, email) == Ok("@" + mention.s)
    ensures !Truthy(id) && !Truthy(mention) && email.Str? ==> MemberSegment(id, mention, email) == Ok(email.s)
    ensures MemberSegment(id, mention, email) == Err(ArgumentError(UserRequired)) <==>
              !Truthy(id) && !Truthy(mention) && !Truthy(email)
  {
  }

  /** The room id the call uses: the bound one, else the caller's `:room_id`. */
  function RoomChoice(c: Config, p: Pairs<Key, Value>): Value
  {
    if c.roomId.Some? then Int(c.roomId.value) else Get(p, RoomIdKey)
  }

  /** The caller's hash once the room id is chosen: `:room_id` is deleted only when it was used. */
  function AfterRoom(c: Config, p: Pairs<Key, Value>): Pairs<Key, Value>
  {
    if c.roomId.Some? then p else Deleted(p, RoomIdKey)
  }

  function AfterUser(p: Pairs<Key, Value>): Pairs<Key, Value>
  {
    Deleted(Deleted(Deleted(p, UserIdKey), UserMentionKey), UserEmailKey)
  }

  /** The path below `room/<id>` of each room operation. */
  function RoomSuffix(api: Api): string
  {
    match api
    case SendNotification => "/notification"
    case ReplyMessage => "/reply"
    case GetRoom => ""
    case GetAllMembers => "/member"
    case GetAllParticipants => "/participant"
    case _ => "/member/"
  }

  function IsGetApi(api: Api): bool
  {
    api.GetAllRooms? || api.GetRoom? || api.GetAllMembers? || api.GetAllParticipants?
  }

  function Verb(api: Api): string
  {
    match api
    case SendNotification => "post"
    case ReplyMessage => "post"
    case AddMember => "put"
    case RemoveMember => "delete"
    case _ => "get"
  }

  /** The call an operation makes once its room (and member) are resolved: GETs send what is left as the query, the rest as the body. */
  function CallFor(api: Api, c: Config, path: string, rest: Pairs<Key, Value>): ApiCall
  {
    if IsGetApi(api) then ApiCall(Verb(api), Uri(c.apiBase + path, []), Some(rest), None)
    else ApiCall(Verb(api), Uri(c.apiBase + path, []), None, Some(rest))
  }

  /**
   * What an operation does before `call_api`: the caller's hash as it is
   * left, and the call to make or the error raised.
   */
  function Plan(api: Api, c: Config, p: Pairs<Key, Value>): (Pairs<Key, Value>, Result<ApiCall>)
  {
    if api.GetAllRooms? then (p, Ok(CallFor(api, c, "room", p)))
    else
      var room := RoomChoice(c, p);
      var afterRoom := AfterRoom(c, p);
      if !Truthy(room) then (afterRoom, Err(ArgumentError(RoomIdRequired)))
      else if api.AddMember? || api.RemoveMember? then
        var rest := AfterUser(afterRoom);
        var name := UserNameOf(Get(afterRoom, UserIdKey), Get(afterRoom, UserMentionKey), Get(afterRoom, UserEmailKey));
        if name.Err? then (rest, Err(name.error))
        else if !Truthy(name.value) then (rest, Err(ArgumentError(UserRequired)))
        else match (ToS(room), ToS(name.value))
          case (Ok(r), Ok(n)) => (rest, Ok(CallFor(api, c, "room/" + r + RoomSuffix(api) + n, rest)))
          case (Err(e), _) => (rest, Err(e))
          case (_, Err(e)) => (rest, Err(e))
      else match ToS(room)
        case Ok(r) => (afterRoom, Ok(CallFor(api, c, "room/" + r + RoomSuffix(api), afterRoom)))
        case Err(e) => (afterRoom, Err(e))
  }

  /**
   * The HTTP method of each operation and where the caller's remaining
   * parameters travel: notifications and replies POST, adding a member PUTs,
   * removing one DELETEs, and the four reads GET with the parameters as the
   * query string; every path is under the API base.
   */
  lemma PlanVerbs(api: Api, c: Config, p: Pairs<Key, Value>)
    requires Plan(api, c, p).1.Ok?
    ensures var call := Plan(api, c, p).1.value; var rest := Plan(api, c, p).0;
      && (api.SendNotification? || api.ReplyMessage? ==> MethodFor(call.verb) == Ok(HttpPost))
      && (api.AddMember? ==> MethodFor(call.verb) == Ok(HttpPut))
      && (api.RemoveMember? ==> MethodFor(call.verb) == Ok(HttpDelete))
      && (IsGetApi(api) ==> MethodFor(call.verb) == Ok(HttpGet) && call.queryParams == Some(rest) && call.bodyParams.None?)
      && (!IsGetApi(api) ==> call.bodyParams == Some(rest) && call.queryParams.None?)
      && |c.apiBase| <= |call.uri.path| && call.uri.path[..|c.apiBase|] == c.apiBase && call.uri.query == []
  {
  }

  /**
   * Room resolution, for every operation on a room: the bound room id wins
   * and leaves the caller's `:room_id` in place (to travel on in the body or
   * query); otherwise the caller's `:room_id` is taken out and used; with
   * neither the call fails with "room_id required" before any token or request.
   */
  lemma PlanRoom(api: Api, c: Config, p: Pairs<Key, Value>)
    requires !api.GetAllRooms?
    ensures c.roomId.Some? && !(api.AddMember? || api.RemoveMember?) ==>
              Plan(api, c, p) == (p, Ok(CallFor(api, c, "room/" + IntToString(c.roomId.value) + RoomSuffix(api), p)))
    ensures c.roomId.None? && Get(p, RoomIdKey).Str? && !(api.AddMember? || api.RemoveMember?) ==>
              Plan(api, c, p) == (Deleted(p, RoomIdKey), Ok(CallFor(api, c, "room/" + Get(p, RoomIdKey).s + RoomSuffix(api), Deleted(p, RoomIdKey))))
    ensures c.roomId.None? && !Truthy(Get(p, RoomIdKey)) ==>
              Plan(api, c, p) == (Deleted(p, RoomIdKey), Err(ArgumentError(RoomIdRequired)))
  {
  }

  /**
   * Membership calls: the member segment is the resolved identity, and the
   * three identity keys are removed from what travels in the body.
   */
  lemma PlanMember(api: Api, c: Config, p: Pairs<Key, Value>)
    requires api.AddMember? || api.RemoveMember?
    requires RoomChoice(c, p).Str? || RoomChoice(c, p).Int?
    ensures var q := AfterRoom(c, p);
            var seg := MemberSegment(Get(q, UserIdKey), Get(q, UserMentionKey), Get(q, UserEmailKey));
            && Plan(api, c, p).0 == AfterUser(q)
            && (seg.Ok? ==> Plan(api, c, p).1 == Ok(CallFor(api, c, "room/" + ToS(RoomChoice(c, p)).value + "/member/" + seg.value, AfterUser(q))))
            && (seg.Err? ==> Plan(api, c, p).1 == Err(seg.error))
            && Find(AfterUser(q), UserIdKey).None? && Find(AfterUser(q), UserMentionKey).None? && Find(AfterUser(q), UserEmailKey).None?
  {
    var q := AfterRoom(c, p);
    FindDelete(q, UserIdKey, UserIdKey);
    FindDelete(Deleted(q, UserIdKey), UserMentionKey, UserIdKey);
    FindDelete(Deleted(Deleted(q, UserIdKey), UserMentionKey), UserEmailKey, UserIdKey);
    FindDelete(Deleted(q, UserIdKey), UserMentionKey, UserMentionKey);
    FindDelete(Deleted(Deleted(q, UserIdKey), UserMentionKey), UserEmailKey, UserMentionKey);
    FindDelete(Deleted(Deleted(q, UserIdKey), UserMentionKey), UserEmailKey, UserEmailKey);
  }

  /** An operation on the client state: plan it, then (when planning succeeds) perform the call. */
  function Invoke(c: Config, s: ClientState, api: Api, p: Pairs<Key, Value>, env: Env): (ClientState, Pairs<Key, Value>, Result<Value>)
  {
    var (rest, call) := Plan(api, c, p);
    match call
    case Err(e) => (s, rest, Err(e))
    case Ok(cl) => var (s', r) := Perform(c, s, cl, env); (s', rest, r)
  }

  /**
   * A caller error (missing room or user, or an identity that is not text)
   * is raised before the token is looked up: no token fetch, no request.
   */
  lemma InvokeFailsEarly(c: Config, s: ClientState, api: Api, p: Pairs<Key, Value>, env: Env)
    requires Plan(api, c, p).1.Err?
    ensures Invoke(c, s, api, p, env).0 == s
    ensures Invoke(c, s, api, p, env).2 == Plan(api, c, p).1.PropagateFailure()
  {
  }

  // ---------------------------------------------------------------------
  // The client object

  class Authority {
    const cfg: Config
    var token: Option<Token>
    var tokenFetches: nat
    var sent: seq<Request>

    ghost predicate Valid()
      reads this
    {
      EndsWithSlash(cfg.apiBase)
    }

    function Snapshot(): ClientState
      reads this
    {
      ClientState(token, tokenFetches, sent)
    }

    constructor (cfg: Config)
      requires EndsWithSlash(cfg.apiBase)
      ensures Valid() && this.cfg == cfg
      ensures token == None && tokenFetches == 0 && sent == []
    {
      this.cfg := cfg;
      token := None;
      tokenFetches := 0;
      sent := [];
    }

    /** `Authority.new(params)`: raises when a room or group id or the api base cannot be converted. */
    static method New(params: Pairs<Key, Value>) returns (r: Result<Authority>)
      ensures Configure(params).Err? ==> r == Err(Configure(params).error)
      ensures Configure(params).Ok? ==>
                && r.Ok? && fresh(r.value) && r.value.Valid() && r.value.cfg == Configure(params).value
                && r.value.token == None && r.value.tokenFetches == 0 && r.value.sent == []
      ensures Configure(params).Ok? ==>
                && (r.value.IsGlobal() <==> Get(params, SymKey("room_id")).Nil?)
                && (r.value.IsRoom() <==> !Get(params, SymKey("room_id")).Nil?)
    {
      var c := Configure(params);
      if c.Err? {
        return Err(c.error);
      }
      var a := new Authority(c.value);
      r := Ok(a);
    }

    function OAuthId(): Value { cfg.oauthId }

    function RoomId(): Option<int> { cfg.roomId }

    function GroupId(): Option<int> { cfg.groupId }

    /** `global?`: no room is bound. */
    predicate IsGlobal() { cfg.roomId.None? }

    /** `room?`: a room is bound. */
    predicate IsRoom()
      ensures IsRoom() <==> !IsGlobal()
    {
      !IsGlobal()
    }

    function AsHash(): Pairs<Key, Value> { SettingsHash(cfg) }

    /** `token`: the cached token, refetched when missing or expired. */
    method AccessToken(env: Env) returns (r: Result<string>)
      modifies this`token, this`tokenFetches
      ensures TokenOutcome(token, tokenFetches, r) == TokenStep(TokenRequestOf(cfg), old(token), old(tokenFetches), env)
    {
      if token.None? || Expired(token.value, env.now) {
        var fetched := env.tokenServer(TokenRequestOf(cfg), tokenFetches);
        tokenFetches := tokenFetches + 1;
        if fetched.Err? {
          return Err(fetched.error);
        }
        token := Some(fetched.value);
      }
      r := Ok(token.value.value);
    }

    /** `call_api`. */
    method CallApi(call: ApiCall, env: Env) returns (r: Result<Value>)
      requires Valid()
      modifies this`token, this`tokenFetches, this`sent
      ensures Valid()
      ensures (Snapshot(), r) == Perform(cfg, old(Snapshot()), call, env)
    {
      var t := AccessToken(env);
      if t.Err? {
        return Err(t.error);
      }
      var req := BuildRequest(call, t.value, env.generateJson);
      if req.Err? {
        return Err(req.error);
      }
      var n := |sent|;
      sent := sent + [req.value];
      var resp := env.http(req.value, n);
      if resp.Err? {
        return Err(resp.error);
      }
      r := DecodeResponse(resp.value, env.parseJson);
    }

    /** `self.room_id || params.delete(:room_id)`, required to be truthy. */
    method ResolveRoomId(params: ParamHash) returns (r: Result<Value>)
      requires params.Valid()
      modifies params
      ensures params.Valid()
      ensures params.entries == AfterRoom(cfg, old(params.entries))
      ensures var room := RoomChoice(cfg, old(params.entries));
              r == if Truthy(room) then Ok(room) else Err(ArgumentError(RoomIdRequired))
    {
      var room: Value;
      if cfg.roomId.Some? {
        room := Int(cfg.roomId.value);
      } else {
        room := params.Delete(RoomIdKey);
      }
      if !Truthy(room) {
        return Err(ArgumentError(RoomIdRequired));
      }
      r := Ok(room);
    }

    /** `user_name_from_params`: deletes all three identity keys, then picks one. */
    method UserNameFromParams(params: ParamHash) returns (r: Result<Value>)
      requires params.Valid()
      modifies params
      ensures params.Valid()
      ensures params.entries == AfterUser(old(params.entries))
      ensures var p := old(params.entries);
              r == UserNameOf(Get(p, UserIdKey), Get(p, UserMentionKey), Get(p, UserEmailKey))
    {
      var p0 := params.entries;
      var userId := params.Delete(UserIdKey);
      var p1 := params.entries;
      var userMention := params.Delete(UserMentionKey);
      var userEmail := params.Delete(UserEmailKey);
      FindDelete(p0, UserIdKey, UserMentionKey);
      FindDelete(p0, UserIdKey, UserEmailKey);
      FindDelete(p1, UserMentionKey, UserEmailKey);
      if Truthy(userId) {
        return Ok(userId);
      }
      if Truthy(userMention) {
        if !userMention.Str? {
          return Err(TypeError("no implicit conversion into String"));
        }
        return Ok(Str("@" + userMention.s));
      }
      if Truthy(userEmail) {
        return Ok(userEmail);
      }
      r := Ok(Nil);
    }

    /** The shared body of the room operations without a member. */
    method RoomCall(api: Api, params: ParamHash, env: Env) returns (r: Result<Value>)
      requires Valid() && params.Valid()
      requires !api.GetAllRooms? && !api.AddMember? && !api.RemoveMember?
      modifies this`token, this`tokenFetches, this`sent, params
      ensures Valid() && params.Valid()
      ensures (Snapshot(), params.entries, r) == Invoke(cfg, old(Snapshot()), api, old(params.entries), env)
    {
      var room :- ResolveRoomId(params);
      var text :- ToS(room);
      r := CallApi(CallFor(api, cfg, "room/" + text + RoomSuffix(api), params.entries), env);
    }

    /** The shared body of add_member and remove_member. */
    method MemberCall(api: Api, params: ParamHash, env: Env) returns (r: Result<Value>)
      requires Valid() && params.Valid()
      requires api.AddMember? || api.RemoveMember?
      modifies this`token, this`tokenFetches, this`sent, params
      ensures Valid() && params.Valid()
      ensures (Snapshot(), params.entries, r) == Invoke(cfg, old(Snapshot()), api, old(params.entries), env)
    {
      var room :- ResolveRoomId(params);
      var name :- UserNameFromParams(params);
      if !Truthy(name) {
        return Err(ArgumentError(UserRequired));
      }
      var roomText :- ToS(room);
      var nameText :- ToS(name);
      r := CallApi(CallFor(api, cfg, "room/" + roomText + RoomSuffix(api) + nameText, params.entries), env);
    }

    /** `send_notification`: POST room/<id>/notification with what is left as the body. */
    method SendNotification(params: ParamHash, env: Env) returns (r: Result<Value>)
      requires Valid() && params.Valid()
      modifies this`token, this`tokenFetches, this`sent, params
      ensures Valid() && params.Valid()
      ensures (Snapshot(), params.entries, r) == Invoke(cfg, old(Snapshot()), Api.SendNotification, old(params.entries), env)
    {
      r := RoomCall(Api.SendNotification, params, env);
    }

    /** `reply_message`: POST room/<id>/reply. */
    method ReplyMessage(params: ParamHash, env: Env) returns (r: Result<Value>)
      requires Valid() && params.Valid()
      modifies this`token, this`tokenFetches, this`sent, params
      ensures Valid() && params.Valid()
      ensures (Snapshot(), params.entries, r) == Invoke(cfg, old(Snapshot()), Api.ReplyMessage, old(params.entries), env)
    {
      r := RoomCall(Api.ReplyMessage, params, env);
    }

    /** `get_all_rooms`: GET room with the caller's hash as the query; the hash is not edited. */
    method GetAllRooms(params: ParamHash, env: Env) returns (r: Result<Atom.Rooms>)
      requires Valid() && params.Valid()
      modifies this`token, this`tokenFetches, this`sent
      ensures Valid()
      ensures var (s, _, res) := Invoke(cfg, old(Snapshot()), Api.GetAllRooms, params.entries, env);
              Snapshot() == s && r == MapResult(res, (v: Value) => Atom.Rooms(v))
    {
      var res := CallApi(CallFor(Api.GetAllRooms, cfg, "room", params.entries), env);
      r := MapResult(res, (v: Value) => Atom.Rooms(v));
    }

    /** `get_room`: GET room/<id>, answered as a detailed room. */
    method GetRoom(params: ParamHash, env: Env) returns (r: Result<Atom.Room>)
      requires Valid() && params.Valid()
      modifies this`token, this`tokenFetches, this`sent, params
      ensures Valid() && params.Valid()
      ensures var (s, rest, res) := Invoke(cfg, old(Snapshot()), Api.GetRoom, old(params.entries), env);
              Snapshot() == s && params.entries == rest && r == MapResult(res, (v: Value) => Atom.Room(Atom.Detail, v))
    {
      var res := RoomCall(Api.GetRoom, params, env);
      r := MapResult(res, (v: Value) => Atom.Room(Atom.Detail, v));
    }

    /** `get_all_members`: GET room/<id>/member. */
    method GetAllMembers(params: ParamHash, env: Env) returns (r: Result<Atom.Users>)
      requires Valid() && params.Valid()
      modifies this`token, this`tokenFetches, this`sent, params
      ensures Valid() && params.Valid()
      ensures var (s, rest, res) := Invoke(cfg, old(Snapshot()), Api.GetAllMembers, old(params.entries), env);
              Snapshot() == s && params.entries == rest && r == MapResult(res, (v: Value) => Atom.Users(v))
    {
      var res := RoomCall(Api.GetAllMembers, params, env);
      r := MapResult(res, (v: Value) => Atom.Users(v));
    }

    /** `get_all_participants`: GET room/<id>/participant. */
    method GetAllParticipants(params: ParamHash, env: Env) returns (r: Result<Atom.Users>)
      requires Valid() && params.Valid()
      modifies this`token, this`tokenFetches, this`sent, params
      ensures Valid() && params.Valid()
      ensures var (s, rest, res) := Invoke(cfg, old(Snapshot()), Api.GetAllParticipants, old(params.entries), env);
              Snapshot() == s && params.entries == rest && r == MapResult(res, (v: Value) => Atom.Users(v))
    {
      var res := RoomCall(Api.GetAllParticipants, params, env);
      r := MapResult(res, (v: Value) => Atom.Users(v));
    }

    /** `add_member`: PUT room/<id>/member/<identity>. */
    method AddMember(params: ParamHash, env: Env) returns (r: Result<Value>)
      requires Valid() && params.Valid()
      modifies this`token, this`tokenFetches, this`sent, params
      ensures Valid() && params.Valid()
      ensures (Snapshot(), params.entries, r) == Invoke(cfg, old(Snapshot()), Api.AddMember, old(params.entries), env)
    {
      r := MemberCall(Api.AddMember, params, env);
    }

    /** `remove_member`: DELETE room/<id>/member/<identity>. */
    method RemoveMember(params: ParamHash, env: Env) returns (r: Result<Value>)
      requires Valid() && params.Valid()
      modifies this`token, this`tokenFetches, this`sent, params
      ensures Valid() && params.Valid()
      ensures (Snapshot(), params.entries, r) == Invoke(cfg, old(Snapshot()), Api.RemoveMember, old(params.entries), env)
    {
      r := MemberCall(Api.RemoveMember, params, env);
    }
  }
}
