/**
 * What both managers share: handlers and what they signal, the trace of a
 * dispatch, the order of categories an event fires, and the settings an
 * installation request yields.
 *
 * A handler is a Ruby block. The model knows it only by identity; what it
 * does when called is an oracle `run` that answers how the call ended:
 * normally, or by raising (a `break`, `next` or `return` out of a block
 * called after its defining method returned surfaces as a LocalJumpError).
 */
module Hooks {
  import opened Values
  import opened OrderedHash
  import Events
  import Authorities

  /** A registered block, known by its `object_id`. */
  datatype Block = Block(objectId: nat)

  /** How one handler call ended. */
  datatype Signal = Returned | Raised(error: Error)

  /** The argument handlers receive: per category in the current manager, a shared context in the older one. */
  datatype HookArg =
    | InstallArg(authority: Authorities.Authority)
    | UninstallArg(oauthId: Value)
    | EventArg(event: Events.Event)
    | Context(contextEvent: Events.Event?, contextAuthority: Authorities.Authority?)

  /** One handler call: the category it was registered under and the block. */
  datatype Call = Call(category: string, block: Block)

  /** The handler calls a dispatch made, in order, and the exception it ended with, if any. */
  datatype Dispatch = Dispatch(ran: seq<Call>, failure: Option<Error>)

  /** Run `a`, then `b` unless `a` raised. */
  function Then(a: Dispatch, b: Dispatch): (r: Dispatch)
    ensures a.failure.Some? ==> r == a
    ensures a.failure.None? ==> r.ran == a.ran + b.ran && r.failure == b.failure
  {
    if a.failure.Some? then a else Dispatch(a.ran + b.ran, b.failure)
  }

  const Nothing := Dispatch([], None)

  /** Sequencing dispatches is associative and `Nothing` is its unit. */
  lemma ThenLaws(a: Dispatch, b: Dispatch, c: Dispatch)
    ensures Then(Then(a, b), c) == Then(a, Then(b, c))
    ensures Then(a, Nothing) == a && Then(Nothing, a) == a
  {
    if a.failure.None? {
      assert a.ran + [] == a.ran;
      if b.failure.None? {
        assert (a.ran + b.ran) + c.ran == a.ran + (b.ran + c.ran);
      }
    }
    assert [] + a.ran == a.ran;
  }

  /** `break` out of a block. */
  predicate IsBreak(s: Signal)
  {
    s == Raised(LocalJumpError("break"))
  }

  /** The jumps the current dispatcher rescues: `break`, `next` and `return`. */
  predicate IsRescuedJump(s: Signal)
  {
    s.Raised? && s.error.LocalJumpError? && s.error.reason in {"break", "next", "return"}
  }

  /** A call after which the current dispatcher goes on with the same bucket. */
  predicate Continues(s: Signal)
  {
    s.Returned? || (IsRescuedJump(s) && !IsBreak(s))
  }

  function CallsOf(category: string, blocks: seq<Block>): (cs: seq<Call>)
    ensures |cs| == |blocks|
    ensures forall i :: 0 <= i < |blocks| ==> cs[i] == Call(category, blocks[i])
  {
    if blocks == [] then [] else [Call(category, blocks[0])] + CallsOf(category, blocks[1..])
  }

  lemma {:induction false} CallsOfAppend(category: string, a: seq<Block>, b: seq<Block>)
    ensures CallsOf(category, a + b) == CallsOf(category, a) + CallsOf(category, b)
  {
    if a != [] {
      assert (a + b)[1..] == a[1..] + b;
      CallsOfAppend(category, a[1..], b);
    }
  }

  // ---------------------------------------------------------------------
  // Event categories

  /** The hook categories `handle_event` fires for an event of class `c`, in order. */
  function EventCategories(c: Events.EventClass): seq<string>
  {
    ["event"] +
    if Events.IsMessaging(c) then
      ["room_messaging"] +
      (if c == Events.RoomMessage then ["room_message"]
       else if c == Events.RoomNotification then ["room_notification"]
       else [])
    else if Events.IsVisiting(c) then
      ["room_visiting"] +
      (if c == Events.RoomEnter then ["room_enter"]
       else if c == Events.RoomExit then ["room_exit"]
       else [])
    else []
  }

  /**
   * `event` always fires first; then the group's category, then the
   * event's own; a base event reaches only `event`, and no event reaches
   * `room_topic_change`.
   */
  lemma EventCategoriesOrder(c: Events.EventClass)
    ensures EventCategories(c)[0] == "event"
    ensures c == Events.Base ==> EventCategories(c) == ["event"]
    ensures c == Events.RoomMessage ==> EventCategories(c) == ["event", "room_messaging", "room_message"]
    ensures c == Events.RoomNotification ==> EventCategories(c) == ["event", "room_messaging", "room_notification"]
    ensures c == Events.RoomEnter ==> EventCategories(c) == ["event", "room_visiting", "room_enter"]
    ensures c == Events.RoomExit ==> EventCategories(c) == ["event", "room_visiting", "room_exit"]
    ensures "room_messaging" in EventCategories(c) <==> Events.IsMessaging(c)
    ensures "room_visiting" in EventCategories(c) <==> Events.IsVisiting(c)
    ensures "room_topic_change" !in EventCategories(c)
  {
  }

  // ---------------------------------------------------------------------
  // Installation

  /**
   * `build_authority` up to `Authority.new`: the option hash built from the
   * installation request and the capability document fetched from its
   * `capabilitiesUrl` (the fetch and its JSON decoding are the oracle `fetch`).
   */
  function InstallSettings(params: Value, fetch: Value -> Result<Value>): (r: Result<Pairs<Key, Value>>)
    ensures r.Ok? ==> DistinctKeys(r.value)
    ensures r.Ok? ==>
      && Index(params, StrKey("oauthId")) == Ok(Get(r.value, SymKey("oauth_id")))
      && Index(params, StrKey("oauthSecret")) == Ok(Get(r.value, SymKey("oauth_secret")))
      && Index(params, StrKey("roomId")) == Ok(Get(r.value, SymKey("room_id")))
      && Index(params, StrKey("groupId")) == Ok(Get(r.value, SymKey("group_id")))
  {
    var url :- Index(params, StrKey("capabilitiesUrl"));
    var cap :- fetch(url);
    var oauth2 :- Index2(cap, StrKey("capabilities"), StrKey("oauth2Provider"));
    var apiBase :- Index2(cap, StrKey("links"), StrKey("api"));
    var oauthId :- Index(params, StrKey("oauthId"));
    var oauthSecret :- Index(params, StrKey("oauthSecret"));
    var roomId :- Index(params, StrKey("roomId"));
    var groupId :- Index(params, StrKey("groupId"));
    var authorizationUrl :- Index(oauth2, StrKey("authorizationUrl"));
    var tokenUrl :- Index(oauth2, StrKey("tokenUrl"));
    var h := [
      (SymKey("oauth_id"), oauthId),
      (SymKey("oauth_secret"), oauthSecret),
      (SymKey("room_id"), roomId),
      (SymKey("group_id"), groupId),
      (SymKey("authorization_url"), authorizationUrl),
      (SymKey("token_url"), tokenUrl),
      (SymKey("api_base"), apiBase)];
    assert DistinctKeys(h);
    FindDistinct(h, 0);
    FindDistinct(h, 1);
    FindDistinct(h, 2);
    FindDistinct(h, 3);
    Ok(h)
  }

  /**
   * The authority an installation yields: its id and secret are the
   * request's, its endpoints those the capability document names, a room or
   * group id is read as an integer (absent or nil: none, so the authority is
   * global), and `Authority.new` raises exactly when one of those ids or the
   * API link cannot be converted.
   */
  lemma InstallSettingsAuthority(params: Value, fetch: Value -> Result<Value>)
    requires params.Hash?
    requires StrKey("capabilitiesUrl") in params.entries
    requires var cap := fetch(params.entries[StrKey("capabilitiesUrl")]);
      && cap.Ok? && cap.value.Hash?
      && StrKey("capabilities") in cap.value.entries && cap.value.entries[StrKey("capabilities")].Hash?
      && StrKey("oauth2Provider") in cap.value.entries[StrKey("capabilities")].entries
      && cap.value.entries[StrKey("capabilities")].entries[StrKey("oauth2Provider")].Hash?
      && StrKey("links") in cap.value.entries && cap.value.entries[StrKey("links")].Hash?
    ensures InstallSettings(params, fetch).Ok?
    ensures var cap := fetch(params.entries[StrKey("capabilitiesUrl")]).value;
            var oauth2 := cap.entries[StrKey("capabilities")].entries[StrKey("oauth2Provider")];
            var api := Index(cap.entries[StrKey("links")], StrKey("api")).value;
            var room := Index(params, StrKey("roomId")).value;
            var group := Index(params, StrKey("groupId")).value;
            var c := Authorities.Configure(InstallSettings(params, fetch).value);
            && (c.Ok? <==> ToI(room).Ok? && ToI(group).Ok? && ToS(api).Ok?)
            && (c.Ok? ==>
                  && c.value.apiBase == Authorities.WithTrailingSlash(ToS(api).value)
                  && (c.value.roomId.None? <==> room.Nil?)
                  && (room.Int? ==> c.value.roomId == Some(room.i))
                  && (room.Str? ==> c.value.roomId == Some(StrToI(room.s)))
                  && (c.value.groupId.None? <==> group.Nil?)
                  && (group.Int? ==> c.value.groupId == Some(group.i))
                  && (group.Str? ==> c.value.groupId == Some(StrToI(group.s)))
                  && c.value.oauthId == Index(params, StrKey("oauthId")).value
                  && c.value.oauthSecret == Index(params, StrKey("oauthSecret")).value
                  && c.value.authorizationUrl == Index(oauth2, StrKey("authorizationUrl")).value
                  && c.value.tokenUrl == Index(oauth2, StrKey("tokenUrl")).value)
  {
    var h := InstallSettings(params, fetch).value;
    var cap := fetch(params.entries[StrKey("capabilitiesUrl")]).value;
    var oauth2 := cap.entries[StrKey("capabilities")].entries[StrKey("oauth2Provider")];
    assert Get(h, SymKey("authorization_url")) == Index(oauth2, StrKey("authorizationUrl")).value by {
      FindDistinct(h, 4);
    }
    assert Get(h, SymKey("token_url")) == Index(oauth2, StrKey("tokenUrl")).value by {
      FindDistinct(h, 5);
    }
    assert Get(h, SymKey("api_base")) == Index(cap.entries[StrKey("links")], StrKey("api")).value by {
      FindDistinct(h, 6);
    }
  }
}
