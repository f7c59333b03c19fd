/**
 * Webhook events. `Event.parse` picks the Ruby class of an incoming payload
 * from its `event` value; the classes form a small hierarchy under two
 * abstract groups, room messaging and room visiting.
 *
 * The constants `Message::Talk` and `Message::Notification` that the message
 * readers instantiate are defined nowhere in the library, and neither is the
 * `Event::RoomTopicChange` class that the dispatcher tests for; the model
 * builds a plain `Message` and treats the topic-change test as never true.
 */
module Events {
  import opened Values
  import Atom
  import Authorities

  /** The Ruby class of an event object. `RoomMessaging` and `RoomVisiting` are abstract groups. */
  datatype EventClass =
    | Base
    | RoomMessaging | RoomMessage | RoomNotification
    | RoomVisiting | RoomEnter | RoomExit

  /** `is_a?`: every class is an `Event`, and each concrete room class is one of its group. */
  predicate IsA(c: EventClass, ancestor: EventClass)
  {
    || c == ancestor
    || ancestor == Base
    || (ancestor == RoomMessaging && (c == RoomMessage || c == RoomNotification))
    || (ancestor == RoomVisiting && (c == RoomEnter || c == RoomExit))
  }

  predicate IsMessaging(c: EventClass) { IsA(c, RoomMessaging) }

  predicate IsVisiting(c: EventClass) { IsA(c, RoomVisiting) }

  /** The two groups are disjoint, the base class is in neither, and every class is an event. */
  lemma Hierarchy(c: EventClass)
    ensures IsA(c, Base)
    ensures !(IsMessaging(c) && IsVisiting(c))
    ensures !IsMessaging(Base) && !IsVisiting(Base)
    ensures IsMessaging(c) <==> c in {RoomMessaging, RoomMessage, RoomNotification}
    ensures IsVisiting(c) <==> c in {RoomVisiting, RoomEnter, RoomExit}
  {
  }

  /** The class `Event.parse` picks for a payload, from its `'event'` value. */
  function ParseClass(params: Value): (r: Result<EventClass>)
    ensures r.Err? <==> Index(params, StrKey("event")).Err?
    ensures r.Ok? ==> r.value in {Base, RoomMessage, RoomNotification, RoomEnter, RoomExit}
  {
    var kind :- Index(params, StrKey("event"));
    if kind == Str("room_message") then Ok(RoomMessage)
    else if kind == Str("room_notification") then Ok(RoomNotification)
    else if kind == Str("room_enter") then Ok(RoomEnter)
    else if kind == Str("room_exit") then Ok(RoomExit)
    else Ok(Base)
  }

  /**
   * Each of the four room event names selects its class; any other value,
   * and a missing `event` key, selects the base class.
   */
  lemma ParseClassCases(params: Value)
    requires params.Hash?
    ensures var e := if StrKey("event") in params.entries then params.entries[StrKey("event")] else Nil;
      && (e == Str("room_message") <==> ParseClass(params) == Ok(RoomMessage))
      && (e == Str("room_notification") <==> ParseClass(params) == Ok(RoomNotification))
      && (e == Str("room_enter") <==> ParseClass(params) == Ok(RoomEnter))
      && (e == Str("room_exit") <==> ParseClass(params) == Ok(RoomExit))
      && (e !in {Str("room_message"), Str("room_notification"), Str("room_enter"), Str("room_exit")} <==>
            ParseClass(params) == Ok(Base))
  {
  }

  /** `room`: `Room.new(raw['item']['room'])`, defined on both room groups. */
  function RoomOf(c: EventClass, raw: Value): (r: Result<Atom.Room>)
    ensures !IsMessaging(c) && !IsVisiting(c) ==> r == Err(NoMethodError("room"))
    ensures r.Ok? ==> r.value.shape == Atom.Basic && Ok(r.value.raw) == Index2(raw, StrKey("item"), StrKey("room"))
    ensures (IsMessaging(c) || IsVisiting(c)) && Index2(raw, StrKey("item"), StrKey("room")).Ok? ==>
              r == Ok(Atom.Room(Atom.Basic, Index2(raw, StrKey("item"), StrKey("room")).value))
    ensures (IsMessaging(c) || IsVisiting(c)) && Index2(raw, StrKey("item"), StrKey("room")).Err? ==>
              r == Err(Index2(raw, StrKey("item"), StrKey("room")).error)
  {
    if IsMessaging(c) || IsVisiting(c) then MapResult(Index2(raw, StrKey("item"), StrKey("room")), Atom.NewRoom)
    else Err(NoMethodError("room"))
  }

  /** `sender`: `User.create(raw['item']['sender'])`, defined on room-visiting events. */
  function SenderOf(c: EventClass, raw: Value): (r: Result<Atom.User>)
    ensures !IsVisiting(c) ==> r == Err(NoMethodError("sender"))
    ensures r.Ok? ==> Index2(raw, StrKey("item"), StrKey("sender")).Ok?
                      && r.value == Atom.CreateUser(Index2(raw, StrKey("item"), StrKey("sender")).value)
    ensures IsVisiting(c) && Index2(raw, StrKey("item"), StrKey("sender")).Ok? ==>
              r == Ok(Atom.CreateUser(Index2(raw, StrKey("item"), StrKey("sender")).value))
    ensures IsVisiting(c) && Index2(raw, StrKey("item"), StrKey("sender")).Err? ==>
              r == Err(Index2(raw, StrKey("item"), StrKey("sender")).error)
  {
    if IsVisiting(c) then MapResult(Index2(raw, StrKey("item"), StrKey("sender")), Atom.CreateUser)
    else Err(NoMethodError("sender"))
  }

  /**
   * `message`: the abstract messaging class raises; the two concrete ones
   * read `raw['item']['message']`; other events have no `message`.
   */
  function MessageOf(c: EventClass, raw: Value): (r: Result<Atom.Message>)
    ensures c == RoomMessaging ==> r == Err(RuntimeError("unhandled exception"))
    ensures !IsMessaging(c) ==> r == Err(NoMethodError("message"))
    ensures r.Ok? ==> (c == RoomMessage || c == RoomNotification)
                      && Ok(r.value.raw) == Index2(raw, StrKey("item"), StrKey("message"))
    ensures c in {RoomMessage, RoomNotification} && Index2(raw, StrKey("item"), StrKey("message")).Ok? ==>
              r == Ok(Atom.Message(Index2(raw, StrKey("item"), StrKey("message")).value))
    ensures c in {RoomMessage, RoomNotification} && Index2(raw, StrKey("item"), StrKey("message")).Err? ==>
              r == Err(Index2(raw, StrKey("item"), StrKey("message")).error)
  {
    if c == RoomMessage || c == RoomNotification then
      MapResult(Index2(raw, StrKey("item"), StrKey("message")), (v: Value) => Atom.Message(v))
    else if c == RoomMessaging then Err(RuntimeError("unhandled exception"))
    else Err(NoMethodError("message"))
  }

  /**
   * An event object: its class, a copy of the payload, the authority a
   * manager attaches, and the memoised room, sender and message.
   */
  class Event {
    const cls: EventClass
    const raw: Value
    var authority: Authorities.Authority?
    var roomMemo: Option<Atom.Room>
    var senderMemo: Option<Atom.User>
    var messageMemo: Option<Atom.Message>

    /** A memo only ever holds what its reader computes from `raw`. */
    ghost predicate Valid()
      reads this
    {
      && (roomMemo.Some? ==> RoomOf(cls, raw) == Ok(roomMemo.value))
      && (senderMemo.Some? ==> SenderOf(cls, raw) == Ok(senderMemo.value))
      && (messageMemo.Some? ==> MessageOf(cls, raw) == Ok(messageMemo.value))
    }

    /** `new(params)`: keeps a copy of the payload; no authority yet, nothing memoised. */
    constructor (cls: EventClass, params: Value)
      ensures Valid()
      ensures this.cls == cls && raw == params
      ensures authority == null && roomMemo == None && senderMemo == None && messageMemo == None
    {
      this.cls := cls;
      raw := params;
      authority := null;
      roomMemo := None;
      senderMemo := None;
      messageMemo := None;
    }

    /** `Event.parse`: an event of the class the payload names, over a copy of the payload. */
    static method Parse(params: Value) returns (r: Result<Event>)
      ensures ParseClass(params).Err? ==> r == Err(ParseClass(params).error)
      ensures ParseClass(params).Ok? ==>
                && r.Ok? && fresh(r.value) && r.value.Valid()
                && r.value.cls == ParseClass(params).value && r.value.raw == params
                && r.value.authority == null
    {
      var cls := ParseClass(params);
      if cls.Err? {
        return Err(cls.error);
      }
      var e := new Event(cls.value, params);
      r := Ok(e);
    }

    /** `type`: the payload's `'event'` value. */
    function Type(): (r: Result<Value>)
      ensures raw.Hash? ==> r == Ok(if StrKey("event") in raw.entries then raw.entries[StrKey("event")] else Nil)
    {
      Index(raw, StrKey("event"))
    }

    /** `oauth_client_id`: the payload's `'oauth_client_id'` value. */
    function OAuthClientId(): (r: Result<Value>)
      ensures raw.Hash? ==> r == Ok(if StrKey("oauth_client_id") in raw.entries then raw.entries[StrKey("oauth_client_id")] else Nil)
    {
      Index(raw, StrKey("oauth_client_id"))
    }

    /** `webhook_id`: the payload's `'webhook_id'` value. */
    function WebhookId(): (r: Result<Value>)
      ensures raw.Hash? ==> r == Ok(if StrKey("webhook_id") in raw.entries then raw.entries[StrKey("webhook_id")] else Nil)
    {
      Index(raw, StrKey("webhook_id"))
    }

    /** `authority=`. */
    method SetAuthority(a: Authorities.Authority?)
      modifies this`authority
      ensures authority == a
    {
      authority := a;
    }

    /** `room`, memoised: every call answers the same room. */
    method Room() returns (r: Result<Atom.Room>)
      requires Valid()
      modifies this`roomMemo
      ensures Valid()
      ensures r == RoomOf(cls, raw)
      ensures r.Ok? ==> roomMemo == Some(r.value)
    {
      if roomMemo.None? {
        var computed := RoomOf(cls, raw);
        if computed.Err? {
          return Err(computed.error);
        }
        roomMemo := Some(computed.value);
      }
      r := Ok(roomMemo.value);
    }

    /** `sender`, memoised. */
    method Sender() returns (r: Result<Atom.User>)
      requires Valid()
      modifies this`senderMemo
      ensures Valid()
      ensures r == SenderOf(cls, raw)
      ensures r.Ok? ==> senderMemo == Some(r.value)
    {
      if senderMemo.None? {
        var computed := SenderOf(cls, raw);
        if computed.Err? {
          return Err(computed.error);
        }
        senderMemo := Some(computed.value);
      }
      r := Ok(senderMemo.value);
    }

    /** `message`, memoised on the two concrete messaging classes. */
    method Message() returns (r: Result<Atom.Message>)
      requires Valid()
      modifies this`messageMemo
      ensures Valid()
      ensures r == MessageOf(cls, raw)
      ensures r.Ok? ==> messageMemo == Some(r.value)
    {
      if messageMemo.None? {
        var computed := MessageOf(cls, raw);
        if computed.Err? {
          return Err(computed.error);
        }
        messageMemo := Some(computed.value);
      }
      r := Ok(messageMemo.value);
    }
  }

  /** Two readings of `room` in a row answer the same room, the second from the memo. */
  method RoomTwice(e: Event) returns (first: Result<Atom.Room>, second: Result<Atom.Room>)
    requires e.Valid()
    modifies e`roomMemo
    ensures first == second
  {
    first := e.Room();
    second := e.Room();
  }
}
