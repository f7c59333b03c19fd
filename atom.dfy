/**
 * The read-only value objects of the library: users, messages, rooms and
 * the paginated room and user lists. Each keeps a copy of the raw hash it
 * was built from and answers its attributes by reading it. The Ruby
 * classes memoise derived attributes (`@from ||= ...`); as every derived
 * attribute is a function of the raw copy, memoisation is invisible and the
 * attributes here are plain functions.
 */
module Atom {
  import opened Values

  /**
   * The Ruby class of a user: `User` itself (built by `User.new` for room
   * owners, participants and member lists), `User::Notify` (a bare sender
   * name) or `User::Person`.
   */
  datatype UserShape = Plain | Notify | Person

  datatype User = User(shape: UserShape, raw: Value)

  /**
   * `User.create`: a String becomes a `Notify` whose raw hash holds the name
   * under the SYMBOL key `:name`; anything else becomes a `Person` over a copy
   * of the value.
   */
  function CreateUser(params: Value): (u: User)
    ensures u.shape == Notify <==> params.Str?
    ensures u.shape == Person <==> !params.Str?
  {
    if params.Str? then User(Notify, Hash(map[SymKey("name") := params]))
    else User(Person, params)
  }

  /** `User.new(params)`: the base class, which has no attributes besides `raw`. */
  function NewUser(params: Value): User
  {
    User(Plain, params)
  }

  /** `name`: defined on `Notify` and `Person`, both reading the string key `'name'`. */
  function UserName(u: User): Result<Value>
  {
    if u.shape == Plain then Err(NoMethodError("name")) else Index(u.raw, StrKey("name"))
  }

  /** `id` of a `Person`. */
  function UserId(u: User): Result<Value>
  {
    if u.shape == Person then Index(u.raw, StrKey("id")) else Err(NoMethodError("id"))
  }

  /** `mention_name` of a `Person`. */
  function MentionName(u: User): Result<Value>
  {
    if u.shape == Person then Index(u.raw, StrKey("mention_name")) else Err(NoMethodError("mention_name"))
  }

  /**
   * What `User.create` yields: a bare sender name is stored under `:name` but
   * read back through `'name'`, so its `name` is nil; a person's attributes
   * are the string-keyed entries of its hash.
   */
  lemma CreateUserAttributes(params: Value)
    ensures params.Str? ==> UserName(CreateUser(params)) == Ok(Nil)
    ensures params.Str? ==> UserId(CreateUser(params)).Err?
    ensures params.Hash? ==>
      && UserName(CreateUser(params)) == Index(params, StrKey("name"))
      && UserId(CreateUser(params)) == Index(params, StrKey("id"))
      && MentionName(CreateUser(params)) == Index(params, StrKey("mention_name"))
  {
    if params.Str? {
      assert StrKey("name") !in map[SymKey("name") := params];
    }
  }

  /**
   * `collection.map { ... }` on a raw value: an array maps element by element;
   * nil, strings, numbers and booleans have no `map`. Mapping a Hash (pairs in
   * insertion order) is not modelled.
   */
  function MapItems<T>(v: Value, f: Value -> T, what: string): (r: Result<seq<T>>)
    ensures v.List? ==> r.Ok? && |r.value| == |v.items|
    ensures v.List? ==> forall i :: 0 <= i < |v.items| ==> r.value[i] == f(v.items[i])
    ensures r.Ok? <==> v.List?
  {
    match v
    case List(xs) => Ok(seq(|xs|, i requires 0 <= i < |xs| => f(xs[i])))
    case Hash(_) => Err(Unsupported("Hash#map in " + what))
    case _ => Err(NoMethodError("map"))
  }

  // ---------------------------------------------------------------------
  // Message

  datatype Message = Message(raw: Value)

  function MessageId(m: Message): Result<Value> { Index(m.raw, StrKey("id")) }

  /** `date`: the raw timestamp text (its parsing into a time is not modelled). */
  function MessageDate(m: Message): Result<Value> { Index(m.raw, StrKey("date")) }

  function MessageText(m: Message): Result<Value> { Index(m.raw, StrKey("message")) }

  function MessageFormat(m: Message): Result<Value> { Index(m.raw, StrKey("message_format")) }

  function MessageColor(m: Message): Result<Value> { Index(m.raw, StrKey("color")) }

  /** `from`: the sender, shaped by `User.create`. */
  function MessageFrom(m: Message): (r: Result<User>)
    ensures m.raw.Hash? ==>
              r == Ok(CreateUser(if StrKey("from") in m.raw.entries then m.raw.entries[StrKey("from")] else Nil))
    ensures m.raw.Hash? && StrKey("from") in m.raw.entries && m.raw.entries[StrKey("from")].Str? ==>
              r.value.shape == Notify
    ensures Index(m.raw, StrKey("from")).Err? ==> r == Err(Index(m.raw, StrKey("from")).error)
  {
    match Index(m.raw, StrKey("from"))
    case Ok(v) => Ok(CreateUser(v))
    case Err(e) => Err(e)
  }

  /** `mentions`: `(raw['mentions'] || []).map { |d| User.create(d) }`. */
  function Mentions(m: Message): (r: Result<seq<User>>)
    ensures m.raw.Hash? && (StrKey("mentions") !in m.raw.entries || !Truthy(m.raw.entries[StrKey("mentions")])) ==>
              r == Ok([])
    ensures m.raw.Hash? && StrKey("mentions") in m.raw.entries && m.raw.entries[StrKey("mentions")].List? ==>
              var xs := m.raw.entries[StrKey("mentions")].items;
              r.Ok? && |r.value| == |xs| && forall i :: 0 <= i < |xs| ==> r.value[i] == CreateUser(xs[i])
  {
    match Index(m.raw, StrKey("mentions"))
    case Ok(v) => MapItems(Or(v, List([])), CreateUser, "mentions")
    case Err(e) => Err(e)
  }

  // ---------------------------------------------------------------------
  // Room and Room::Detail

  /** The Ruby class of a room: `Room`, or `Room::Detail` answered by the room API. */
  datatype RoomShape = Basic | Detail

  datatype Room = Room(shape: RoomShape, raw: Value)

  /** `detailed?`: false for `Room`, and `Room::Detail` does not override it. */
  function IsDetailed(r: Room): (d: bool)
    ensures !d
  {
    false
  }

  function RoomId(r: Room): Result<Value> { Index(r.raw, StrKey("id")) }

  function RoomName(r: Room): Result<Value> { Index(r.raw, StrKey("name")) }

  /** A `Room::Detail` attribute read straight from the raw hash; plain rooms lack it. */
  function DetailField(r: Room, key: string): Result<Value>
  {
    if r.shape == Detail then Index(r.raw, StrKey(key)) else Err(NoMethodError(key))
  }

  /** `privacy`. */
  function Privacy(r: Room): Result<Value> { DetailField(r, "privacy") }

  /** `is_public`: privacy equals 'public'. */
  function IsPublic(r: Room): Result<bool>
  {
    match Privacy(r)
    case Ok(p) => Ok(p == Str("public"))
    case Err(e) => Err(e)
  }

  /** `is_private`: privacy equals 'private'. */
  function IsPrivate(r: Room): Result<bool>
  {
    match Privacy(r)
    case Ok(p) => Ok(p == Str("private"))
    case Err(e) => Err(e)
  }

  /**
   * The two privacy predicates answer together, each holds exactly when
   * `privacy` is its word, and so they never both hold.
   */
  lemma PrivacyPredicates(r: Room)
    ensures IsPublic(r).Ok? <==> Privacy(r).Ok?
    ensures IsPrivate(r).Ok? <==> Privacy(r).Ok?
    ensures IsPublic(r).Ok? ==> (IsPublic(r).value <==> Privacy(r).value == Str("public"))
    ensures IsPrivate(r).Ok? ==> (IsPrivate(r).value <==> Privacy(r).value == Str("private"))
    ensures !(IsPublic(r) == Ok(true) && IsPrivate(r) == Ok(true))
    ensures r.shape == Basic ==> IsPublic(r).Err? && IsPrivate(r).Err?
  {
  }

  /** `created`, `last_active`: the raw timestamp texts. */
  function Created(r: Room): Result<Value> { DetailField(r, "created") }

  function LastActive(r: Room): Result<Value> { DetailField(r, "last_active") }

  function IsArchived(r: Room): Result<Value> { DetailField(r, "is_archived") }

  function IsGuestAccessible(r: Room): Result<Value> { DetailField(r, "is_guest_accessible") }

  function GuestAccessUrl(r: Room): Result<Value> { DetailField(r, "guest_access_url") }

  function Topic(r: Room): Result<Value> { DetailField(r, "topic") }

  function XmppJid(r: Room): Result<Value> { DetailField(r, "xmpp_jid") }

  /** `owner`: `User.new` over the raw owner. */
  function Owner(r: Room): (u: Result<User>)
    ensures u.Ok? <==> DetailField(r, "owner").Ok?
    ensures u.Ok? ==> u.value.shape == Plain && Ok(u.value.raw) == DetailField(r, "owner")
    ensures r.shape == Detail && r.raw.Hash? ==> u.Ok?
    ensures r.shape == Basic ==> u == Err(NoMethodError("owner"))
  {
    match DetailField(r, "owner")
    case Ok(v) => Ok(NewUser(v))
    case Err(e) => Err(e)
  }

  /** `participants`: `User.new` over each raw participant, in order. */
  function Participants(r: Room): (us: Result<seq<User>>)
    ensures us.Ok? <==> DetailField(r, "participants").Ok? && DetailField(r, "participants").value.List?
    ensures r.shape == Basic ==> us == Err(NoMethodError("participants"))
    ensures us.Ok? ==> var xs := DetailField(r, "participants").value.items;
              |us.value| == |xs| && forall i :: 0 <= i < |xs| ==> us.value[i] == User(Plain, xs[i])
  {
    match DetailField(r, "participants")
    case Ok(v) => MapItems(v, NewUser, "participants")
    case Err(e) => Err(e)
  }

  // ---------------------------------------------------------------------
  // Rooms and Users: one page of a listing

  datatype Rooms = Rooms(raw: Value)

  datatype Users = Users(raw: Value)

  function NewRoom(v: Value): Room { Room(Basic, v) }

  /** `rooms`: one plain `Room` per raw item, in order. */
  function RoomsItems(page: Rooms): (r: Result<seq<Room>>)
    ensures page.raw.Hash? && StrKey("items") in page.raw.entries && page.raw.entries[StrKey("items")].List? ==>
              var xs := page.raw.entries[StrKey("items")].items;
              r.Ok? && |r.value| == |xs| && forall i :: 0 <= i < |xs| ==> r.value[i] == Room(Basic, xs[i])
    ensures page.raw.Hash? && StrKey("items") !in page.raw.entries ==> r.Err?
  {
    match Index(page.raw, StrKey("items"))
    case Ok(v) => MapItems(v, NewRoom, "items")
    case Err(e) => Err(e)
  }

  function RoomsStartIndex(page: Rooms): Result<Value> { Index(page.raw, StrKey("startIndex")) }

  function RoomsMaxResults(page: Rooms): Result<Value> { Index(page.raw, StrKey("maxResults")) }

  /** `users`: one plain `User` per raw item, in order. */
  function UsersItems(page: Users): (r: Result<seq<User>>)
    ensures page.raw.Hash? && StrKey("items") in page.raw.entries && page.raw.entries[StrKey("items")].List? ==>
              var xs := page.raw.entries[StrKey("items")].items;
              r.Ok? && |r.value| == |xs| && forall i :: 0 <= i < |xs| ==> r.value[i] == User(Plain, xs[i])
    ensures page.raw.Hash? && StrKey("items") !in page.raw.entries ==> r.Err?
  {
    match Index(page.raw, StrKey("items"))
    case Ok(v) => MapItems(v, NewUser, "items")
    case Err(e) => Err(e)
  }

  function UsersStartIndex(page: Users): Result<Value> { Index(page.raw, StrKey("startIndex")) }

  function UsersMaxResults(page: Users): Result<Value> { Index(page.raw, StrKey("maxResults")) }
}
