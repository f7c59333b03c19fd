# hiptail in Dafny

A model of the core of **hiptail**, a Ruby library for writing HipChat
add-ons. An add-on serves a capability descriptor. It accepts installation
and uninstallation requests from the chat server, and it receives webhook
events. It lets the application register handlers ("hooks") for each kind
of request, and it talks to the server's REST API on behalf of each
installation (an "authority").

The model covers:

- **Values** (`values.dfy`): the Ruby values the library handles, with Ruby
  truthiness, `||`, `[]` on hashes and strings, `to_s` and `to_i`. It also
  holds a `Result` type that stands for "raises".
- **Ordered hashes** (`ordered_hash.dfy`): Ruby's insertion-ordered `Hash`
  as a list of pairs, with `[]`, `[]=`, `delete` and `merge`. `ParamHash` is
  a caller's hash that API methods edit in place.
- **Atoms** (`atom.rb` → `atom.dfy`): users, messages, rooms, room details
  and paginated lists, as values over their raw hash.
- **Events** (`event.rb` → `event.dfy`): `Event.parse`, the class
  hierarchy (room messaging / room visiting), the raw readers, and the
  event object with its settable `authority` and memoised readers.
- **Authority** (`authority.rb` → `authority.dfy`): settings
  normalisation, room and user resolution, path and query construction,
  request building, and the cached OAuth2 token. The token endpoint, the
  HTTP transport, the clock and JSON are oracles passed in an `Env`. The
  `Authority` class records every request handed to the transport in
  `sent` and counts token fetches in `tokenFetches`.
- **Authority stores** (`authority/provider.rb` → `providers.dfy`,
  `authority_provider.rb` → `legacy_providers.dfy`).
- **Manager** (`manager.rb` → `hooks.dfy`, `manager.dfy`): ten categories
  of priority buckets, dispatch by ascending priority with `break` ending a
  bucket, and the install, uninstall and event handlers. A handler block is
  known by its object id; what it does when called is an oracle `run` that
  says whether it returned or raised.
- **Older manager** (`hiptail.rb` lines 511-655 → `legacy_manager.dfy`): nine
  categories, each an id-keyed, insertion-ordered registry with
  `unregister_hook`, dispatched with no rescue.
- **Capability descriptor** (`util.rb` → `util.dfy`).

Each imperative method is proved against a specification function. Examples:

- `Manager.CallHooks` (a nested loop with a `break`) equals `CallHooksSpec`.
- `Authority.SendNotification` and its siblings equal `Invoke`, which
  composes `Plan` (room and user resolution) with `Perform` (token, request,
  response).

The lemmas beside those functions state what the library promises.

Points of the code that a reader might not expect, and that the model
keeps as written:

- `call_api` never looks at the HTTP status: any response is decoded by its
  media type alone (`Authorities.PerformSends`).
- `manager.rb` passes the uninstall hooks the bare OAuth id, as its
  `handle_uninstall` documentation comment (lines 141-145) says; the older
  manager in `hiptail.rb` passes the looked-up authority. Each manager is
  modelled as its file has it. In both, the removal comes after the hooks,
  so a hook that raises leaves the authority stored.
- The documentation comment of `create_capability` (`util.rb` lines 15-16)
  says the vendor name defaults to `:name` and the vendor URL to
  `:base_url`. The code (lines 35-36) uses the constants `DEFAULT_VENDOR_NAME`
  ("HipTail") and `DEFAULT_VENDOR_URL` instead, and so does the model
  (`Util.CapabilityDefaults`).

Two constants the code uses are defined nowhere in the library:

- `Message::Talk` / `Message::Notification`, used by `event.rb` lines 73 and 82.
- `Event::RoomTopicChange`, which `manager.rb` line 170 checks events against.

The model builds a plain `Message` for messages, and treats the topic-change
test as false. `room_topic_change` is still a category hooks can be
registered under, but no event reaches it.

## Model

| member | source | states |
|---|---|---|
| Values.ToS | lib/hiptail/authority.rb:54 | `to_s` keeps a string, gives "" for nil, writes an integer so that `to_i` reads it back, and fails only for arrays and hashes |
| Values.ToI | lib/hiptail/authority.rb:51-52 | `to_i` keeps an integer, parses a string (white space, sign, the base-10 radix prefix `0d`, then the digits), and fails exactly for booleans, arrays and hashes |
| Values.ToSToIRoundTrip | lib/hiptail/authority.rb:51 | an integer written with `to_s` is read back by `to_i` as the same integer, for negative integers too |
| Values.RadixPrefixRoundTrip | lib/hiptail/authority.rb:51-52 | an integer written with the `0d` or `0D` prefix after its sign (`"0d12"`, `"-0D7"`) is read back by `to_i` as that integer |
| Atom.CreateUser | lib/hiptail/atom.rb:14-20 | a String gives a `Notify` user, anything else a `Person` |
| Atom.CreateUserAttributes | lib/hiptail/atom.rb:14-49 | a `Notify` built from a name stores it under the symbol `:name` but `name` reads `'name'`, so its name is nil; a person's name, id and mention name are its hash's string-keyed entries |
| Atom.MessageFrom | lib/hiptail/atom.rb:92-95 | on a hash payload `from` is exactly `User.create` of the raw `from` (nil when absent), a sender given as text being a `Notify`; on a payload that cannot be indexed it raises the indexing error |
| Atom.Mentions | lib/hiptail/atom.rb:99-102 | no (or a false) `mentions` gives an empty list; a list gives one `User.create` per entry, in order |
| Atom.IsDetailed | lib/hiptail/atom.rb:112-114 | `detailed?` is false for every room, a `Room::Detail` included |
| Atom.PrivacyPredicates | lib/hiptail/atom.rb:146-161 | `is_public` holds iff privacy is 'public', `is_private` iff it is 'private', never both; a plain room has neither |
| Atom.Owner | lib/hiptail/atom.rb:186-188 | `owner` succeeds exactly when the detail field can be read, and is then a plain `User` over the raw owner; always succeeds on a detailed room with a hash payload; a basic room raises NoMethodError |
| Atom.Participants | lib/hiptail/atom.rb:192-195 | succeeds exactly when the detail field reads as a list, and then answers one plain `User` per raw participant, in order; a basic room raises NoMethodError |
| Atom.RoomsItems | lib/hiptail/atom.rb:219-222 | one plain `Room` per raw item, in order; a page without `items` fails |
| Atom.UsersItems | lib/hiptail/atom.rb:244-247 | one plain `User` per raw item, in order; a page without `items` fails |
| Events.Hierarchy | lib/hiptail/event.rb:53-107 | every class is an `Event`; messaging and visiting are disjoint, the base class is in neither, and each group is exactly its abstract class and its two subclasses |
| Events.ParseClass | lib/hiptail/event.rb:34-49 | parsing fails exactly when `params['event']` does, and otherwise yields the base class or one of the four concrete room classes |
| Events.ParseClassCases | lib/hiptail/event.rb:34-49 | each of the four event names selects its class (both directions); any other or missing name selects the base class |
| Events.RoomOf | lib/hiptail/event.rb:63-66 | on the messaging and visiting groups `room` is a plain room over `raw['item']['room']` when that can be read, and raises its indexing error otherwise; every other class has no `room` |
| Events.SenderOf | lib/hiptail/event.rb:90-93 | on visiting events `sender` is `User.create(raw['item']['sender'])` when that can be read, and raises its indexing error otherwise; every other class has no `sender` |
| Events.MessageOf | lib/hiptail/event.rb:57-84 | on the message and notification classes `message` wraps `raw['item']['message']` when that can be read and raises its indexing error otherwise; the abstract messaging class raises; every other class has no `message` |
| Events.Event.constructor | lib/hiptail/event.rb:4-11 | a new event keeps the payload as `raw`, has no authority, and has memoised nothing |
| Events.Event.Parse | lib/hiptail/event.rb:34-49 | `Event.parse` yields a fresh event of the class `ParseClass` picks, over the unchanged payload, with no authority |
| Events.Event.Type | lib/hiptail/event.rb:15-17 | `type` is the payload's `'event'` value (nil when absent) |
| Events.Event.OAuthClientId | lib/hiptail/event.rb:21-23 | `oauth_client_id` is the payload's value of that key |
| Events.Event.WebhookId | lib/hiptail/event.rb:27-29 | `webhook_id` is the payload's value of that key |
| Events.Event.SetAuthority | lib/hiptail/event.rb:5 | `authority=` sets the field, which starts unset |
| Events.Event.Room | lib/hiptail/event.rb:63-66 | memoised `room`: always `RoomOf` of the payload, and cached once computed |
| Events.Event.Sender | lib/hiptail/event.rb:90-93 | memoised `sender`: always `SenderOf` of the payload |
| Events.Event.Message | lib/hiptail/event.rb:72-84 | memoised `message`: always `MessageOf` of the payload |
| Events.RoomTwice | lib/hiptail/event.rb:97-100 | two reads of `room` give the same answer |
| Authorities.WithTrailingSlash | lib/hiptail/authority.rb:54-57 | the API base always ends in '/', and one that already does is unchanged |
| Authorities.OptionalInt | lib/hiptail/authority.rb:48-52 | a room or group id stays nil when absent, and otherwise becomes its `to_i` |
| Authorities.Configure | lib/hiptail/authority.rb:42-59 | the settings: OAuth id and secret, authorization and token URLs kept as given; room and group ids nil exactly when absent, kept as given when integers and read with `to_i` when text; the API base is the given value through `to_s` plus '/' when missing (so nil gives "/"); construction fails exactly when an id or the base cannot be converted |
| Authorities.ConfigureAsHash | lib/hiptail/authority.rb:62-72 | building an authority from `as_hash` gives back the same settings |
| Authorities.TokenRequestOf | lib/hiptail/authority.rb:227 | the token request uses the authority's client id and token URL, with the four fixed scopes |
| Authorities.Symbolize | lib/hiptail/authority.rb:182 | the path's query pairs in order, names turned into symbols |
| Authorities.BuildQueryProperties | lib/hiptail/authority.rb:181-186 | the query has no repeated key and carries the token under `auth_token`; every other key answers the caller's value when given, else the path's; the token comes last unless the key was already there |
| Authorities.Downcase | lib/hiptail/authority.rb:199 | ASCII `downcase`, character by character |
| Authorities.MethodFor | lib/hiptail/authority.rb:199-210 | succeeds exactly when the lower-cased name is one of 'get', 'post', 'put', 'delete', each selecting its verb; anything else raises |
| Authorities.MethodForFoldsCase | lib/hiptail/authority.rb:199 | the method name is matched after `downcase`, so a name and its lower-cased form select the same verb |
| Authorities.MethodForUpperCase | lib/hiptail/authority.rb:199-206 | the upper-case spellings `GET` and `DELETE` select GET and DELETE |
| Authorities.BuildRequest | lib/hiptail/authority.rb:180-212 | the request carries the verb `MethodFor` selects, goes to the call's path with the JSON content type and the built query; it has a body and a Content-Length of the body's byte size exactly when there are body parameters; it fails exactly for an unknown method |
| Authorities.DecodeResponse | lib/hiptail/authority.rb:218-222 | a response whose media type starts with application/json is parsed; any other or missing type gives `{}` |
| Authorities.TokenStep | lib/hiptail/authority.rb:225-231 | a token is fetched exactly when none is cached or the cached one has expired; a successful fetch is cached and its access token answered, a failed one raises its error and keeps the old cache; otherwise the cached one is answered and nothing changes |
| Authorities.TwoLookupsFetchAtMostOnce | lib/hiptail/authority.rb:225-231 | two lookups in a row, the first token still valid at the second, fetch at most once and answer the same token |
| Authorities.PerformSends | lib/hiptail/authority.rb:180-223 | a call sends at most one request, only once a token is held; when the token lookup fails nothing is sent and its error is raised; when it succeeds and the method is known exactly one request is sent, the one `BuildRequest` makes with that token and verb; the request goes to the call's path, has `auth_token` set to the held token in a query without repeated keys, and has a content length exactly when there is a body; an unknown method sends nothing and raises; the answer is the transport's error, or the response decoded by its media type alone, with anything but JSON giving `{}` |
| Authorities.MemberSegmentCases | lib/hiptail/authority.rb:169-178 | the user identity is the id, else "@" + the mention, else the e-mail; with none of them the call fails with "user_id or user_mention or user_email required" |
| Authorities.PlanRoom | lib/hiptail/authority.rb:79-81 | the bound room id wins and the caller's `:room_id` stays in the hash; otherwise the caller's `:room_id` is deleted and used; with neither the call fails with "room_id required" |
| Authorities.PlanVerbs | lib/hiptail/authority.rb:77-164 | notifications and replies POST, adding a member PUTs, removing one DELETEs, the four reads GET; GETs carry the remaining parameters as the query and the others as the body; every path lies under the API base |
| Authorities.PlanMember | lib/hiptail/authority.rb:140-165 | membership calls target `room/<id>/member/<identity>` and remove all three identity keys from the body |
| Authorities.InvokeFailsEarly | lib/hiptail/authority.rb:140-145 | a missing room or user raises before any token fetch or request |
| Authorities.Authority.constructor | lib/hiptail/authority.rb:42-59 | a new authority holds the given settings, no token, no fetches and no requests |
| Authorities.Authority.New | lib/hiptail/authority.rb:21-59 | `Authority.new` raises exactly when `Configure` fails, and otherwise starts fresh with its settings; the new authority is global exactly when no room id was given and a room authority exactly when one was |
| Authorities.Authority.IsRoom | lib/hiptail/authority.rb:21-30 | `room?` is the negation of `global?`, which holds exactly when no room id is set (by `Configure`, when none was given) |
| Authorities.Authority.AccessToken | lib/hiptail/authority.rb:225-231 | the `token` method updates the cache and the fetch count exactly as `TokenStep` says |
| Authorities.Authority.CallApi | lib/hiptail/authority.rb:180-223 | `call_api` moves the token, fetch count and sent log exactly as `Perform` says |
| Authorities.Authority.ResolveRoomId | lib/hiptail/authority.rb:79-80 | `room_id \|\| params.delete(:room_id)`, required to be truthy; the caller's hash loses `:room_id` only when it is used |
| Authorities.Authority.UserNameFromParams | lib/hiptail/authority.rb:169-178 | deletes all three identity keys from the caller's hash and answers id, "@" + mention, e-mail, or nil |
| Authorities.Authority.RoomCall | lib/hiptail/authority.rb:78-131 | the common body of the room operations equals `Invoke` |
| Authorities.Authority.MemberCall | lib/hiptail/authority.rb:140-165 | the common body of the membership operations equals `Invoke` |
| Authorities.Authority.SendNotification | lib/hiptail/authority.rb:78-82 | POST `room/<id>/notification`: client state, caller's hash and result as `Invoke` says |
| Authorities.Authority.ReplyMessage | lib/hiptail/authority.rb:88-92 | POST `room/<id>/reply`, as `Invoke` says |
| Authorities.Authority.GetAllRooms | lib/hiptail/authority.rb:97-100 | GET `room` with the caller's hash as the query, unedited; the answer wrapped as `Rooms` |
| Authorities.Authority.GetRoom | lib/hiptail/authority.rb:106-111 | GET `room/<id>`, the answer wrapped as a detailed room |
| Authorities.Authority.GetAllMembers | lib/hiptail/authority.rb:116-121 | GET `room/<id>/member`, the answer wrapped as `Users` |
| Authorities.Authority.GetAllParticipants | lib/hiptail/authority.rb:126-131 | GET `room/<id>/participant`, the answer wrapped as `Users` |
| Authorities.Authority.AddMember | lib/hiptail/authority.rb:140-148 | PUT `room/<id>/member/<identity>`, as `Invoke` says |
| Authorities.Authority.RemoveMember | lib/hiptail/authority.rb:157-165 | DELETE `room/<id>/member/<identity>`, as `Invoke` says |
| OrderedHash.ParamHash.Delete | lib/hiptail/authority.rb:170-172 | `params.delete(k)` answers the old value (nil when absent), removes the key and leaves every other key as it was |
| OrderedHash.FindPut | lib/hiptail/authority.rb:185 | `query[:auth_token] = token` makes the key answer the token and leaves every other key's answer unchanged |
| OrderedHash.FindDelete | lib/hiptail/authority.rb:79 | `params.delete(:room_id)` leaves no entry for the key and every other key's answer unchanged, and removes exactly that key from the key set |
| OrderedHash.FindMerge | lib/hiptail/authority.rb:184 | `merge`: a key of the merged-in hash answers its value there, any other key keeps its answer |
| Providers.AbstractAuthorityProvider.Get | lib/hiptail/authority/provider.rb:20-22 | the abstract `get` raises |
| Providers.AbstractAuthorityProvider.Register | lib/hiptail/authority/provider.rb:28-30 | the abstract `register` raises |
| Providers.AbstractAuthorityProvider.Unregister | lib/hiptail/authority/provider.rb:35-37 | the abstract `unregister` raises |
| Providers.AbstractAuthorityProvider.At | lib/hiptail/authority/provider.rb:6-8 | `[]` delegates to `get`, and so raises |
| Providers.AbstractAuthorityProvider.SetAt | lib/hiptail/authority/provider.rb:13-15 | `[]=` delegates to `register`, and so raises |
| Providers.MemoryAuthorityProvider.constructor | lib/hiptail/authority/provider.rb:42-44 | a new store is empty |
| Providers.MemoryAuthorityProvider.Get | lib/hiptail/authority/provider.rb:48-50 | `get` answers the stored authority exactly when the id is stored, else nil |
| Providers.MemoryAuthorityProvider.Register | lib/hiptail/authority/provider.rb:55-57 | `register` stores or replaces the entry for the id, touching no other |
| Providers.MemoryAuthorityProvider.Unregister | lib/hiptail/authority/provider.rb:61-63 | `unregister` removes the id (a no-op when absent), touching no other, and answers what was there |
| Providers.MemoryAuthorityProvider.At | lib/hiptail/authority/provider.rb:6-8 | `[]` answers as `get` |
| Providers.MemoryAuthorityProvider.SetAt | lib/hiptail/authority/provider.rb:13-15 | `[]=` changes the store as `register` does |
| Providers.RegisterThenGet | lib/hiptail/authority/provider.rb:43-63 | a lookup after `register` answers it, re-registering overwrites, a lookup after `unregister` answers nil, a second `unregister` is harmless, and another id's entry is untouched |
| LegacyProviders.AbstractAuthorityProvider.Get | lib/hiptail/authority_provider.rb:3-5 | the abstract `get` raises |
| LegacyProviders.AbstractAuthorityProvider.Register | lib/hiptail/authority_provider.rb:7-9 | the abstract `register` raises |
| LegacyProviders.AbstractAuthorityProvider.Unregister | lib/hiptail/authority_provider.rb:11-13 | the abstract `unregister` raises |
| LegacyProviders.MemoryAuthorityProvider.constructor | lib/hiptail/authority_provider.rb:17-19 | a new store is empty |
| LegacyProviders.MemoryAuthorityProvider.Get | lib/hiptail/authority_provider.rb:21-23 | `get` answers the stored authority exactly when the id is stored, else nil |
| LegacyProviders.MemoryAuthorityProvider.Register | lib/hiptail/authority_provider.rb:25-27 | `register` stores or replaces the entry for the id |
| LegacyProviders.MemoryAuthorityProvider.Unregister | lib/hiptail/authority_provider.rb:29-31 | `unregister` removes the id, a no-op when absent |
| LegacyProviders.RegisterThenGet | lib/hiptail/authority_provider.rb:17-31 | the same store laws as the current store |
| Hooks.EventCategoriesOrder | lib/hiptail/manager.rb:155-182 | `event` fires first, then `room_messaging` and `room_message`/`room_notification`, or `room_visiting` and `room_enter`/`room_exit`; a base event reaches only `event`; `room_topic_change` is never reached |
| Hooks.InstallSettings | lib/hiptail/manager.rb:214-228 | the option hash built for `Authority.new` has distinct keys and carries the request's `oauthId`, `oauthSecret`, `roomId` and `groupId` |
| Hooks.InstallSettingsAuthority | lib/hiptail/manager.rb:214-228 | from a request whose capability document has the OAuth provider and links, the authority is built exactly when the room id, the group id and the API link convert; it then has the document's API base (with a trailing '/') and OAuth endpoints, the request's OAuth id and secret, and room and group ids that are none exactly when absent and the given integer, or the text read with `to_i`, otherwise |
| Managers.Sort | lib/hiptail/manager.rb:198 | `keys.sort` is ascending and has the same elements |
| Managers.DispatchOrder | lib/hiptail/manager.rb:197-198 | dispatch visits the category's priorities in ascending order, each exactly once |
| Managers.BucketRunsAll | lib/hiptail/manager.rb:199-209 | while every block returns (or leaves by `next`/`return`), the whole bucket runs in registration order |
| Managers.BucketStopsAt | lib/hiptail/manager.rb:199-209 | the first block that does neither is the last of its bucket to run; after a `break` dispatch goes on with the next bucket, after any other exception it ends with that exception |
| Managers.RunKeysStep | lib/hiptail/manager.rb:198-210 | a bucket that ends without an exception (a `break` included) is followed by the next bucket; one that raises is the last to run |
| Managers.RunKeysRunsAll | lib/hiptail/manager.rb:197-210 | when no block raises, every block of every bucket runs, bucket by bucket |
| Managers.RegisterAppends | lib/hiptail/manager.rb:189-193 | registering appends the block to its priority's bucket and leaves every other bucket as it was |
| Managers.Manager.constructor | lib/hiptail/manager.rb:15-30 | exactly the ten categories, each empty; the given store or a fresh empty one |
| Managers.Manager.SetAuthorityProvider | lib/hiptail/manager.rb:37-39 | replaces the store that lookups use |
| Managers.Manager.AuthorityFor | lib/hiptail/manager.rb:243-245 | `authority[oauth_id]` is the store's entry for the id, or nil |
| Managers.Manager.RegisterHook | lib/hiptail/manager.rb:189-193 | appends the block to the bucket of its priority (100 when none) and answers the bucket; an unknown category raises and changes nothing |
| Managers.RunBlocks | lib/hiptail/manager.rb:199-209 | the inner loop over one bucket's blocks, after the calls already made, produces exactly `RunBucket`'s dispatch: every block in order until a `break` (the bucket ends) or another exception (answered as the failure) |
| Managers.RunPriorities | lib/hiptail/manager.rb:198-210 | the nested loops over the sorted priorities and their blocks produce exactly the dispatch `RunKeys` describes: blocks in order, a `break` ending its bucket, any other exception ending the dispatch |
| Managers.Manager.CallHooks | lib/hiptail/manager.rb:197-212 | `call_hooks` does exactly what `CallHooksSpec` says: an unknown category raises, otherwise the sorted priorities are run by `RunPriorities` |
| Managers.Manager.HandleInstall | lib/hiptail/manager.rb:133-139 | builds the authority, stores it under its OAuth id, then fires the install hooks with it; a failure to build leaves the store as it was and fires nothing |
| Managers.Manager.HandleUninstall | lib/hiptail/manager.rb:146-150 | fires the uninstall hooks with the id, then removes it (harmless when absent); a raising hook leaves the store as it was |
| Managers.Manager.HandleEvent | lib/hiptail/manager.rb:155-182 | parses the payload, attaches the store's authority (or nil) for its `oauth_client_id` before any hook, then fires the categories of `EventCategories` in order, stopping at the first exception |
| LegacyManagers.RunAllInOrder | lib/hiptail.rb:634-638 | when no block raises, every block runs in insertion order |
| LegacyManagers.RunAllStopsAt | lib/hiptail.rb:634-638 | the first block that raises anything, a `break` included, is the last to run and its exception ends the dispatch |
| LegacyManagers.RegisterPosition | lib/hiptail.rb:622-626 | re-registering an id replaces its block in place, keeping its turn; a new id runs last |
| LegacyManagers.PutReplaces | lib/hiptail.rb:622-626 | storing under an id already present replaces that entry in place: same length, every other entry unchanged |
| LegacyManagers.IntegerIdSurvivesUnregister | lib/hiptail.rb:622-630 | a hook registered under an integer id survives `unregister_hook` with that id, which deletes by the id's text |
| LegacyManagers.Manager.constructor | lib/hiptail.rb:522-536 | exactly the nine categories (no topic change), each empty |
| LegacyManagers.Manager.AuthorityFor | lib/hiptail.rb:517-519 | the store's entry for the id, or nil |
| LegacyManagers.Manager.RegisterHook | lib/hiptail.rb:622-626 | stores the block under the given id, or its object id as text when none is given, and answers the id |
| LegacyManagers.Manager.UnregisterHook | lib/hiptail.rb:628-630 | deletes the entry under `hook_id.to_s` and answers the removed block (nil when unknown) |
| LegacyManagers.Manager.CallHooks | lib/hiptail.rb:634-638 | the dispatch loop does exactly what `CallHooksSpec` says: blocks in insertion order until one raises |
| LegacyManagers.Manager.HandleInstall | lib/hiptail.rb:578-584 | stores the authority before firing the install hooks with a context holding it |
| LegacyManagers.Manager.HandleUninstall | lib/hiptail.rb:586-592 | looks the authority up (nil when unknown), fires the uninstall hooks with it, then removes the id |
| LegacyManagers.Manager.HandleEvent | lib/hiptail.rb:594-620 | fires the event's categories in order with one shared context holding the event and the looked-up authority; the event's own `authority` stays unset |
| Util.Missing | lib/hiptail/util.rb:23-25 | the required names absent from the options, in the required order |
| Util.MissingAppend | lib/hiptail/util.rb:25 | selecting the missing names distributes over concatenation, so they keep the order in which they are listed |
| Util.MissingInRequiredOrder | lib/hiptail/util.rb:23-25 | with only key, base URL, capability URL and installed URL given, the missing names are `name` then `webhook_url` |
| Util.MissingMessage | lib/hiptail/util.rb:23-28 | the error then reads "missing parameters: name, webhook_url" |
| Util.CreateCapability | lib/hiptail/util.rb:22-28 | with a required option missing it raises "missing parameters: " and the missing names joined by ", "; success means all are present |
| Util.CapabilityBuilt | lib/hiptail/util.rb:22-54 | when the URL options convert to text, the descriptor is built exactly when every required option is present |
| Util.CapabilityDefaults | lib/hiptail/util.rb:33-46 | an absent or falsy description and sender name default to the name; vendor name and URL to the library's own constants; homepage to the base URL |
| Util.CapabilityFixed | lib/hiptail/util.rb:31-50 | key and name as given; the four fixed scopes; `allowGlobal`/`allowRoom` true when absent and verbatim otherwise |
| Util.CapabilityLinks | lib/hiptail/util.rb:39-51 | the self link and the installation callback are the given URLs through `to_s` |
| Util.CapabilityGiven | lib/hiptail/util.rb:33-46 | a given description, sender name or vendor name is used as is; a given vendor or homepage URL is used through `to_s` |
| Util.CapabilityWebhooks | lib/hiptail/util.rb:56-75 | five webhooks: room_notification, room_topic_change, room_enter, room_exit, room_message; each named after its event with the webhook URL; only the last has a pattern, exactly when `message_filter` is truthy |

## Left out

- The network: `Net::HTTP`, SSL and the `http`/`@client` caches, the OAuth2 client, and the `open-uri` fetch of the capability document. These are oracles: `Env.http`, `Env.tokenServer` and the `fetch` parameter.
- JSON: `JSON.generate` and `JSON.parse` are the oracles `Env.generateJson`, `Env.parseJson` and `fetch`. The request's query stays a list of pairs; `URI.encode_www_form` is not modelled.
- URI resolution: `api_base.merge(path)` is modelled as text concatenation of the base and the relative path. A room id or identity containing '/', '?', '#' or dot segments would resolve differently. The path's own query (`Uri.query`) is always empty for the paths the library builds. Two further cases of `URI::Generic#merge` are not captured:
  - A relative API base, that is one without a scheme, makes every API method (`authority.rb` lines 81, 91, 98, 109, 119, 129, 147 and 164) raise `URI::BadURIError` ("both URI are relative") before `call_api`, with no token fetched and nothing sent. Examples are "/" (what a nil `:api_base` becomes) and "api.example.com/v2/". The model instead fetches a token and sends the request to the concatenated path.
  - A base that carries its own query or fragment is resolved by RFC 3986 (section 5.2), which drops them. The model keeps them in the concatenated text.
- Authorities.Configure: does not model `URI.parse` (`authority.rb` line 58) raising `URI::InvalidURIError` for an API base that is not a valid URI, such as one containing a space; any text is accepted as the base, because URI syntax is not part of this model.
- `as_hash` stores the API base as a URI object; the model stores its text.
- `Time.parse` of message and room timestamps: `MessageDate`, `Created` and `LastActive` answer the raw text.
- Floats are not among the modelled values, and `to_s` of arrays and hashes (Ruby's inspect text) is an `Unsupported` error. `Hash#map` over a hash in `MapItems` is `Unsupported` too.
- The crash from the undefined `Event::RoomTopicChange`, `Message::Talk` and `Message::Notification` constants. As written, `handle_event` raises NameError for every event that is not a room-messaging event, right after the `event` hooks. The model treats the topic-change test as false instead.
- Managers.Manager.RegisterHook: priorities are integers or absent. Non-integer priorities, whose mixed-type `sort` would raise, are not modelled, and extra arguments after the priority are ignored.
- The registration shorthands `on_install` … `on_room_exit` are not modelled separately: each is `RegisterHook` with its category name.
- What a handler does besides returning or raising is left out: its side effects on the manager or the store during dispatch, its return value (`exit_value`), and any change it makes to what it was given. Handlers receive immutable values, so the model does not capture a hook that reassigns `hook_params.event` or `hook_params.authority` in the older manager (`hiptail.rb` lines 601-618 re-read `hook_params.event` after the `event` hooks, so such a hook changes what later hooks see and which categories fire), one that reassigns `event.authority` for later hooks in `manager.rb` (lines 157-181), or one that uses its authority (token fetches, requests) during install.
- The duplicate `User`, `Message`, `Room`, `Event`, `Authority` and provider classes in `lib/hiptail.rb` are modelled once, by the per-file versions.
- Managers.Manager, LegacyManagers.Manager: the `provider` field is typed as the in-memory store, so the model covers only a manager over `MemoryAuthorityProvider`. In the source, `params[:authority_provider]` (`manager.rb` line 16, `hiptail.rb` line 523) and `authority_provider=` (`manager.rb` lines 37-39) accept any provider. Not modelled:
  - A persistent store.
  - The abstract base passed as the store. Its `get`, `register` and `unregister` raise (`authority/provider.rb` lines 20-37), so every handler of such a manager raises.

  Dafny's means of expressing that choice (traits) are not used here. The abstract base's raising is modelled on its own in `Providers.AbstractAuthorityProvider`.
- The web layer (`web/handler.rb`, `web/rack_app.rb`), the SQLite store and the example applications are not part of this model.
- Memoisation in the atoms is invisible: the readers are pure functions of the raw copy. Only the event's `room`, `sender` and `message` memos are modelled as state.
- `dup` of a payload is the identity here, since model values are immutable.
