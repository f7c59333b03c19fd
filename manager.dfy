/**
 * The hook registry and dispatcher. Each of ten categories holds a hash
 * from priority to the blocks registered at that priority, in registration
 * order. Dispatch runs the priorities in ascending order; a `break` out of a
 * block ends its own priority bucket only.
 */
module Managers {
  import opened Values
  import opened OrderedHash
  import opened Hooks
  import Events
  import Authorities
  import Providers

  /** One category's table: priority to blocks, in the order the priorities were first used. */
  type Table = Pairs<int, seq<Block>>

  /** The categories the registry is created with. */
  const Categories: seq<string> := [
    "install", "uninstall",
    "event",
    "room_messaging", "room_message", "room_notification",
    "room_topic_change",
    "room_visiting", "room_enter", "room_exit"]

  const DefaultPriority := 100

  /** The blocks registered at priority `k` (none when `k` was never used). */
  function Bucket(t: Table, k: int): seq<Block>
  {
    match Find(t, k)
    case Some(bs) => bs
    case None => []
  }

  function KeysOf(t: Table): (ks: seq<int>)
    ensures |ks| == |t|
    ensures forall i :: 0 <= i < |t| ==> ks[i] == t[i].0
  {
    if t == [] then [] else [t[0].0] + KeysOf(t[1..])
  }

  // ---------------------------------------------------------------------
  // Array#sort on the priorities

  predicate Ascending(s: seq<int>)
  {
    forall i, j :: 0 <= i < j < |s| ==> s[i] <= s[j]
  }

  function Insert(x: int, s: seq<int>): (r: seq<int>)
    requires Ascending(s)
    ensures |r| == |s| + 1
    ensures r[0] == x || (s != [] && r[0] == s[0])
    ensures Ascending(r)
    ensures multiset(r) == multiset(s) + multiset{x}
  {
    if s == [] then [x]
    else if x <= s[0] then
      InsertFront(x, s, [x] + s);
      [x] + s
    else
      var rest := Insert(x, s[1..]);
      assert s == [s[0]] + s[1..];
      InsertFront(s[0], rest, [s[0]] + rest);
      [s[0]] + rest
  }

  /** Putting an element no larger than the head in front keeps a sequence ascending. */
  lemma InsertFront(y: int, rest: seq<int>, r: seq<int>)
    requires Ascending(rest)
    requires rest != [] ==> y <= rest[0]
    requires r == [y] + rest
    ensures Ascending(r)
  {
    forall i, j | 0 <= i < j < |r| ensures r[i] <= r[j] {
      assert r[j] == rest[j - 1];
      if i > 0 {
        assert r[i] == rest[i - 1];
      } else {
        assert rest[0] <= rest[j - 1];
      }
    }
  }

  /** `sort`: ascending, and the same elements. */
  function Sort(s: seq<int>): (r: seq<int>)
    ensures Ascending(r)
    ensures multiset(r) == multiset(s)
  {
    if s == [] then []
    else
      assert s == [s[0]] + s[1..];
      Insert(s[0], Sort(s[1..]))
  }

  // ---------------------------------------------------------------------
  // What `call_hooks` does, as a function

  /**
   * One priority bucket: blocks run in order; `next` and `return` go on,
   * `break` ends the bucket, and any other exception ends the dispatch.
   */
  function RunBucket(category: string, blocks: seq<Block>, arg: HookArg, run: (Block, HookArg) -> Signal): Dispatch
  {
    if blocks == [] then Nothing
    else
      var s := run(blocks[0], arg);
      var here := [Call(category, blocks[0])];
      if s.Raised? && !IsRescuedJump(s) then Dispatch(here, Some(s.error))
      else if IsBreak(s) then Dispatch(here, None)
      else Then(Dispatch(here, None), RunBucket(category, blocks[1..], arg, run))
  }

  /** The buckets of `keys`, in that order. */
  function RunKeys(category: string, t: Table, keys: seq<int>, arg: HookArg, run: (Block, HookArg) -> Signal): Dispatch
  {
    if keys == [] then Nothing
    else Then(RunBucket(category, Bucket(t, keys[0]), arg, run), RunKeys(category, t, keys[1..], arg, run))
  }

  /** `call_hooks`: every bucket of the category, by ascending priority. */
  function CallHooksSpec(hook: map<string, Table>, category: string, arg: HookArg, run: (Block, HookArg) -> Signal): Dispatch
  {
    if category !in hook then Dispatch([], Some(NoMethodError("keys")))
    else RunKeys(category, hook[category], Sort(KeysOf(hook[category])), arg, run)
  }

  /** Several categories in a row, stopping at the first exception. */
  function CallSequence(hook: map<string, Table>, categories: seq<string>, arg: HookArg, run: (Block, HookArg) -> Signal): Dispatch
  {
    if categories == [] then Nothing
    else Then(CallHooksSpec(hook, categories[0], arg, run), CallSequence(hook, categories[1..], arg, run))
  }

  /** Within a bucket, while every block ends normally (or by `next`/`return`), every block runs, in order. */
  lemma {:induction false} BucketRunsAll(category: string, blocks: seq<Block>, arg: HookArg, run: (Block, HookArg) -> Signal)
    requires forall i :: 0 <= i < |blocks| ==> Continues(run(blocks[i], arg))
    ensures RunBucket(category, blocks, arg, run) == Dispatch(CallsOf(category, blocks), None)
  {
    if blocks != [] {
      BucketRunsAll(category, blocks[1..], arg, run);
    }
  }

  /**
   * The first block that neither ends normally nor by `next`/`return` is the
   * last of its bucket to run: after a `break` the dispatch goes on with the
   * next bucket; after any other exception it ends with that exception.
   */
  lemma {:induction false} BucketStopsAt(category: string, blocks: seq<Block>, arg: HookArg, run: (Block, HookArg) -> Signal, j: int)
    requires 0 <= j < |blocks|
    requires forall i :: 0 <= i < j ==> Continues(run(blocks[i], arg))
    requires !Continues(run(blocks[j], arg))
    ensures RunBucket(category, blocks, arg, run).ran == CallsOf(category, blocks[..j + 1])
    ensures IsBreak(run(blocks[j], arg)) ==> RunBucket(category, blocks, arg, run).failure == None
    ensures !IsBreak(run(blocks[j], arg)) ==> RunBucket(category, blocks, arg, run).failure == Some(run(blocks[j], arg).error)
  {
    if j == 0 {
      assert blocks[..1] == [blocks[0]];
    } else {
      BucketStopsAt(category, blocks[1..], arg, run, j - 1);
      assert blocks[1..][..j] == blocks[1..j + 1];
      assert blocks[..j + 1] == [blocks[0]] + blocks[1..j + 1];
    }
  }

  /** The calls of every bucket of `keys`, in order. */
  function AllCalls(category: string, t: Table, keys: seq<int>): seq<Call>
  {
    if keys == [] then [] else CallsOf(category, Bucket(t, keys[0])) + AllCalls(category, t, keys[1..])
  }

  /**
   * Across buckets: a bucket that ends without an exception (a `break`
   * included) is followed by the next one; one that ends with an exception
   * is the last to run.
   */
  lemma RunKeysStep(category: string, t: Table, keys: seq<int>, arg: HookArg, run: (Block, HookArg) -> Signal)
    requires keys != []
    ensures var first := RunBucket(category, Bucket(t, keys[0]), arg, run);
            var rest := RunKeys(category, t, keys[1..], arg, run);
            && (first.failure.None? ==> RunKeys(category, t, keys, arg, run) == Dispatch(first.ran + rest.ran, rest.failure))
            && (first.failure.Some? ==> RunKeys(category, t, keys, arg, run) == first)
  {
  }

  /** When no block raises, every block of every bucket runs, bucket by bucket in the order of `keys`. */
  lemma {:induction false} RunKeysRunsAll(category: string, t: Table, keys: seq<int>, arg: HookArg, run: (Block, HookArg) -> Signal)
    requires forall k, i :: k in keys && 0 <= i < |Bucket(t, k)| ==> run(Bucket(t, k)[i], arg).Returned?
    ensures RunKeys(category, t, keys, arg, run) == Dispatch(AllCalls(category, t, keys), None)
  {
    if keys != [] {
      BucketRunsAll(category, Bucket(t, keys[0]), arg, run);
      RunKeysRunsAll(category, t, keys[1..], arg, run);
    }
  }

  /**
   * `call_hooks` visits the priorities of the category in ascending order,
   * each exactly as often as the category uses it.
   */
  lemma DispatchOrder(t: Table)
    ensures Ascending(Sort(KeysOf(t)))
    ensures multiset(Sort(KeysOf(t))) == multiset(KeysOf(t))
    ensures forall k :: k in Sort(KeysOf(t)) <==> k in KeySet(t)
  {
    var ks := KeysOf(t);
    forall k ensures k in Sort(ks) <==> k in KeySet(t) {
      assert k in Sort(ks) <==> k in multiset(Sort(ks));
      assert k in ks <==> k in multiset(ks);
      if k in KeySet(t) {
        KeySetIndex(t, k);
      }
    }
  }

  /** Registering appends the block to its priority's bucket and leaves every other bucket as it was. */
  lemma RegisterAppends(t: Table, p: int, b: Block, q: int)
    ensures Bucket(Put(t, p, Bucket(t, p) + [b]), q) == if q == p then Bucket(t, p) + [b] else Bucket(t, q)
    ensures DistinctKeys(t) ==> DistinctKeys(Put(t, p, Bucket(t, p) + [b]))
  {
    FindPut(t, p, Bucket(t, p) + [b], q);
    PutShape(t, p, Bucket(t, p) + [b]);
  }

  /** One step of the inner loop of `call_hooks`, in terms of what is left to run. */
  lemma BucketStep(category: string, blocks: seq<Block>, j: int, arg: HookArg, run: (Block, HookArg) -> Signal, ran: seq<Call>)
    requires 0 <= j < |blocks|
    ensures var s := run(blocks[j], arg);
            var ran' := ran + [Call(category, blocks[j])];
            var cur := Then(Dispatch(ran, None), RunBucket(category, blocks[j..], arg, run));
            && (s.Raised? && !IsRescuedJump(s) ==> cur == Dispatch(ran', Some(s.error)))
            && (IsBreak(s) ==> cur == Dispatch(ran', None))
            && (Continues(s) ==> cur == Then(Dispatch(ran', None), RunBucket(category, blocks[j + 1..], arg, run)))
  {
    assert blocks[j..][1..] == blocks[j + 1..];
    var c := Dispatch([Call(category, blocks[j])], None);
    ThenLaws(Dispatch(ran, None), c, RunBucket(category, blocks[j + 1..], arg, run));
    ThenLaws(Dispatch(ran, None), c, Nothing);
  }

  /** One step of the outer loop of `call_hooks`. */
  lemma KeysStep(category: string, t: Table, keys: seq<int>, i: int, arg: HookArg, run: (Block, HookArg) -> Signal, ran: seq<Call>)
    requires 0 <= i < |keys|
    ensures Then(Dispatch(ran, None), RunKeys(category, t, keys[i..], arg, run))
         == Then(Dispatch(ran, None), Then(RunBucket(category, Bucket(t, keys[i]), arg, run), RunKeys(category, t, keys[i + 1..], arg, run)))
    ensures Then(Dispatch(ran, None), Then(RunBucket(category, [], arg, run), RunKeys(category, t, keys[i + 1..], arg, run)))
         == Then(Dispatch(ran, None), RunKeys(category, t, keys[i + 1..], arg, run))
  {
    assert keys[i..][1..] == keys[i + 1..];
    ThenLaws(RunKeys(category, t, keys[i + 1..], arg, run), Nothing, Nothing);
  }

  /** The dispatch of a list of one, two or three categories. */
  lemma CallSequenceUnfold(hook: map<string, Table>, cats: seq<string>, arg: HookArg, run: (Block, HookArg) -> Signal)
    requires 1 <= |cats| <= 3
    ensures |cats| == 1 ==> CallSequence(hook, cats, arg, run) == CallHooksSpec(hook, cats[0], arg, run)
    ensures |cats| == 2 ==>
              CallSequence(hook, cats, arg, run) == Then(CallHooksSpec(hook, cats[0], arg, run), CallHooksSpec(hook, cats[1], arg, run))
    ensures |cats| == 3 ==>
              CallSequence(hook, cats, arg, run)
              == Then(Then(CallHooksSpec(hook, cats[0], arg, run), CallHooksSpec(hook, cats[1], arg, run)), CallHooksSpec(hook, cats[2], arg, run))
  {
    var a := CallHooksSpec(hook, cats[0], arg, run);
    ThenLaws(a, Nothing, Nothing);
    if |cats| >= 2 {
      var b := CallHooksSpec(hook, cats[1], arg, run);
      assert cats[1..][1..] == cats[2..];
      ThenLaws(b, Nothing, Nothing);
      if |cats| == 3 {
        var c := CallHooksSpec(hook, cats[2], arg, run);
        assert cats[2..][1..] == [];
        ThenLaws(c, Nothing, Nothing);
        ThenLaws(a, b, c);
      }
    }
  }

  /**
   * The inner loop of `call_hooks`: the blocks of one bucket in order, after
   * the calls `ran0` already made; a `break` ends the bucket, any other
   * exception is answered as the failure.
   */
  method RunBlocks(category: string, blocks: seq<Block>, arg: HookArg, run: (Block, HookArg) -> Signal, ran0: seq<Call>)
    returns (ran: seq<Call>, failure: Option<Error>)
    ensures Dispatch(ran, failure) == Then(Dispatch(ran0, None), RunBucket(category, blocks, arg, run))
  {
    ghost var whole := Then(Dispatch(ran0, None), RunBucket(category, blocks, arg, run));
    ran := ran0;
    assert blocks[0..] == blocks;
    var j := 0;
    while j < |blocks|
      invariant 0 <= j <= |blocks|
      invariant Then(Dispatch(ran, None), RunBucket(category, blocks[j..], arg, run)) == whole
    {
      var signal := run(blocks[j], arg);
      var aborted := IsRescuedJump(signal);
      BucketStep(category, blocks, j, arg, run, ran);
      ran := ran + [Call(category, blocks[j])];
      if signal.Raised? && !aborted {
        return ran, Some(signal.error);
      }
      if IsBreak(signal) {
        return ran, None;
      }
      j := j + 1;
    }
    ThenLaws(Dispatch(ran, None), Nothing, Nothing);
    failure := None;
  }

  /**
   * The outer loop of `call_hooks` over the sorted priorities `keys`: each
   * bucket in turn, until one ends with an exception.
   */
  method RunPriorities(category: string, t: Table, keys: seq<int>, arg: HookArg, run: (Block, HookArg) -> Signal) returns (d: Dispatch)
    ensures d == RunKeys(category, t, keys, arg, run)
  {
    ghost var whole := RunKeys(category, t, keys, arg, run);
    var ran: seq<Call> := [];
    ThenLaws(whole, Nothing, Nothing);
    assert keys[0..] == keys;
    var i := 0;
    while i < |keys|
      invariant 0 <= i <= |keys|
      invariant Then(Dispatch(ran, None), RunKeys(category, t, keys[i..], arg, run)) == whole
    {
      KeysStep(category, t, keys, i, arg, run, ran);
      ghost var before := ran;
      ghost var bucket := RunBucket(category, Bucket(t, keys[i]), arg, run);
      ghost var later := RunKeys(category, t, keys[i + 1..], arg, run);
      var failure;
      ran, failure := RunBlocks(category, Bucket(t, keys[i]), arg, run, ran);
      ThenLaws(Dispatch(before, None), bucket, later);
      if failure.Some? {
        return Dispatch(ran, failure);
      }
      i := i + 1;
    }
    ThenLaws(Dispatch(ran, None), Nothing, Nothing);
    d := Dispatch(ran, None);
  }

  /** `Manager`: the category tables and the authority store. */
  class Manager {
    var provider: Providers.MemoryAuthorityProvider<Authorities.Authority>
    var hook: map<string, Table>

    /** Exactly the ten categories, each a hash. */
    ghost predicate Valid()
      reads this
    {
      && hook.Keys == set c | c in Categories
      && forall c :: c in hook ==> DistinctKeys(hook[c])
    }

    /** `new`: every category empty; a fresh in-memory store unless one is given. */
    constructor (given: Providers.MemoryAuthorityProvider?<Authorities.Authority>)
      ensures Valid()
      ensures forall c :: c in hook ==> hook[c] == []
      ensures given != null ==> provider == given
      ensures given == null ==> fresh(provider) && provider.authorities == map[]
    {
      if given != null {
        provider := given;
      } else {
        provider := new Providers.MemoryAuthorityProvider<Authorities.Authority>();
      }
      hook := map c | c in Categories :: [];
    }

    /** `authority_provider=`. */
    method SetAuthorityProvider(p: Providers.MemoryAuthorityProvider<Authorities.Authority>)
      modifies this`provider
      ensures provider == p
    {
      provider := p;
    }

    /** `authority[oauth_id]`: the store's lookup. */
    function AuthorityFor(oauthId: Value): (a: Authorities.Authority?)
      reads this, provider
      ensures a != null <==> oauthId in provider.authorities
      ensures a != null ==> a == provider.authorities[oauthId]
    {
      match provider.Get(oauthId)
      case Some(a) => a
      case None => null
    }

    /**
     * `register_hook`: appends the block to the bucket of its priority (100
     * when none is given) and answers the bucket; an unknown category raises.
     */
    method RegisterHook(category: string, priority: Option<int>, block: Block) returns (r: Result<seq<Block>>)
      requires Valid()
      modifies this`hook
      ensures Valid()
      ensures category !in old(hook) ==> r == Err(NoMethodError("[]")) && hook == old(hook)
      ensures category in old(hook) ==>
                var p := if priority.Some? then priority.value else DefaultPriority;
                && r == Ok(Bucket(old(hook)[category], p) + [block])
                && hook == old(hook)[category := Put(old(hook)[category], p, r.value)]
    {
      if category !in hook {
        return Err(NoMethodError("[]"));
      }
      var p := if priority.Some? then priority.value else DefaultPriority;
      var t := hook[category];
      var bucket := Bucket(t, p) + [block];
      RegisterAppends(t, p, block, p);
      hook := hook[category := Put(t, p, bucket)];
      r := Ok(bucket);
    }

    /** `call_hooks`: the priorities in ascending order, each bucket's blocks in registration order. */
    method CallHooks(category: string, arg: HookArg, run: (Block, HookArg) -> Signal) returns (d: Dispatch)
      ensures d == CallHooksSpec(hook, category, arg, run)
    {
      if category !in hook {
        return Dispatch([], Some(NoMethodError("keys")));
      }
      var keys := Sort(KeysOf(hook[category]));
      d := RunPriorities(category, hook[category], keys, arg, run);
    }

    /**
     * `handle_install`: builds the authority from the request and the
     * capability document, stores it under its OAuth id, then fires the
     * install hooks with it.
     */
    method HandleInstall(params: Value, fetch: Value -> Result<Value>, run: (Block, HookArg) -> Signal)
      returns (a: Authorities.Authority?, d: Dispatch)
      requires Valid()
      modifies provider
      ensures Valid()
      ensures var s := InstallSettings(params, fetch);
        && (s.Err? ==> a == null && d == Dispatch([], Some(s.error)) && provider.authorities == old(provider.authorities))
        && (s.Ok? && Authorities.Configure(s.value).Err? ==>
              a == null && d == Dispatch([], Some(Authorities.Configure(s.value).error))
              && provider.authorities == old(provider.authorities))
        && (s.Ok? && Authorities.Configure(s.value).Ok? ==>
              && a != null && fresh(a) && a.cfg == Authorities.Configure(s.value).value
              && provider.authorities == old(provider.authorities)[a.cfg.oauthId := a]
              && d == CallHooksSpec(hook, "install", InstallArg(a), run))
    {
      var settings := InstallSettings(params, fetch);
      if settings.Err? {
        return null, Dispatch([], Some(settings.error));
      }
      var built := Authorities.Authority.New(settings.value);
      if built.Err? {
        return null, Dispatch([], Some(built.error));
      }
      a := built.value;
      var _ := provider.Register(a.OAuthId(), a);
      d := CallHooks("install", InstallArg(a), run);
    }

    /**
     * `handle_uninstall`: fires the uninstall hooks with the OAuth id, then
     * removes the id from the store (harmless when absent); a hook that
     * raises leaves the store as it was.
     */
    method HandleUninstall(oauthId: Value, run: (Block, HookArg) -> Signal) returns (d: Dispatch)
      requires Valid()
      modifies provider
      ensures Valid()
      ensures d == CallHooksSpec(hook, "uninstall", UninstallArg(oauthId), run)
      ensures provider.authorities == if d.failure.None? then old(provider.authorities) - {oauthId} else old(provider.authorities)
    {
      d := CallHooks("uninstall", UninstallArg(oauthId), run);
      if d.failure.None? {
        var _ := provider.Unregister(oauthId);
      }
    }

    /**
     * `handle_event`: parses the payload, attaches the store's authority for
     * its `oauth_client_id`, then fires the categories of its class in order.
     */
    method HandleEvent(params: Value, run: (Block, HookArg) -> Signal) returns (e: Events.Event?, d: Dispatch)
      requires Valid()
      ensures Events.ParseClass(params).Err? ==> e == null && d == Dispatch([], Some(Events.ParseClass(params).error))
      ensures Events.ParseClass(params).Ok? ==>
        && e != null && fresh(e) && e.cls == Events.ParseClass(params).value && e.raw == params
        && (e.OAuthClientId().Err? ==> d == Dispatch([], Some(e.OAuthClientId().error)))
        && (e.OAuthClientId().Ok? ==>
              && e.authority == AuthorityFor(e.OAuthClientId().value)
              && d == CallSequence(hook, EventCategories(e.cls), EventArg(e), run))
    {
      var parsed := Events.Event.Parse(params);
      if parsed.Err? {
        return null, Dispatch([], Some(parsed.error));
      }
      e := parsed.value;
      var id := e.OAuthClientId();
      if id.Err? {
        return e, Dispatch([], Some(id.error));
      }
      e.SetAuthority(AuthorityFor(id.value));
      var arg := EventArg(e);
      EventCategoriesOrder(e.cls);
      CallSequenceUnfold(hook, EventCategories(e.cls), arg, run);
      d := CallHooks("event", arg, run);
      if d.failure.Some? {
        return;
      }
      if Events.IsMessaging(e.cls) {
        var d2 := CallHooks("room_messaging", arg, run);
        d := Then(d, d2);
        if d.failure.Some? {
          return;
        }
        if e.cls == Events.RoomMessage {
          var d3 := CallHooks("room_message", arg, run);
          d := Then(d, d3);
        } else if e.cls == Events.RoomNotification {
          var d3 := CallHooks("room_notification", arg, run);
          d := Then(d, d3);
        }
      } else if Events.IsVisiting(e.cls) {
        var d2 := CallHooks("room_visiting", arg, run);
        d := Then(d, d2);
        if d.failure.Some? {
          return;
        }
        if e.cls == Events.RoomEnter {
          var d3 := CallHooks("room_enter", arg, run);
          d := Then(d, d3);
        } else if e.cls == Events.RoomExit {
          var d3 := CallHooks("room_exit", arg, run);
          d := Then(d, d3);
        }
      }
    }
  }
}
