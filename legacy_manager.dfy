/**
 * The manager of the older single-file library. Its registry differs from
 * the current one: each of nine categories (there is no topic-change
 * category) is a hash from hook id to block, dispatched in insertion
 * order, with no priorities and no rescue of jumps; hooks can be removed by
 * id. All hooks of one request share one context object.
 */
module LegacyManagers {
  import opened Values
  import opened OrderedHash
  import opened Hooks
  import Events
  import Authorities
  import LegacyProviders

  /** One category's table: hook id to block, in insertion order. */
  type Table = Pairs<Value, Block>

  const Categories: seq<string> := [
    "install", "uninstall",
    "event",
    "room_messaging", "room_message", "room_notification",
    "room_visiting", "room_enter", "room_exit"]

  /** `hash.values`: the blocks in insertion order. */
  function BlocksOf(t: Table): (bs: seq<Block>)
    ensures |bs| == |t|
    ensures forall i :: 0 <= i < |t| ==> bs[i] == t[i].1
  {
    if t == [] then [] else [t[0].1] + BlocksOf(t[1..])
  }

  /** The blocks in order; the first that raises anything (a jump included) ends the dispatch. */
  function RunAll(category: string, blocks: seq<Block>, arg: HookArg, run: (Block, HookArg) -> Signal): Dispatch
  {
    if blocks == [] then Nothing
    else
      var here := [Call(category, blocks[0])];
      match run(blocks[0], arg)
      case Raised(e) => Dispatch(here, Some(e))
      case Returned => Then(Dispatch(here, None), RunAll(category, blocks[1..], arg, run))
  }

  /** `call_hooks`: the category's blocks, in insertion order. */
  function CallHooksSpec(hook: map<string, Table>, category: string, arg: HookArg, run: (Block, HookArg) -> Signal): Dispatch
  {
    if category !in hook then Dispatch([], Some(NoMethodError("values")))
    else RunAll(category, BlocksOf(hook[category]), arg, run)
  }

  function CallSequence(hook: map<string, Table>, categories: seq<string>, arg: HookArg, run: (Block, HookArg) -> Signal): Dispatch
  {
    if categories == [] then Nothing
    else Then(CallHooksSpec(hook, categories[0], arg, run), CallSequence(hook, categories[1..], arg, run))
  }

  /** Every block runs, in insertion order, when none raises. */
  lemma {:induction false} RunAllInOrder(category: string, blocks: seq<Block>, arg: HookArg, run: (Block, HookArg) -> Signal)
    requires forall i :: 0 <= i < |blocks| ==> run(blocks[i], arg).Returned?
    ensures RunAll(category, blocks, arg, run) == Dispatch(CallsOf(category, blocks), None)
  {
    if blocks != [] {
      RunAllInOrder(category, blocks[1..], arg, run);
    }
  }

  /**
   * The first block that raises, whatever it raises (a `break` included),
   * is the last to run, and its exception ends the dispatch.
   */
  lemma {:induction false} RunAllStopsAt(category: string, blocks: seq<Block>, arg: HookArg, run: (Block, HookArg) -> Signal, j: int)
    requires 0 <= j < |blocks|
    requires forall i :: 0 <= i < j ==> run(blocks[i], arg).Returned?
    requires run(blocks[j], arg).Raised?
    ensures RunAll(category, blocks, arg, run) == Dispatch(CallsOf(category, blocks[..j + 1]), Some(run(blocks[j], arg).error))
  {
    if j == 0 {
      assert blocks[..1] == [blocks[0]];
    } else {
      RunAllStopsAt(category, blocks[1..], arg, run, j - 1);
      assert blocks[1..][..j] == blocks[1..j + 1];
      assert blocks[..j + 1] == [blocks[0]] + blocks[1..j + 1];
    }
  }

  lemma {:induction false} PutReplaces<K, V>(t: Pairs<K, V>, k: K, v: V)
    requires k in KeySet(t) && DistinctKeys(t)
    ensures |Put(t, k, v)| == |t|
    ensures forall i :: 0 <= i < |t| ==> Put(t, k, v)[i] == if t[i].0 == k then (k, v) else t[i]
  {
    if t[0].0 != k {
      assert k in KeySet(t[1..]);
      PutReplaces(t[1..], k, v);
    } else {
      forall i | 0 < i < |t| ensures t[i].0 != k {
      }
    }
  }

  /**
   * Registering under an id already in use replaces that block where it
   * stands, so it keeps its turn in dispatch; a new id is dispatched last.
   */
  lemma RegisterPosition(t: Table, id: Value, b: Block)
    requires DistinctKeys(t)
    ensures id in KeySet(t) ==>
              && |BlocksOf(Put(t, id, b))| == |t|
              && forall i :: 0 <= i < |t| ==> BlocksOf(Put(t, id, b))[i] == if t[i].0 == id then b else t[i].1
    ensures id !in KeySet(t) ==> BlocksOf(Put(t, id, b)) == BlocksOf(t) + [b]
    ensures DistinctKeys(Put(t, id, b))
  {
    PutShape(t, id, b);
    if id in KeySet(t) {
      PutReplaces(t, id, b);
    }
  }

  /**
   * `unregister_hook` deletes by `hook_id.to_s` while `register_hook` stores
   * under the id as given: a hook registered under the integer id `i` is
   * still there after `unregister_hook` with that same integer.
   */
  lemma IntegerIdSurvivesUnregister(t: Table, i: int, b: Block)
    ensures ToS(Int(i)).Ok?
    ensures Find(Deleted(Put(t, Int(i), b), Str(ToS(Int(i)).value)), Int(i)) == Some(b)
  {
    FindPut(t, Int(i), b, Int(i));
    FindDelete(Put(t, Int(i), b), Str(ToS(Int(i)).value), Int(i));
  }

  /** The older `Manager`. */
  class Manager {
    var provider: LegacyProviders.MemoryAuthorityProvider<Authorities.Authority>
    var hook: map<string, Table>

    ghost predicate Valid()
      reads this
    {
      && hook.Keys == set c | c in Categories
      && forall c :: c in hook ==> DistinctKeys(hook[c])
    }

    /** `new`: nine empty categories; a fresh store unless one is given. */
    constructor (given: LegacyProviders.MemoryAuthorityProvider?<Authorities.Authority>)
      ensures Valid()
      ensures forall c :: c in hook ==> hook[c] == []
      ensures given != null ==> provider == given
      ensures given == null ==> fresh(provider) && provider.authorities == map[]
    {
      if given != null {
        provider := given;
      } else {
        provider := new LegacyProviders.MemoryAuthorityProvider<Authorities.Authority>();
      }
      hook := map c | c in Categories :: [];
    }

    /** `authority[oauth_id]`. */
    function AuthorityFor(oauthId: Value): (a: Authorities.Authority?)
      reads this, provider
      ensures a != null <==> oauthId in provider.authorities
      ensures a != null ==> a == provider.authorities[oauthId]
    {
      match provider.Get(oauthId)
      case Some(a) => a
      case None => null
    }

    /**
     * `register_hook`: stores the block under the given id, or under its
     * object id as text when none is given, and answers the id.
     */
    method RegisterHook(category: string, block: Block, hookId: Value) returns (r: Result<Value>)
      requires Valid()
      modifies this`hook
      ensures Valid()
      ensures category !in old(hook) ==> r == Err(NoMethodError("[]=")) && hook == old(hook)
      ensures category in old(hook) ==>
                && r == Ok(if Truthy(hookId) then hookId else Str(IntToString(block.objectId)))
                && hook == old(hook)[category := Put(old(hook)[category], r.value, block)]
    {
      var id := Or(hookId, Str(IntToString(block.objectId)));
      if category !in hook {
        return Err(NoMethodError("[]="));
      }
      RegisterPosition(hook[category], id, block);
      hook := hook[category := Put(hook[category], id, block)];
      r := Ok(id);
    }

    /** `unregister_hook`: deletes the entry under `hook_id.to_s` (nil gives ""), answering the removed block. */
    method UnregisterHook(category: string, hookId: Value) returns (r: Result<Option<Block>>)
      requires Valid()
      modifies this`hook
      ensures Valid()
      ensures ToS(hookId).Err? ==> r == Err(ToS(hookId).error) && hook == old(hook)
      ensures ToS(hookId).Ok? && category !in old(hook) ==> r == Err(NoMethodError("delete")) && hook == old(hook)
      ensures ToS(hookId).Ok? && category in old(hook) ==>
                var key := Str(ToS(hookId).value);
                && r == Ok(Find(old(hook)[category], key))
                && hook == old(hook)[category := Deleted(old(hook)[category], key)]
    {
      var text := ToS(hookId);
      if text.Err? {
        return Err(text.error);
      }
      if category !in hook {
        return Err(NoMethodError("delete"));
      }
      var key := Str(text.value);
      var t := hook[category];
      DeleteDistinct(t, key);
      var updated := hook[category := Deleted(t, key)];
      assert updated.Keys == hook.Keys;
      hook := updated;
      r := Ok(Find(t, key));
    }

    /** `call_hooks`: the category's blocks in insertion order until one raises. */
    method CallHooks(category: string, arg: HookArg, run: (Block, HookArg) -> Signal) returns (d: Dispatch)
      ensures d == CallHooksSpec(hook, category, arg, run)
    {
      if category !in hook {
        return Dispatch([], Some(NoMethodError("values")));
      }
      var blocks := BlocksOf(hook[category]);
      ghost var whole := RunAll(category, blocks, arg, run);
      var ran: seq<Call> := [];
      ThenLaws(whole, Nothing, Nothing);
      assert blocks[0..] == blocks;
      var j := 0;
      while j < |blocks|
        invariant 0 <= j <= |blocks|
        invariant Then(Dispatch(ran, None), RunAll(category, blocks[j..], arg, run)) == whole
      {
        assert blocks[j..][1..] == blocks[j + 1..];
        var here := Dispatch([Call(category, blocks[j])], None);
        ThenLaws(Dispatch(ran, None), here, RunAll(category, blocks[j + 1..], arg, run));
        var signal := run(blocks[j], arg);
        ran := ran + [Call(category, blocks[j])];
        if signal.Raised? {
          return Dispatch(ran, Some(signal.error));
        }
        j := j + 1;
      }
      ThenLaws(Dispatch(ran, None), Nothing, Nothing);
      d := Dispatch(ran, None);
    }

    /** `handle_install`: stores the new authority, then fires the install hooks with a context holding it. */
    method HandleInstall(params: Value, fetch: Value -> Result<Value>, run: (Block, HookArg) -> Signal)
      returns (a: Authorities.Authority?, d: Dispatch)
      requires Valid()
      modifies provider
      ensures Valid()
      ensures var s := InstallSettings(params, fetch);
        && (s.Err? ==> a == null && d == Dispatch([], Some(s.error)) && provider.authorities == old(provider.authorities))
        && (s.Ok? && Authorities.Configure(s.value).Err? ==>
              a == null && d == Dispatch([], Some(Authorities.Configure(s.value).error))
              && provider.authorities == old(provider.authorities))
        && (s.Ok? && Authorities.Configure(s.value).Ok? ==>
              && a != null && fresh(a) && a.cfg == Authorities.Configure(s.value).value
              && provider.authorities == old(provider.authorities)[a.cfg.oauthId := a]
              && d == CallHooksSpec(hook, "install", Context(null, a), run))
    {
      var settings := InstallSettings(params, fetch);
      if settings.Err? {
        return null, Dispatch([], Some(settings.error));
      }
      var built := Authorities.Authority.New(settings.value);
      if built.Err? {
        return null, Dispatch([], Some(built.error));
      }
      a := built.value;
      var _ := provider.Register(a.OAuthId(), a);
      d := CallHooks("install", Context(null, a), run);
    }

    /**
     * `handle_uninstall`: looks the authority up first (nil when unknown),
     * fires the uninstall hooks with it, then removes the id.
     */
    method HandleUninstall(oauthId: Value, run: (Block, HookArg) -> Signal) returns (d: Dispatch)
      requires Valid()
      modifies provider
      ensures Valid()
      ensures d == CallHooksSpec(hook, "uninstall", Context(null, old(AuthorityFor(oauthId))), run)
      ensures provider.authorities == if d.failure.None? then old(provider.authorities) - {oauthId} else old(provider.authorities)
    {
      var authority := AuthorityFor(oauthId);
      d := CallHooks("uninstall", Context(null, authority), run);
      if d.failure.None? {
        var _ := provider.Unregister(oauthId);
      }
    }

    /**
     * `handle_event`: every category of the event's class, in order, with
     * one shared context holding the event and the store's authority for
     * its `oauth_client_id`. The event's own `authority` is left unset.
     */
    method HandleEvent(params: Value, run: (Block, HookArg) -> Signal) returns (e: Events.Event?, d: Dispatch)
      requires Valid()
      ensures Events.ParseClass(params).Err? ==> e == null && d == Dispatch([], Some(Events.ParseClass(params).error))
      ensures Events.ParseClass(params).Ok? ==>
        && e != null && fresh(e) && e.cls == Events.ParseClass(params).value && e.raw == params && e.authority == null
        && (e.OAuthClientId().Err? ==> d == Dispatch([], Some(e.OAuthClientId().error)))
        && (e.OAuthClientId().Ok? ==>
              d == CallSequence(hook, EventCategories(e.cls), Context(e, AuthorityFor(e.OAuthClientId().value)), run))
    {
      var parsed := Events.Event.Parse(params);
      if parsed.Err? {
        return null, Dispatch([], Some(parsed.error));
      }
      e := parsed.value;
      var id := e.OAuthClientId();
      if id.Err? {
        return e, Dispatch([], Some(id.error));
      }
      var arg := Context(e, AuthorityFor(id.value));
      EventCategoriesOrder(e.cls);
      SequenceUnfold(hook, EventCategories(e.cls), arg, run);
      d := CallHooks("event", arg, run);
      if d.failure.Some? {
        return;
      }
      if Events.IsMessaging(e.cls) {
        var d2 := CallHooks("room_messaging", arg, run);
        d := Then(d, d2);
        if d.failure.Some? {
          return;
        }
        if e.cls == Events.RoomMessage {
          var d3 := CallHooks("room_message", arg, run);
          d := Then(d, d3);
        } else if e.cls == Events.RoomNotification {
          var d3 := CallHooks("room_notification", arg, run);
          d := Then(d, d3);
        }
      } else if Events.IsVisiting(e.cls) {
        var d2 := CallHooks("room_visiting", arg, run);
        d := Then(d, d2);
        if d.failure.Some? {
          return;
        }
        if e.cls == Events.RoomEnter {
          var d3 := CallHooks("room_enter", arg, run);
          d := Then(d, d3);
        } else if e.cls == Events.RoomExit {
          var d3 := CallHooks("room_exit", arg, run);
          d := Then(d, d3);
        }
      }
    }
  }

  lemma SequenceUnfold(hook: map<string, Table>, cats: seq<string>, arg: HookArg, run: (Block, HookArg) -> Signal)
    requires 1 <= |cats| <= 3
    ensures |cats| == 1 ==> CallSequence(hook, cats, arg, run) == CallHooksSpec(hook, cats[0], arg, run)
    ensures |cats| == 2 ==>
              CallSequence(hook, cats, arg, run) == Then(CallHooksSpec(hook, cats[0], arg, run), CallHooksSpec(hook, cats[1], arg, run))
    ensures |cats| == 3 ==>
              CallSequence(hook, cats, arg, run)
              == Then(Then(CallHooksSpec(hook, cats[0], arg, run), CallHooksSpec(hook, cats[1], arg, run)), CallHooksSpec(hook, cats[2], arg, run))
  {
    var a := CallHooksSpec(hook, cats[0], arg, run);
    ThenLaws(a, Nothing, Nothing);
    if |cats| >= 2 {
      var b := CallHooksSpec(hook, cats[1], arg, run);
      assert cats[1..][1..] == cats[2..];
      ThenLaws(b, Nothing, Nothing);
      if |cats| == 3 {
        var c := CallHooksSpec(hook, cats[2], arg, run);
        assert cats[2..][1..] == [];
        ThenLaws(c, Nothing, Nothing);
        ThenLaws(a, b, c);
      }
    }
  }
}
