/**
 * The older authority stores, used by the single-file manager: the same
 * hash semantics as `Providers`, without the `[]`/`[]=` shorthands.
 */
module LegacyProviders {
  import opened Values

  /** The abstract store: every operation raises. */
  class AbstractAuthorityProvider<A> {
    constructor ()
    {
    }

    method Get(oauthId: Value) returns (r: Result<Option<A>>)
      ensures r == Err(RuntimeError("unhandled exception"))
    {
      r := Err(RuntimeError("unhandled exception"));
    }

    method Register(oauthId: Value, authority: A) returns (r: Result<A>)
      ensures r == Err(RuntimeError("unhandled exception"))
    {
      r := Err(RuntimeError("unhandled exception"));
    }

    method Unregister(oauthId: Value) returns (r: Result<Option<A>>)
      ensures r == Err(RuntimeError("unhandled exception"))
    {
      r := Err(RuntimeError("unhandled exception"));
    }
  }

  /** The in-memory store: a hash from OAuth id to authority. */
  class MemoryAuthorityProvider<A> {
    var authorities: map<Value, A>

    constructor ()
      ensures authorities == map[]
    {
      authorities := map[];
    }

    function Get(oauthId: Value): (r: Option<A>)
      reads this
      ensures r.Some? <==> oauthId in authorities
      ensures r.Some? ==> r.value == authorities[oauthId]
    {
      if oauthId in authorities then Some(authorities[oauthId]) else None
    }

    method Register(oauthId: Value, authority: A) returns (r: A)
      modifies this
      ensures authorities == old(authorities)[oauthId := authority]
      ensures r == authority
    {
      authorities := authorities[oauthId := authority];
      r := authority;
    }

    method Unregister(oauthId: Value) returns (r: Option<A>)
      modifies this
      ensures authorities == old(authorities) - {oauthId}
      ensures r == old(Get(oauthId))
    {
      r := Get(oauthId);
      authorities := authorities - {oauthId};
    }
  }

  /**
   * Register, overwrite and unregister of one id, observed through `get`:
   * the latest registration answers, removal answers nil, removing twice is
   * harmless, and another id keeps its entry throughout.
   */
  method RegisterThenGet<A(==)>(p: MemoryAuthorityProvider<A>, k: Value, a: A, b: A, other: Value)
    returns (afterFirst: Option<A>, afterSecond: Option<A>, afterRemoval: Option<A>, untouched: bool)
    requires other != k
    modifies p
    ensures afterFirst == Some(a) && afterSecond == Some(b) && afterRemoval == None
    ensures untouched
  {
    var before := p.Get(other);
    var _ := p.Register(k, a);
    afterFirst := p.Get(k);
    var _ := p.Register(k, b);
    afterSecond := p.Get(k);
    var _ := p.Unregister(k);
    afterRemoval := p.Get(k);
    var _ := p.Unregister(k);
    untouched := p.Get(other) == before;
  }
}
