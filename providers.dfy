/**
 * Authority stores: where a manager keeps each installation's authority,
 * keyed by the installation's OAuth id. The abstract base raises on every
 * operation; the in-memory store is a hash.
 */
module Providers {
  import opened Values

  /** The abstract `AuthorityProvider`: `get`, `register` and `unregister` all raise. */
  class AbstractAuthorityProvider<A> {
    constructor ()
    {
    }

    method Get(oauthId: Value) returns (r: Result<Option<A>>)
      ensures r == Err(RuntimeError("unhandled exception"))
    {
      r := Err(RuntimeError("unhandled exception"));
    }

    method Register(oauthId: Value, authority: A) returns (r: Result<A>)
      ensures r == Err(RuntimeError("unhandled exception"))
    {
      r := Err(RuntimeError("unhandled exception"));
    }

    method Unregister(oauthId: Value) returns (r: Result<Option<A>>)
      ensures r == Err(RuntimeError("unhandled exception"))
    {
      r := Err(RuntimeError("unhandled exception"));
    }

    /** `[]` delegates to `get`. */
    method At(oauthId: Value) returns (r: Result<Option<A>>)
      ensures r == Err(RuntimeError("unhandled exception"))
    {
      r := Get(oauthId);
    }

    /** `[]=` delegates to `register`. */
    method SetAt(oauthId: Value, authority: A) returns (r: Result<A>)
      ensures r == Err(RuntimeError("unhandled exception"))
    {
      r := Register(oauthId, authority);
    }
  }

  /** `MemoryAuthorityProvider`: a hash from OAuth id to authority. */
  class MemoryAuthorityProvider<A> {
    var authorities: map<Value, A>

    /** A new store is empty. */
    constructor ()
      ensures authorities == map[]
    {
      authorities := map[];
    }

    /** `get`: the stored authority, or nil. */
    function Get(oauthId: Value): (r: Option<A>)
      reads this
      ensures r.Some? <==> oauthId in authorities
      ensures r.Some? ==> r.value == authorities[oauthId]
    {
      if oauthId in authorities then Some(authorities[oauthId]) else None
    }

    /** `register`: stores (or replaces) the entry for `oauthId` and answers the authority. */
    method Register(oauthId: Value, authority: A) returns (r: A)
      modifies this
      ensures authorities == old(authorities)[oauthId := authority]
      ensures r == authority
    {
      authorities := authorities[oauthId := authority];
      r := authority;
    }

    /** `unregister`: removes the entry when there is one, and answers what was removed. */
    method Unregister(oauthId: Value) returns (r: Option<A>)
      modifies this
      ensures authorities == old(authorities) - {oauthId}
      ensures r == old(Get(oauthId))
    {
      r := Get(oauthId);
      authorities := authorities - {oauthId};
    }

    /** `[]` delegates to `get`. */
    function At(oauthId: Value): (r: Option<A>)
      reads this
      ensures r == Get(oauthId)
    {
      Get(oauthId)
    }

    /** `[]=` delegates to `register`. */
    method SetAt(oauthId: Value, authority: A) returns (r: A)
      modifies this
      ensures authorities == old(authorities)[oauthId := authority]
      ensures r == authority
    {
      r := Register(oauthId, authority);
    }
  }

  /**
   * The store's laws, as a sequence of calls: a lookup after `register`
   * answers the registered authority, a second registration overwrites the
   * first, a lookup after `unregister` answers nil, unregistering an absent
   * id is harmless, and none of it touches any other id.
   */
  method RegisterThenGet<A(==)>(p: MemoryAuthorityProvider<A>, k: Value, a: A, b: A, other: Value)
    returns (afterFirst: Option<A>, afterSecond: Option<A>, afterRemoval: Option<A>, untouched: bool)
    requires other != k
    modifies p
    ensures afterFirst == Some(a) && afterSecond == Some(b) && afterRemoval == None
    ensures untouched
  {
    var before := p.Get(other);
    var _ := p.Register(k, a);
    afterFirst := p.Get(k);
    var _ := p.Register(k, b);
    afterSecond := p.At(k);
    var _ := p.Unregister(k);
    afterRemoval := p.Get(k);
    var _ := p.Unregister(k);
    untouched := p.Get(other) == before;
  }
}
