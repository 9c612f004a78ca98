/** Token metadata: the override table and the live `symbol()`/`decimals()` fallback. */
module Metadata {
  import opened Outcomes
  import opened Ascii
  import opened Network

  datatype TokenMeta = TokenMeta(symbol: string, decimals: Decimals)

  /** The override table, keyed by lower-case address. */
  const Overrides: map<Address, TokenMeta> :=
    map["0x833589fcd6edb6e08f4c7c32d4f71b54bda02913" := TokenMeta("USDC", 6)]

  /** The override for a token, looked up by its lower-cased address. */
  function Override(addr: Address): (r: Option<TokenMeta>)
    ensures r.Some? <==> Lower(addr) in Overrides
    ensures r.Some? ==> r.value == Overrides[Lower(addr)]
  {
    if Lower(addr) in Overrides then Some(Overrides[Lower(addr)]) else None
  }

  /** A live metadata read made on the token contract. */
  datatype MetaCall = SymbolCall | DecimalsCall

  /** The metadata the balance listing settles on, with the live reads it made, in order. */
  datatype Resolution = Resolution(meta: Reply<TokenMeta>, calls: seq<MetaCall>)

  /** Override first; otherwise `symbol()` and then `decimals()`, the first throw ending the lookup. */
  function Resolve(addr: Address, st: ChainState): (r: Resolution)
    ensures Override(addr).Some? ==> r.calls == [] && r.meta == Ok(Override(addr).value)
    ensures Override(addr).None? ==> r.calls == if st.symbol(addr).Ok? then [SymbolCall, DecimalsCall] else [SymbolCall]
    ensures Override(addr).None? ==> (r.meta.Ok? <==> st.symbol(addr).Ok? && st.decimals(addr).Ok?)
    ensures Override(addr).None? && r.meta.Ok? ==>
              r.meta.value == TokenMeta(st.symbol(addr).value, st.decimals(addr).value)
  {
    match Override(addr)
    case Some(m) => Resolution(Ok(m), [])
    case None =>
      match st.symbol(addr)
      case Threw => Resolution(Threw, [SymbolCall])
      case Ok(s) =>
        match st.decimals(addr)
        case Threw => Resolution(Threw, [SymbolCall, DecimalsCall])
        case Ok(d) => Resolution(Ok(TokenMeta(s, d)), [SymbolCall, DecimalsCall])
  }

  /** An overridden token resolves the same on every chain state: nothing is read from the network. */
  lemma OverrideNeedsNoNetwork(addr: Address, st1: ChainState, st2: ChainState)
    requires Override(addr).Some?
    ensures Resolve(addr, st1) == Resolve(addr, st2)
    ensures Resolve(addr, st1).meta.Ok?
  {
  }

  /** The override of an address does not depend on its letter case: a checksummed (mixed-case),
      upper-case or lower-case spelling of the same address finds the same entry. */
  lemma OverrideIgnoresCase(addr: Address)
    ensures Override(Upper(addr)) == Override(addr)
    ensures Override(Lower(addr)) == Override(addr)
  {
    LowerOfUpper(addr);
    LowerIdempotent(addr);
  }
}
