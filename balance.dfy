/** The balance card of the selected chain: the native line, then one entry per whitelisted token. */
module Balance {
  import opened Outcomes
  import opened Registry
  import opened Network
  import opened Metadata
  import opened Prices

  /** A token's line: its symbol, raw balance, decimals and USD worth, or the error notice naming it. */
  datatype Entry = TokenEntry(symbol: string, raw: nat, decimals: nat, usd: real) | ErrorEntry(addr: Address)

  /** The native balance in wei and its USD worth. */
  datatype NativeLine = NativeLine(wei: nat, usd: real)

  /** What the card shows: the load-failure notice, or the native line and the token entries. */
  datatype Display = LoadFailed | Shown(native: NativeLine, tokens: seq<Entry>)

  /** The entry of one token: metadata first (override or live), then `balanceOf`;
      a throw in either turns the entry into the error notice. */
  function TokenLine(addr: Address, st: ChainState, prices: PriceTable): (e: Entry)
    ensures e.ErrorEntry? <==> Resolve(addr, st).meta.Threw? || st.balanceOf(addr).Threw?
    ensures e.ErrorEntry? ==> e.addr == addr
    ensures e.TokenEntry? ==>
              var m := Resolve(addr, st).meta.value;
              e == TokenEntry(m.symbol, st.balanceOf(addr).value, m.decimals,
                              UsdValue(st.balanceOf(addr).value, m.decimals, PriceOf(prices, m.symbol)))
  {
    match Resolve(addr, st).meta
    case Threw => ErrorEntry(addr)
    case Ok(m) =>
      match st.balanceOf(addr)
      case Threw => ErrorEntry(addr)
      case Ok(raw) => TokenEntry(m.symbol, raw, m.decimals, UsdValue(raw, m.decimals, PriceOf(prices, m.symbol)))
  }

  /** Two chain states that answer the same for token `addr`. */
  ghost predicate SameTokenReads(addr: Address, st1: ChainState, st2: ChainState)
  {
    st1.symbol(addr) == st2.symbol(addr) &&
    st1.decimals(addr) == st2.decimals(addr) &&
    st1.balanceOf(addr) == st2.balanceOf(addr)
  }

  /** A token whose reads throw costs only its own entry: every other token's entry is as it was,
      and the failing one still appears, as the error notice naming it. */
  lemma OneBadTokenHidesNothing(tokens: seq<Address>, bad: Address, st1: ChainState, st2: ChainState, prices: PriceTable)
    requires forall a :: a != bad ==> SameTokenReads(a, st1, st2)
    requires st2.balanceOf(bad).Threw?
    ensures forall i :: 0 <= i < |tokens| && tokens[i] != bad ==>
              TokenLine(tokens[i], st1, prices) == TokenLine(tokens[i], st2, prices)
    ensures forall i :: 0 <= i < |tokens| && tokens[i] == bad ==>
              TokenLine(tokens[i], st2, prices) == ErrorEntry(bad)
  {
    forall i | 0 <= i < |tokens| && tokens[i] != bad
      ensures TokenLine(tokens[i], st1, prices) == TokenLine(tokens[i], st2, prices)
    {
      assert SameTokenReads(tokens[i], st1, st2);
    }
  }

  /** A token the vault holds none of is listed at zero dollars, whatever its price. */
  lemma ZeroBalanceIsWorthNothing(addr: Address, st: ChainState, prices: PriceTable)
    requires st.balanceOf(addr) == Ok(0)
    requires Resolve(addr, st).meta.Ok?
    ensures TokenLine(addr, st, prices).TokenEntry? && TokenLine(addr, st, prices).usd == 0.0
  {
  }

  method UpdateBalance(chain: Chain, fetched: Reply<Feed>, st: ChainState) returns (d: Display)
    ensures d == LoadFailed <==> fetched.Threw? || st.native.Threw? || st.tokenList.Threw?
    ensures d.Shown? ==>
              var prices := FetchPrices(fetched).value;
              d.native == NativeLine(st.native.value, UsdValue(st.native.value, 18, NativePrice(chain, prices)))
    ensures d.Shown? ==> |d.tokens| == |st.tokenList.value|
    ensures d.Shown? ==> forall i :: 0 <= i < |d.tokens| ==>
              d.tokens[i] == TokenLine(st.tokenList.value[i], st, FetchPrices(fetched).value)
  {
    var prices := FetchPrices(fetched);
    if prices.Threw? {
      return LoadFailed;
    }
    if st.native.Threw? {
      return LoadFailed;
    }
    var nativeBal := st.native.value;
    var native := NativeLine(nativeBal, UsdValue(nativeBal, 18, NativePrice(chain, prices.value)));
    if st.tokenList.Threw? {
      return LoadFailed;
    }
    var tokens := st.tokenList.value;
    var entries: seq<Entry> := [];
    for i := 0 to |tokens|
      invariant |entries| == i
      invariant forall j :: 0 <= j < i ==> entries[j] == TokenLine(tokens[j], st, prices.value)
    {
      var addr := tokens[i];
      var meta := Resolve(addr, st).meta;
      var balance := if meta.Ok? then st.balanceOf(addr) else Threw;
      if balance.Threw? {
        assert TokenLine(addr, st, prices.value) == ErrorEntry(addr);
        entries := entries + [ErrorEntry(addr)];
        continue;
      }
      var symbol, decimals := meta.value.symbol, meta.value.decimals;
      var usd := UsdValue(balance.value, decimals, PriceOf(prices.value, symbol));
      assert TokenLine(addr, st, prices.value) == TokenEntry(symbol, balance.value, decimals, usd);
      entries := entries + [TokenEntry(symbol, balance.value, decimals, usd)];
    }
    d := Shown(native, entries);
  }
}
