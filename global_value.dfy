/** The vault's total USD worth over every chain of the RPC table. */
module GlobalValue {
  import opened Outcomes
  import opened Registry
  import opened Network
  import opened Prices
  import opened Metadata
  import Balance

  /** One token's share: `decimals()`, `balanceOf()` and `symbol()` read live (the override table
      is not consulted); a throw in any of them makes the token add nothing. */
  function TokenContribution(addr: Address, st: ChainState, prices: PriceTable): (v: real)
    ensures st.decimals(addr).Threw? || st.balanceOf(addr).Threw? || st.symbol(addr).Threw? ==> v == 0.0
    ensures st.decimals(addr).Ok? && st.balanceOf(addr).Ok? && st.symbol(addr).Ok? ==>
              v == UsdValue(st.balanceOf(addr).value, st.decimals(addr).value, PriceOf(prices, st.symbol(addr).value))
  {
    match (st.decimals(addr), st.balanceOf(addr), st.symbol(addr))
    case (Ok(dec), Ok(bal), Ok(sym)) => UsdValue(bal, dec, PriceOf(prices, sym))
    case _ => 0.0
  }

  /** The tokens' shares summed in list order. */
  function TokensTotal(tokens: seq<Address>, st: ChainState, prices: PriceTable): real
  {
    if tokens == [] then 0.0
    else TokensTotal(tokens[..|tokens| - 1], st, prices) + TokenContribution(tokens[|tokens| - 1], st, prices)
  }

  /** One chain's worth: native balance plus its tokens; none when the native balance or the token list throws. */
  function ChainTotal(c: Chain, st: ChainState, prices: PriceTable): (r: Option<real>)
    ensures r.None? <==> st.native.Threw? || st.tokenList.Threw?
    ensures r.Some? ==>
              r.value == UsdValue(st.native.value, 18, NativePrice(c, prices)) + TokensTotal(st.tokenList.value, st, prices)
  {
    if st.native.Threw? || st.tokenList.Threw? then None
    else Some(UsdValue(st.native.value, 18, NativePrice(c, prices)) + TokensTotal(st.tokenList.value, st, prices))
  }

  /** The chains' worths summed in table order; none as soon as one chain has none. */
  function GlobalTotal(chains: seq<(Chain, string)>, net: Net, prices: PriceTable): Option<real>
  {
    if chains == [] then Some(0.0)
    else
      var last := chains[|chains| - 1].0;
      match (GlobalTotal(chains[..|chains| - 1], net, prices), ChainTotal(last, net(last), prices))
      case (Some(t), Some(c)) => Some(t + c)
      case _ => None
  }

  /** Extending the visited prefix by one chain adds that chain's total, or loses the sum if it has none. */
  lemma GlobalTotalStep(chains: seq<(Chain, string)>, i: nat, net: Net, prices: PriceTable)
    requires i < |chains|
    ensures ChainTotal(chains[i].0, net(chains[i].0), prices).None? ==> GlobalTotal(chains[..i + 1], net, prices).None?
    ensures GlobalTotal(chains[..i], net, prices).Some? && ChainTotal(chains[i].0, net(chains[i].0), prices).Some? ==>
              GlobalTotal(chains[..i + 1], net, prices) ==
              Some(GlobalTotal(chains[..i], net, prices).value + ChainTotal(chains[i].0, net(chains[i].0), prices).value)
  {
    assert chains[..i + 1][..i] == chains[..i] && chains[..i + 1][i] == chains[i];
  }

  /** Once a prefix of the table has failed, the whole total has. */
  lemma {:induction false} PrefixFailureIsFinal(chains: seq<(Chain, string)>, k: nat, net: Net, prices: PriceTable)
    requires k <= |chains|
    requires GlobalTotal(chains[..k], net, prices).None?
    ensures GlobalTotal(chains, net, prices).None?
    decreases |chains|
  {
    if k < |chains| {
      var init := chains[..|chains| - 1];
      assert init[..k] == chains[..k];
      PrefixFailureIsFinal(init, k, net, prices);
    } else {
      assert chains[..k] == chains;
    }
  }

  /** The total is lost exactly when some chain's native balance or token list throws:
      a failure on one chain discards the chains already summed. */
  lemma {:induction false} TotalFailsIffSomeChainFails(chains: seq<(Chain, string)>, net: Net, prices: PriceTable)
    ensures GlobalTotal(chains, net, prices).None? <==>
              exists i :: 0 <= i < |chains| && ChainTotal(chains[i].0, net(chains[i].0), prices).None?
    decreases |chains|
  {
    if chains != [] {
      var init := chains[..|chains| - 1];
      TotalFailsIffSomeChainFails(init, net, prices);
      if GlobalTotal(init, net, prices).None? {
        var i :| 0 <= i < |init| && ChainTotal(init[i].0, net(init[i].0), prices).None?;
        assert chains[i] == init[i];
      }
      if exists i :: 0 <= i < |chains| && ChainTotal(chains[i].0, net(chains[i].0), prices).None? {
        var i :| 0 <= i < |chains| && ChainTotal(chains[i].0, net(chains[i].0), prices).None?;
        if i < |init| {
          assert init[i] == chains[i];
        }
      }
    }
  }

  /** A token worth nothing (its reads threw, or the vault holds none of it) can be dropped
      from the list without changing the total: skipped tokens do not stop the loop. */
  lemma {:induction false} WorthlessTokenIsSkipped(tokens: seq<Address>, k: nat, st: ChainState, prices: PriceTable)
    requires k < |tokens|
    requires TokenContribution(tokens[k], st, prices) == 0.0
    ensures TokensTotal(tokens, st, prices) == TokensTotal(tokens[..k] + tokens[k + 1..], st, prices)
    decreases |tokens|
  {
    var n := |tokens|;
    var rest := tokens[..k] + tokens[k + 1..];
    if k == n - 1 {
      assert rest == tokens[..n - 1];
    } else {
      var init := tokens[..n - 1];
      WorthlessTokenIsSkipped(init, k, st, prices);
      assert init[k] == tokens[k];
      var initRest := init[..k] + init[k + 1..];
      assert rest[..|rest| - 1] == initRest;
      assert rest[|rest| - 1] == tokens[n - 1];
    }
  }

  /** A token whose `symbol()` throws adds nothing to the total even when the override table knows it,
      while the balance card still lists it under the override. */
  lemma FailedSymbolSkipsOverriddenToken(addr: Address, st: ChainState, prices: PriceTable)
    requires Override(addr).Some?
    requires st.balanceOf(addr).Ok?
    requires st.symbol(addr).Threw?
    ensures Balance.TokenLine(addr, st, prices).TokenEntry?
    ensures Balance.TokenLine(addr, st, prices).symbol == Override(addr).value.symbol
    ensures TokenContribution(addr, st, prices) == 0.0
  {
  }

  /** What the total card shows: the sum, or "$0.00" after any uncaught throw. */
  datatype TotalDisplay = Total(usd: real) | ZeroOnFailure

  /** The inner loop of the total: adds every token's share to `total`, skipping tokens whose reads throw. */
  method AddTokens(total0: real, tokens: seq<Address>, st: ChainState, prices: PriceTable) returns (total: real)
    ensures total == total0 + TokensTotal(tokens, st, prices)
  {
    total := total0;
    for j := 0 to |tokens|
      invariant total == total0 + TokensTotal(tokens[..j], st, prices)
    {
      assert tokens[..j + 1][..j] == tokens[..j];
      var addr := tokens[j];
      var decimals := st.decimals(addr);
      if decimals.Ok? {
        var bal := st.balanceOf(addr);
        if bal.Ok? {
          var symbol := st.symbol(addr);
          if symbol.Ok? {
            total := total + UsdValue(bal.value, decimals.value, PriceOf(prices, symbol.value));
          }
        }
      }
    }
    assert tokens[..|tokens|] == tokens;
  }

  /** The outer loop of the total: visits the chains in table order, abandoning the sum on the first
      chain whose native balance or token list throws. */
  method SumChains(chains: seq<(Chain, string)>, net: Net, prices: PriceTable) returns (r: Option<real>)
    ensures r == GlobalTotal(chains, net, prices)
  {
    var total := 0.0;
    for i := 0 to |chains|
      invariant GlobalTotal(chains[..i], net, prices) == Some(total)
    {
      var chain := chains[i].0;
      var st := net(chain);
      GlobalTotalStep(chains, i, net, prices);
      if st.native.Threw? {
        PrefixFailureIsFinal(chains, i + 1, net, prices);
        return None;
      }
      ghost var before := total;
      total := total + UsdValue(st.native.value, 18, NativePrice(chain, prices));
      if st.tokenList.Threw? {
        PrefixFailureIsFinal(chains, i + 1, net, prices);
        return None;
      }
      total := AddTokens(total, st.tokenList.value, st, prices);
      assert total == before + ChainTotal(chain, st, prices).value;
    }
    assert chains[..|chains|] == chains;
    r := Some(total);
  }

  method UpdateGlobalVaultValue(fetched: Reply<Feed>, net: Net) returns (d: TotalDisplay)
    ensures d == ZeroOnFailure <==> fetched.Threw? || GlobalTotal(Rpcs, net, FetchPrices(fetched).value).None?
    ensures d.Total? ==> Some(d.usd) == GlobalTotal(Rpcs, net, FetchPrices(fetched).value)
  {
    var prices := FetchPrices(fetched);
    if prices.Threw? {
      return ZeroOnFailure;
    }
    var total := SumChains(Rpcs, net, prices.value);
    d := if total.Some? then Total(total.value) else ZeroOnFailure;
  }
}
