/** The sweep gas estimate: priced on the first token the vault holds a nonzero balance of. */
module Gas {
  import opened Outcomes
  import opened Registry
  import opened Network

  /** What the gas line shows. */
  datatype GasReport = Estimate(cost: nat, unit: string) | NoTokensWithBalance | Unavailable

  /** Where the scan over the token list stops: the first token whose balance read
      is not a zero balance (a throw or a nonzero amount), or the list's end. */
  function ScanStop(tokens: seq<Address>, st: ChainState): (k: nat)
    ensures k <= |tokens|
    ensures forall j :: 0 <= j < k ==> st.balanceOf(tokens[j]) == Ok(0)
    ensures k < |tokens| ==> st.balanceOf(tokens[k]) != Ok(0)
  {
    if tokens == [] || st.balanceOf(tokens[0]) != Ok(0) then 0
    else 1 + ScanStop(tokens[1..], st)
  }

  method EstimateGasFee(chain: Chain, st: ChainState) returns (r: GasReport)
    ensures st.tokenList.Threw? ==> r == Unavailable
    ensures r == NoTokensWithBalance <==>
              st.tokenList.Ok? && forall j :: 0 <= j < |st.tokenList.value| ==> st.balanceOf(st.tokenList.value[j]) == Ok(0)
    ensures st.tokenList.Ok? ==>
              var tokens := st.tokenList.value;
              var k := ScanStop(tokens, st);
              k < |tokens| ==>
                var addr := tokens[k];
                r == if st.balanceOf(addr).Ok? && st.estimateGas(addr).Ok? && st.gasPrice.Ok?
                     then Estimate(st.estimateGas(addr).value * st.gasPrice.value, NativeSymbol(chain))
                     else Unavailable
    ensures r.Estimate? ==> r.unit == NativeSymbol(chain)
  {
    if st.tokenList.Threw? {
      return Unavailable;
    }
    var tokens := st.tokenList.value;
    for i := 0 to |tokens|
      invariant forall j :: 0 <= j < i ==> st.balanceOf(tokens[j]) == Ok(0)
    {
      var addr := tokens[i];
      var balance := st.balanceOf(addr);
      if balance.Threw? {
        return Unavailable;
      }
      if balance.value == 0 {
        continue;
      }
      var gasEstimate := st.estimateGas(addr);
      if gasEstimate.Threw? {
        return Unavailable;
      }
      var gasPrice := st.gasPrice;
      if gasPrice.Threw? {
        return Unavailable;
      }
      return Estimate(gasEstimate.value * gasPrice.value, NativeSymbol(chain));
    }
    return NoTokensWithBalance;
  }
}
