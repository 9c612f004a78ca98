/** The whitelist card: one line per whitelisted token, naming its symbol. */
module Whitelist {
  import opened Outcomes
  import opened Network
  import opened Metadata

  datatype Line = Line(symbol: string, addr: Address)

  /** What the card shows: the load-failure notice, "None", or the token lines. */
  datatype Display = LoadFailed | NoneListed | Lines(lines: seq<Line>)

  /** The symbol shown for a token: the override's symbol when it has a non-empty one, otherwise the
      live `symbol()` answer, and "Unknown" when that read throws. */
  function DisplaySymbol(addr: Address, st: ChainState): (s: string)
    ensures Override(addr).Some? && Override(addr).value.symbol != "" ==> s == Override(addr).value.symbol
    ensures !(Override(addr).Some? && Override(addr).value.symbol != "") ==>
              s == (if st.symbol(addr).Ok? then st.symbol(addr).value else "Unknown")
  {
    var meta := Override(addr);
    if meta.Some? && meta.value.symbol != "" then meta.value.symbol
    else
      match st.symbol(addr)
      case Ok(s) => s
      case Threw => "Unknown"
  }

  /** A failing lookup still yields a line: "Unknown" is shown only if the live read threw or returned it. */
  lemma UnknownMeansLookupFailed(addr: Address, st: ChainState)
    requires DisplaySymbol(addr, st) == "Unknown"
    ensures st.symbol(addr) == Threw || st.symbol(addr) == Ok("Unknown")
  {
  }

  method UpdateWhitelistDisplay(st: ChainState) returns (d: Display)
    ensures d == LoadFailed <==> st.tokenList.Threw?
    ensures d == NoneListed <==> st.tokenList == Ok([])
    ensures d.Lines? ==> st.tokenList.Ok? && |d.lines| == |st.tokenList.value| > 0
    ensures d.Lines? ==> forall i :: 0 <= i < |d.lines| ==>
              d.lines[i] == Line(DisplaySymbol(st.tokenList.value[i], st), st.tokenList.value[i])
  {
    if st.tokenList.Threw? {
      return LoadFailed;
    }
    var tokens := st.tokenList.value;
    if |tokens| == 0 {
      return NoneListed;
    }
    var lines: seq<Line> := [];
    for i := 0 to |tokens|
      invariant |lines| == i
      invariant forall j :: 0 <= j < i ==> lines[j] == Line(DisplaySymbol(tokens[j], st), tokens[j])
    {
      var addr := tokens[i];
      var symbol := "Unknown";
      var meta := Override(addr);
      if meta.Some? && meta.value.symbol != "" {
        symbol := meta.value.symbol;
      } else {
        var live := st.symbol(addr);
        if live.Ok? {
          symbol := live.value;
        }
      }
      lines := lines + [Line(symbol, addr)];
    }
    d := Lines(lines);
  }
}
