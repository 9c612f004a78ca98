/** The price table built from the price feed, symbol lookup and USD valuation. */
module Prices {
  import opened Outcomes
  import opened Ascii
  import opened Registry

  /** One feed entry (`data[id]`): its `usd` field may be missing. */
  datatype Quote = Quote(usd: Option<real>)

  /** The parsed feed, keyed by the feed's asset ids. */
  type Feed = map<string, Quote>

  /** The table handed to the valuation loops, keyed by upper-case symbol. */
  type PriceTable = map<string, real>

  /** The symbols of the table and the feed ids they are read from. */
  const FeedIds: seq<(string, string)> := [
    ("ETH", "ethereum"),
    ("MATIC", "polygon"),
    ("USDC", "usd-coin"),
    ("USDT", "tether"),
    ("WBTC", "wrapped-bitcoin")
  ]

  /** The feed's USD price for an asset id, or 0 when the id or its `usd` field is missing. */
  function UsdOrZero(feed: Feed, id: string): real
  {
    if id in feed && feed[id].usd.Some? then feed[id].usd.value else 0.0
  }

  /** The table built from the feed; a failed fetch or parse is not caught and propagates. */
  function FetchPrices(fetched: Reply<Feed>): (r: Reply<PriceTable>)
    ensures r.Threw? <==> fetched.Threw?
    ensures r.Ok? ==> r.value.Keys == {"ETH", "MATIC", "USDC", "USDT", "WBTC"}
    ensures r.Ok? ==> forall k :: 0 <= k < |FeedIds| ==>
              FeedIds[k].0 in r.value &&
              r.value[FeedIds[k].0] == (if FeedIds[k].1 in fetched.value && fetched.value[FeedIds[k].1].usd.Some?
                                        then fetched.value[FeedIds[k].1].usd.value else 0.0)
  {
    match fetched
    case Threw => Threw
    case Ok(feed) =>
      Ok(map[
        "ETH" := UsdOrZero(feed, "ethereum"),
        "MATIC" := UsdOrZero(feed, "polygon"),
        "USDC" := UsdOrZero(feed, "usd-coin"),
        "USDT" := UsdOrZero(feed, "tether"),
        "WBTC" := UsdOrZero(feed, "wrapped-bitcoin")])
  }

  /** A symbol's price: the table entry of its upper-case form, or 0 when there is none. */
  function PriceOf(t: PriceTable, symbol: string): (p: real)
    ensures Upper(symbol) in t ==> p == t[Upper(symbol)]
    ensures Upper(symbol) !in t ==> p == 0.0
  {
    if Upper(symbol) in t then t[Upper(symbol)] else 0.0
  }

  /** The price of a chain's native balance: MATIC on Polygon, ETH elsewhere. */
  function NativePrice(c: Chain, t: PriceTable): (p: real)
    ensures c == Polygon ==> p == PriceOf(t, "MATIC")
    ensures c != Polygon ==> p == PriceOf(t, "ETH")
  {
    assert Upper("MATIC") == "MATIC" && Upper("ETH") == "ETH";
    if NativeSymbol(c) in t then t[NativeSymbol(c)] else 0.0
  }

  function Pow10(n: nat): (r: nat)
    ensures r >= 1
  {
    if n == 0 then 1 else 10 * Pow10(n - 1)
  }

  /** The USD worth of `raw` base units of a token with `decimals` decimals at `price` per whole token. */
  function UsdValue(raw: nat, decimals: nat, price: real): (v: real)
    ensures raw == 0 || price == 0.0 ==> v == 0.0
  {
    (raw as real / Pow10(decimals) as real) * price
  }

  /** The value is the whole-token amount times the price: scaled back by 10^decimals it is raw times price. */
  lemma UsdValueScales(raw: nat, decimals: nat, price: real)
    ensures UsdValue(raw, decimals, price) * (Pow10(decimals) as real) == (raw as real) * price
  {
    var q := Pow10(decimals) as real;
    assert (raw as real / q) * q == raw as real;
  }

  /** A symbol is priced the same whatever its letter case. */
  lemma PriceIgnoresCase(t: PriceTable, symbol: string)
    ensures PriceOf(t, symbol) == PriceOf(t, Upper(symbol))
    ensures PriceOf(t, symbol) == PriceOf(t, Lower(symbol))
  {
    UpperIdempotent(symbol);
    assert Upper(Lower(symbol)) == Upper(symbol) by {
      forall i | 0 <= i < |symbol|
        ensures Upper(Lower(symbol))[i] == Upper(symbol)[i]
      {
      }
    }
  }

  /** Any symbol outside the five priced ones is worth nothing, whatever the feed says. */
  lemma UnlistedSymbolIsUnpriced(fetched: Reply<Feed>, symbol: string)
    requires fetched.Ok?
    requires Upper(symbol) !in {"ETH", "MATIC", "USDC", "USDT", "WBTC"}
    ensures PriceOf(FetchPrices(fetched).value, symbol) == 0.0
  {
  }

  /** An empty feed prices everything at zero: missing keys default, they never fail the fetch. */
  lemma EmptyFeedPricesEverythingAtZero(symbol: string)
    ensures FetchPrices(Ok(map[])).Ok?
    ensures PriceOf(FetchPrices(Ok(map[])).value, symbol) == 0.0
  {
    var t := FetchPrices(Ok(map[])).value;
    assert forall k :: k in t ==> t[k] == 0.0 by {
      assert forall k :: 0 <= k < |FeedIds| ==> t[FeedIds[k].0] == 0.0;
      assert "ETH" == FeedIds[0].0 && "MATIC" == FeedIds[1].0 && "USDC" == FeedIds[2].0;
      assert "USDT" == FeedIds[3].0 && "WBTC" == FeedIds[4].0;
    }
  }

  /** One million base units of a six-decimal token at one dollar are worth exactly one dollar. */
  lemma UsdcExample()
    ensures UsdValue(1000000, 6, 1.0) == 1.0
  {
    assert Pow10(6) == 1000000;
  }
}
