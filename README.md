# Vault dashboard: read-side aggregation model

A Dafny model of the decision logic of the vault dashboard (`script.js`). The dashboard reads one
custodial vault contract on three chains (Ethereum, Polygon, Base) and decides five things:
the controller role gate, the whitelist card, the sweep gas estimate, the balance card of the selected
chain, and the vault's global USD total over all chains.

Every network read (`getTokenList`, `getBalance`, `symbol`, `decimals`, `balanceOf`, `estimateGas`,
`eth_gasPrice`, the price fetch) is an input: a `Reply` that either resolves to a value or throws.
`Network.ChainState` bundles one chain's answers, with per-token reads as functions of the token address.
The four display loops are methods with loop invariants, each proved against functions of those inputs;
the single-expression rules (role check, native unit, native price, price defaulting) are functions.

Modules:
- `Outcomes`: `Reply` (resolved or thrown) and `Option`.
- `Ascii`: ASCII case mapping used by `toLowerCase`/`toUpperCase`.
- `Registry`: chains, the RPC table in declaration order, the vault and controller addresses, the role check, the native symbol.
- `Network`: the per-chain read answers.
- `Metadata`: the override table and metadata resolution with the live reads it makes.
- `Prices`: the price table built from the feed, symbol lookup, native price, USD value.
- `Whitelist`, `Gas`, `Balance`, `GlobalValue`: the four display loops.

## Model

| member | source | states |
|---|---|---|
| `Registry.IsController` | script.js:57 | The wallet is the controller iff it has the controller address's length and agrees with it letter by letter up to case. |
| `Registry.ControllerIgnoresCase` | script.js:57 | Lower-casing or upper-casing the connected address never changes the role. |
| `Registry.NativeSymbol` | script.js:165 | The gas unit is "MATIC" exactly on Polygon and "ETH" on every other chain. |
| `Registry.RpcsListsEachChainOnce` | script.js:4-8 | The RPC table, visited in declaration order, holds each chain exactly once. |
| `Metadata.Override` | script.js:17-22 | A token is overridden iff its lower-cased address is a key of the override table, and then it gets that entry. |
| `Metadata.Resolve` | script.js:204-212 | Overridden tokens get the table's symbol and decimals with no live read; others read `symbol()` then `decimals()`, stop at the first throw, and succeed iff both resolve. |
| `Metadata.OverrideNeedsNoNetwork` | script.js:205-208 | An overridden token resolves successfully and identically whatever the chain answers. |
| `Metadata.OverrideIgnoresCase` | script.js:205 | Checksummed, upper-case and lower-case spellings of an address find the same override entry. |
| `Prices.FetchPrices` | script.js:104-114 | A failed fetch propagates; otherwise the table has exactly ETH, MATIC, USDC, USDT, WBTC, each the feed's `usd` value for its id or 0 when the id or field is missing. |
| `Prices.PriceOf` | script.js:221 | A symbol is priced by its upper-cased form, 0 when that key is absent. |
| `Prices.NativePrice` | script.js:189 | The native balance is priced as MATIC on Polygon and as ETH elsewhere. |
| `Prices.UsdValue` | script.js:220-221 | A zero amount or a zero price is worth exactly 0. |
| `Prices.UsdValueScales` | script.js:220-221 | The USD value times 10^decimals equals raw amount times price. |
| `Prices.PriceIgnoresCase` | script.js:221 | Lower-, upper- or mixed-case symbols get the same price. |
| `Prices.UnlistedSymbolIsUnpriced` | script.js:107-113 | Any symbol outside the five table keys is priced 0 whatever the feed holds. |
| `Prices.EmptyFeedPricesEverythingAtZero` | script.js:107-113 | A feed with no keys still yields a table, and every symbol is priced 0. |
| `Prices.UsdcExample` | script.js:220-221 | 1,000,000 base units with 6 decimals at $1 are worth exactly $1. |
| `Whitelist.DisplaySymbol` | script.js:83-90 | A non-empty override symbol wins; otherwise the live `symbol()` result, or "Unknown" when it throws. |
| `Whitelist.UnknownMeansLookupFailed` | script.js:83-90 | "Unknown" is shown only when the live read threw or itself returned "Unknown". |
| `Whitelist.UpdateWhitelistDisplay` | script.js:65-99 | A throwing token list gives the failure notice, an empty one gives "None", otherwise exactly one line per listed address, in order, naming that address and its display symbol. |
| `Gas.ScanStop` | script.js:149-154 | The scan passes exactly the leading tokens whose balance read is a zero balance and stops at the first one that is not. |
| `Gas.EstimateGasFee` | script.js:137-178 | "No tokens with balance" iff the list loads and every balance is zero; otherwise the first non-zero token decides: exact `estimateGas * gasPrice` in the chain's native unit if all three reads succeed, else "unavailable", as for a throwing token list. |
| `Balance.TokenLine` | script.js:197-227 | A token's entry is the error notice naming it iff its metadata or `balanceOf` throws; otherwise its resolved symbol and decimals, raw balance, and USD value at the upper-cased symbol's price. |
| `Balance.OneBadTokenHidesNothing` | script.js:197-228 | Making one token's reads throw leaves every other token's entry unchanged and turns that token's entry into the error notice naming it. |
| `Balance.ZeroBalanceIsWorthNothing` | script.js:220-223 | A resolved token with zero balance is listed at $0 whatever its price. |
| `Balance.UpdateBalance` | script.js:180-235 | The card fails as a whole iff the price fetch, native balance or token list throws; otherwise the native line uses the chain's native price and there is exactly one entry per listed token, in order, each that token's `TokenLine`. |
| `GlobalValue.TokenContribution` | script.js:249-256 | A token adds its live-read value at its upper-cased symbol's price, or nothing when `decimals()`, `balanceOf()` or `symbol()` throws. |
| `GlobalValue.ChainTotal` | script.js:243-248 | A chain has no total iff its native balance or token list throws; otherwise native value plus its tokens' sum. |
| `GlobalValue.PrefixFailureIsFinal` | script.js:261-264 | Once any chain visited so far has failed, the whole total is lost. |
| `GlobalValue.TotalFailsIffSomeChainFails` | script.js:242-264 | The total is lost iff some chain of the table fails, discarding chains already summed. |
| `GlobalValue.WorthlessTokenIsSkipped` | script.js:249-256 | Removing a token that contributes nothing (a throwing read or a zero balance) from the list leaves the total unchanged. |
| `GlobalValue.FailedSymbolSkipsOverriddenToken` | script.js:252-254 | An overridden token whose `symbol()` throws is listed on the balance card under its override symbol yet adds nothing to the global total. |
| `GlobalValue.AddTokens` | script.js:249-257 | The inner loop adds exactly the sum of the tokens' contributions to the running total. |
| `GlobalValue.SumChains` | script.js:241-258 | The outer loop yields the sum over the chains in order, or none on the first chain failure. |
| `GlobalValue.UpdateGlobalVaultValue` | script.js:238-265 | The failure placeholder `ZeroOnFailure` (shown as "$0.00") iff the price fetch throws or some chain fails; otherwise the sum over the RPC table (a successful total that rounds to zero shows the same text). |

## Behaviour of note

- A chain whose native balance or token list read throws aborts the whole global total, which shows "$0.00", discarding the chains already summed.
- A throwing price fetch is not caught in `fetchPrices`: it aborts the balance card and the global total. Only missing keys and fields default to 0.
- A throwing native balance read aborts the balance card as a whole.
- The global total reads `decimals()`, `balanceOf()` and `symbol()` live and never consults the override table.
- A metadata failure on the balance card turns that token's entry into the error notice.
- A `balanceOf` throw on any token scanned before the first non-zero balance makes the gas estimate "unavailable".

## Left out

- DOM and UI: element writes, QR code, clipboard, alerts, the sweep animation and its timer (script.js:33-47, 277-281).
- Wallet connection and `ethers` provider and contract construction (script.js:49-56, 70-71, 124-125, 116-133): their results are the `ChainState` inputs; constructing a contract object is taken never to throw.
- The price feed's HTTP request and JSON parsing (script.js:105-106): the parsed object is the `Reply<Feed>` input, a throw standing for any fetch or parse failure.
- Float formatting and arithmetic: `formatEther`, `formatUnits`, `parseFloat`, `toFixed` and float sums are modelled as exact real arithmetic; rounding is not modelled.
- Write transactions and address validation: `sweep()`, `updateWhitelist` and `ethers.isAddress` (script.js:267-293).
- Async ordering: `estimateGasFee` and `updateBalance` are not awaited (script.js:131-132); the model runs each loop on its own, with no interleaving between them.
- Repeated reads: each loop re-reads the token list and token metadata; the model gives every read of the same thing on the same chain the same answer.
- `Ascii.Lower`, `Ascii.Upper`: `toLowerCase`/`toUpperCase` are modelled on ASCII letters only; addresses are hex, and non-ASCII ticker symbols are not case-mapped. Cost: JavaScript upper-cases "ı" (U+0131) to "I" and "ſ" (U+017F) to "S", so a token whose `symbol()` returns "matıc" or "uſdc" gets the MATIC or USDC price on the balance card and in the global total (script.js:221, 255), but $0 in `Prices.PriceOf`.
- `Balance.TokenLine`, `GlobalValue.TokenContribution`: formatting is taken never to throw. If the formatting library rejects a `decimals()` value it cannot format (ethers v6 is believed to refuse more than 80 decimals; that is library behaviour outside this repository), the source gives that token the error entry through the outer per-token `catch` (script.js:224-227) and skips it in the global total (script.js:256), while the model values it.
- The global total's two nested loops are split into `GlobalValue.SumChains` (chains) and `GlobalValue.AddTokens` (tokens), which keep the running total exactly as the single function does.
- Console warnings and error logging (script.js:89, 96, 175, 215, 225, 232, 262).
