/** The answers one chain's RPC endpoint gives to the dashboard's reads, taken as inputs. */
module Network {
  import opened Outcomes
  import opened Registry

  type Address = string

  /** An ERC-20 `decimals()` value (uint8). */
  type Decimals = d: nat | d < 256

  /** One chain's answers: every read either resolves or throws.
      Token reads are per token address; `balanceOf` is the vault's balance of that token,
      `estimateGas` the gas of transferring that whole balance from the vault to the controller. */
  datatype ChainState = ChainState(
    tokenList: Reply<seq<Address>>,
    native: Reply<nat>,
    symbol: Address -> Reply<string>,
    decimals: Address -> Reply<Decimals>,
    balanceOf: Address -> Reply<nat>,
    estimateGas: Address -> Reply<nat>,
    gasPrice: Reply<nat>)

  /** Every chain's answers. */
  type Net = Chain -> ChainState
}
