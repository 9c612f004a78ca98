/** The fixed addresses, the chain table and the controller role check. */
module Registry {
  import opened Ascii

  /** The three networks of the chain selector. */
  datatype Chain = Ethereum | Polygon | Base

  /** The vault contract, the same address on every chain. */
  const VaultAddress: string := "0x00000b9D6803f438300F2916d0148271Bb7a4c47"

  /** The one account that sees the sweep and whitelist cards. */
  const ControllerAddress: string := "0xd1699E2D20DA3b2E7Bb9D2C2C72Fc62E7785fDD1"

  /** The RPC table in its declaration order, which is the order the global total visits the chains. */
  const Rpcs: seq<(Chain, string)> := [
    (Ethereum, "https://eth.llamarpc.com"),
    (Polygon, "https://polygon-rpc.com"),
    (Base, "https://mainnet.base.org")
  ]

  /** The chain's native asset: it names both the price key of the native balance and the gas unit. */
  function NativeSymbol(c: Chain): (s: string)
    ensures s == "MATIC" <==> c == Polygon
    ensures s == "MATIC" || s == "ETH"
  {
    if c == Polygon then "MATIC" else "ETH"
  }

  /** The role gate applied to a connected wallet: equal to the controller up to letter case. */
  function IsController(user: string): (b: bool)
    ensures b <==> |user| == |ControllerAddress| &&
                   forall i :: 0 <= i < |user| ==> LowerChar(user[i]) == LowerChar(ControllerAddress[i])
  {
    Lower(user) == Lower(ControllerAddress)
  }

  /** Changing the letter case of the connected address never changes the role. */
  lemma ControllerIgnoresCase(user: string)
    ensures IsController(Lower(user)) == IsController(user)
    ensures IsController(Upper(user)) == IsController(user)
  {
    LowerIdempotent(user);
    LowerOfUpper(user);
  }

  /** The table holds every chain exactly once. */
  lemma RpcsListsEachChainOnce(c: Chain)
    ensures exists i :: 0 <= i < |Rpcs| && Rpcs[i].0 == c
    ensures forall i, j :: 0 <= i < j < |Rpcs| ==> Rpcs[i].0 != Rpcs[j].0
  {
    var i := if c == Ethereum then 0 else if c == Polygon then 1 else 2;
    assert Rpcs[i].0 == c;
  }
}
