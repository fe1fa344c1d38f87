/** `ContractFactory.build`: from an ABI version tag to a new contract. */
module ContractFactory {
  import opened Errors
  import opened Contracts

  /** The tag that selects each known contract version: the inverse of Build. */
  function AbiTypeOf(c: BaseContract): string
    requires IsErc721(c)
  {
    match c
    case Erc721AbiV1 => "v1"
    case Erc721AbiV2 => "v2"
    case Erc721AbiV3 => "v3"
    case Erc721AbiV4 => "v4"
  }

  /** The tag arrives as an arbitrary string, so the `default` branch that
      throws "Unknown abi type" is reachable. */
  function Build(abiType: string): (r: Result<BaseContract>)
    ensures r.Success? <==> abiType in {"v1", "v2", "v3", "v4"}
    ensures r.Success? ==> IsErc721(r.value) && AbiTypeOf(r.value) == abiType
    ensures r.Failure? ==> r.error == UnknownAbiType
  {
    if abiType == "v1" then Success(Erc721AbiV1)
    else if abiType == "v2" then Success(Erc721AbiV2)
    else if abiType == "v3" then Success(Erc721AbiV3)
    else if abiType == "v4" then Success(Erc721AbiV4)
    else Failure(UnknownAbiType)
  }

  /** Every known contract version is built from its own tag. */
  lemma BuildRoundTrip(c: BaseContract)
    requires IsErc721(c)
    ensures Build(AbiTypeOf(c)) == Success(c)
  {
  }
}
