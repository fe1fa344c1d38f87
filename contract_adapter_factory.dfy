/** `ContractAdapterFactory.build`: classifies a contract by its runtime class
    and wraps it in the matching adapter. */
module ContractAdapterFactory {
  import opened Errors
  import opened Contracts
  import opened Adapters
  import ContractFactory

  function Build(contract: BaseContract): (r: Result<Adapter>)
    ensures r.Success? <==> IsErc721(contract)
    ensures r.Success? ==> r.value.contract == contract
    ensures r.Failure? ==> r.error == UnknownAbiType
  {
    match contract
    case Erc721AbiV1 => Success(Erc721AbiV1Adapter(contract))
    case Erc721AbiV2 => Success(Erc721AbiV2Adapter(contract))
    case Erc721AbiV3 => Success(Erc721AbiV3Adapter(contract))
    case Erc721AbiV4 => Success(Erc721AbiV4Adapter(contract))
    case OtherContract => Failure(UnknownAbiType)
  }

  /** A contract built from a tag always finds its adapter: the trailing
      throw is reached only by contracts the contract factory never makes. */
  lemma BuildAcceptsEveryBuiltContract(abiType: string)
    requires ContractFactory.Build(abiType).Success?
    ensures Build(ContractFactory.Build(abiType).value).Success?
  {
  }

  /** From tag to adapter, distinct tags give distinct adapters. */
  lemma TagToAdapterInjective(t1: string, t2: string)
    requires ContractFactory.Build(t1).Success? && ContractFactory.Build(t2).Success?
    requires Build(ContractFactory.Build(t1).value) == Build(ContractFactory.Build(t2).value)
    ensures t1 == t2
  {
  }
}
