/** The simulated ERC-721 contract classes. Each version exposes a different
    method surface; none of them holds any state. */
module Contracts {

  /** The runtime class of a `BaseContract` instance. `OtherContract` stands
      for any instance of another subclass of `BaseContract`: the contract
      factory never builds one, but the adapter factory accepts any
      `BaseContract` and must classify it. */
  datatype BaseContract =
    | Erc721AbiV1
    | Erc721AbiV2
    | Erc721AbiV3
    | Erc721AbiV4
    | OtherContract

  /** True for the four contract versions this system knows. */
  predicate IsErc721(c: BaseContract) {
    !c.OtherContract?
  }

  /** `doSome` of versions 1 and 2 (the only versions that have it): a text
      naming the version, followed by the input string. */
  function DoSome(c: BaseContract, str: string): (r: string)
    requires c.Erc721AbiV1? || c.Erc721AbiV2?
    ensures |r| > |str| && r[|r| - |str|..] == str
  {
    if c.Erc721AbiV1? then "doSome of Erc721AbiV1 for " + str
    else "doSome of Erc721AbiV2 for " + str
  }

  /** `renamedDoSome`, version 3's name for the fetch operation. */
  function RenamedDoSome(c: BaseContract, str: string): (r: string)
    requires c.Erc721AbiV3?
    ensures |r| > |str| && r[|r| - |str|..] == str
  {
    "renamedDoSome of Erc721AbiV3 for " + str
  }

  /** `renamedAgainDoSome`, version 4's name for the fetch operation. */
  function RenamedAgainDoSome(c: BaseContract, str: string): (r: string)
    requires c.Erc721AbiV4?
    ensures |r| > |str| && r[|r| - |str|..] == str
  {
    "renamedAgainDoSome of Erc721AbiV4 for " + str
  }

  /** Version 3's side-effecting `doOther`; its effect is the console line
      it writes, which is returned here. */
  function DoOther(c: BaseContract): (logged: string)
    requires c.Erc721AbiV3?
  {
    "doOther of Erc721AbiV3"
  }

  /** Version 4's `renamedDoOther`; returns the console line it writes. */
  function RenamedDoOther(c: BaseContract): (logged: string)
    requires c.Erc721AbiV4?
  {
    "renamedDoOther of Erc721AbiV4"
  }
}
