/** The four adapters that put one canonical two-operation surface
    (`doSome`, `doOther`) over the contract versions, each with an authored
    capability map saying which of the two operations is safe to use. */
module Adapters {
  import opened Errors
  import Contracts

  /** `keyof IErc721AbiFunctions`: the names of the canonical operations. */
  datatype FunctionKey = DoSomeKey | DoOtherKey

  /** `usableFunctions`: one boolean per canonical operation. */
  datatype CapabilityMap = CapabilityMap(doSome: bool, doOther: bool)

  /** Indexing the map by an operation name. */
  function Lookup(m: CapabilityMap, key: FunctionKey): bool {
    match key
    case DoSomeKey => m.doSome
    case DoOtherKey => m.doOther
  }

  /** An adapter and the contract it keeps in its private `contract` field. */
  datatype Erc721Adapter =
    | Erc721AbiV1Adapter(contract: Contracts.BaseContract)
    | Erc721AbiV2Adapter(contract: Contracts.BaseContract)
    | Erc721AbiV3Adapter(contract: Contracts.BaseContract)
    | Erc721AbiV4Adapter(contract: Contracts.BaseContract)

  /** Each adapter's constructor takes only its own contract class. */
  predicate WrapsOwnContract(a: Erc721Adapter) {
    match a
    case Erc721AbiV1Adapter(c) => c.Erc721AbiV1?
    case Erc721AbiV2Adapter(c) => c.Erc721AbiV2?
    case Erc721AbiV3Adapter(c) => c.Erc721AbiV3?
    case Erc721AbiV4Adapter(c) => c.Erc721AbiV4?
  }

  /** The adapters that can exist (`IErc721AbiAdapter`). */
  type Adapter = a: Erc721Adapter | WrapsOwnContract(a)
    witness Erc721AbiV1Adapter(Contracts.Erc721AbiV1)

  /** The authored capability maps: `doSome` is declared usable everywhere,
      `doOther` only on version 3 (version 4 declares it unusable although
      its `doOther` does reach the backend; see CapabilityGap). */
  function UsableFunctions(a: Adapter): (m: CapabilityMap)
    ensures m.doSome
    ensures m.doOther <==> a.Erc721AbiV3Adapter?
  {
    match a
    case Erc721AbiV1Adapter(_) => CapabilityMap(doSome := true, doOther := false)
    case Erc721AbiV2Adapter(_) => CapabilityMap(doSome := true, doOther := false)
    case Erc721AbiV3Adapter(_) => CapabilityMap(doSome := true, doOther := true)
    case Erc721AbiV4Adapter(_) => CapabilityMap(doSome := true, doOther := false)
  }

  /** `usableFunctions[key]`. */
  function Usable(a: Adapter, key: FunctionKey): (b: bool)
    ensures b <==> key == DoSomeKey || a.Erc721AbiV3Adapter?
  {
    Lookup(UsableFunctions(a), key)
  }

  /** The fixed text each version's fetch operation puts before the input:
      the reference against which DoSome is stated. */
  function DoSomeLabel(a: Adapter): string {
    match a
    case Erc721AbiV1Adapter(_) => "doSome of Erc721AbiV1 for "
    case Erc721AbiV2Adapter(_) => "doSome of Erc721AbiV2 for "
    case Erc721AbiV3Adapter(_) => "renamedDoSome of Erc721AbiV3 for "
    case Erc721AbiV4Adapter(_) => "renamedAgainDoSome of Erc721AbiV4 for "
  }

  /** The canonical `doSome`: each adapter forwards to its contract's fetch
      operation, under whatever name that version gives it. */
  function DoSome(a: Adapter, str: string): (r: string)
    ensures r == DoSomeLabel(a) + str
  {
    match a
    case Erc721AbiV1Adapter(c) => Contracts.DoSome(c, str)
    case Erc721AbiV2Adapter(c) => Contracts.DoSome(c, str)
    case Erc721AbiV3Adapter(c) => Contracts.RenamedDoSome(c, str)
    case Erc721AbiV4Adapter(c) => Contracts.RenamedAgainDoSome(c, str)
  }

  /** The canonical `doOther`: versions 1 and 2 throw from a stub; versions 3
      and 4 forward to the backend, whose effect is the line it logs. */
  function DoOther(a: Adapter): (r: Result<string>)
    ensures r.Failure? <==> a.Erc721AbiV1Adapter? || a.Erc721AbiV2Adapter?
    ensures r.Failure? ==> r.error == MethodNotImplemented
    ensures a.Erc721AbiV3Adapter? ==> r == Success(Contracts.DoOther(a.contract))
    ensures a.Erc721AbiV4Adapter? ==> r == Success(Contracts.RenamedDoOther(a.contract))
  {
    match a
    case Erc721AbiV1Adapter(_) => Failure(MethodNotImplemented)
    case Erc721AbiV2Adapter(_) => Failure(MethodNotImplemented)
    case Erc721AbiV3Adapter(c) => Success(Contracts.DoOther(c))
    case Erc721AbiV4Adapter(c) => Success(Contracts.RenamedDoOther(c))
  }

  /** An operation is implemented when calling it on the adapter does not
      throw, that is, when a real backend method stands behind it. */
  predicate Implemented(a: Adapter, key: FunctionKey) {
    match key
    case DoSomeKey => true
    case DoOtherKey => DoOther(a).Success?
  }

  /** The capability map never declares usable an operation that throws. */
  lemma CapabilityMapSound(a: Adapter, key: FunctionKey)
    ensures Usable(a, key) ==> Implemented(a, key)
  {
  }

  /** The one place where map and implementation disagree: version 4's
      `doOther` reaches the backend but is declared unusable. */
  lemma CapabilityGap(a: Adapter, key: FunctionKey)
    ensures Implemented(a, key) && !Usable(a, key) <==> a.Erc721AbiV4Adapter? && key == DoOtherKey
  {
  }

  /** An index at which the labels of two adapters of different versions
      differ. */
  function LabelsDifferAt(a: Adapter, b: Adapter): (i: nat)
    requires a != b
    ensures i < |DoSomeLabel(a)| && i < |DoSomeLabel(b)|
    ensures DoSomeLabel(a)[i] != DoSomeLabel(b)[i]
  {
    if (a.Erc721AbiV1Adapter? || a.Erc721AbiV2Adapter?) && (b.Erc721AbiV1Adapter? || b.Erc721AbiV2Adapter?) then 20
    else if (a.Erc721AbiV3Adapter? || a.Erc721AbiV4Adapter?) && (b.Erc721AbiV3Adapter? || b.Erc721AbiV4Adapter?) then 7
    else 0
  }

  /** The output of `doSome` identifies both the adapter's version and the
      input string: no two different (adapter, input) pairs give the same
      text. */
  lemma {:induction false} DoSomeIdentifiesVersionAndInput(a: Adapter, b: Adapter, s: string, t: string)
    requires DoSome(a, s) == DoSome(b, t)
    ensures a == b && s == t
  {
    var la, lb := DoSomeLabel(a), DoSomeLabel(b);
    if a != b {
      var i := LabelsDifferAt(a, b);
      assert false;
    }
    assert s == (la + s)[|la|..];
    assert t == (lb + t)[|lb|..];
  }
}
