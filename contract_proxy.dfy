/** `Erc721ContractProxy`: wraps one adapter and guards calls on it by the
    adapter's capability map. */
module ContractProxy {
  import opened Errors
  import opened Adapters

  /** What the public `adapter` field holds: nothing (`{}`) until the first
      capability check, then the wrapped adapter as seen through the view
      narrowed to the operation last checked. The narrowing is a static type;
      at run time the field holds the wrapped adapter itself. */
  datatype AdapterView = EmptyView | Narrowed(target: Adapter, checked: FunctionKey)

  /** The arguments of a canonical operation: `doSome` takes `{ str }`,
      `doOther` takes nothing. */
  datatype Args = DoSomeArgs(str: string) | DoOtherArgs

  function KeyOf(args: Args): FunctionKey {
    match args
    case DoSomeArgs(_) => DoSomeKey
    case DoOtherArgs => DoOtherKey
  }

  /** What a canonical operation returns: the text `doSome` resolves to, or
      the line `doOther`'s backend logs. */
  datatype Reply = Fetched(text: string) | Performed(logged: string)

  /** An adapter method bound to its adapter, as `useOrThrow` returns it. */
  datatype BoundFunction = Bound(self: Adapter, key: FunctionKey)

  /** Calling a bound function with arguments of its operation. */
  function Apply(f: BoundFunction, args: Args): (r: Result<Reply>)
    requires KeyOf(args) == f.key
    ensures r.Success? <==> Implemented(f.self, f.key)
    ensures r.Failure? ==> r.error == MethodNotImplemented
    ensures args.DoSomeArgs? ==> r == Success(Fetched(DoSome(f.self, args.str)))
    ensures args.DoOtherArgs? && r.Success? ==> r == Success(Performed(DoOther(f.self).value))
  {
    match args
    case DoSomeArgs(str) => Success(Fetched(DoSome(f.self, str)))
    case DoOtherArgs =>
      match DoOther(f.self)
      case Success(line) => Success(Performed(line))
      case Failure(e) => Failure(e)
  }

  /** Whatever the capability map allows can be called without throwing. */
  lemma GuardedCallNeverThrows(f: BoundFunction, args: Args)
    requires KeyOf(args) == f.key && Usable(f.self, f.key)
    ensures Apply(f, args).Success?
  {
  }

  class Erc721ContractProxy {
    /** The public, re-published view (`adapter`). */
    var adapter: AdapterView
    /** The wrapped adapter (`_adapter`), fixed at construction. */
    const inner: Adapter

    constructor (a: Adapter)
      ensures inner == a && adapter == EmptyView
    {
      inner := a;
      adapter := EmptyView;
    }

    /** `canUse(key)`: publishes the wrapped adapter on `adapter` and answers
        from the capability map. `inner` is constant, so repeated checks of
        the same operation give the same answer. */
    method CanUse(key: FunctionKey) returns (usable: bool)
      modifies this`adapter
      ensures usable == Usable(inner, key)
      ensures adapter == Narrowed(inner, key)
    {
      adapter := Narrowed(inner, key);
      usable := Lookup(UsableFunctions(inner), key);
    }

    /** `useOrThrow(key)`: the operation bound to the wrapped adapter when
        the map allows it; otherwise it throws before any adapter method
        runs (nothing but `adapter` is modified, and no log line is made). */
    method UseOrThrow(key: FunctionKey) returns (r: Result<BoundFunction>)
      modifies this`adapter
      ensures r.Success? <==> Usable(inner, key)
      ensures r.Success? ==> r.value == Bound(inner, key)
      ensures r.Failure? ==> r.error == MethodNotImplemented
      ensures adapter == Narrowed(inner, key)
    {
      var usable := CanUse(key);
      if usable {
        r := Success(Bound(inner, key));
      } else {
        r := Failure(MethodNotImplemented);
      }
    }
  }

  /** `doOther` on a fresh proxy over `a`, once through `useOrThrow` and once
      directly on the adapter. On version 4 the guarded call throws although
      the direct one reaches the backend; on version 3 both succeed; on
      versions 1 and 2 both throw. */
  method DoOtherGuardedAndDirect(a: Adapter) returns (guarded: Result<Reply>, direct: Result<string>)
    ensures a.Erc721AbiV4Adapter? ==> guarded == Failure(MethodNotImplemented) && direct.Success?
    ensures a.Erc721AbiV3Adapter? ==> direct.Success? && guarded == Success(Performed(direct.value))
    ensures a.Erc721AbiV1Adapter? || a.Erc721AbiV2Adapter? ==> guarded.Failure? && direct.Failure?
  {
    var proxy := new Erc721ContractProxy(a);
    var f := proxy.UseOrThrow(DoOtherKey);
    match f {
      case Success(bound) =>
        guarded := Apply(bound, DoOtherArgs);
      case Failure(e) =>
        guarded := Failure(e);
    }
    direct := DoOther(a);
  }
}
