# Capability-gated adapter dispatch over four contract versions

This project models the core of a small TypeScript sandbox (`src/TryPatterns.ts`)
that puts one calling convention over four drifting versions of a simulated
ERC-721 contract ABI:

- **Contracts** (`Erc721AbiV1` … `Erc721AbiV4`): each version names its fetch
  operation differently (`doSome`, `renamedDoSome`, `renamedAgainDoSome`);
  version 3 has a side-effecting `doOther` and version 4 a `renamedDoOther`;
  versions 1 and 2 have no side-effecting operation.
- **`ContractFactory.build`**: a version tag `v1`..`v4` to a new contract;
  any other tag throws "Unknown abi type".
- **Adapters** (`Erc721AbiVnAdapter`): each wraps its own contract class,
  exposes the canonical `doSome` / `doOther`, and carries an authored,
  read-only capability map `usableFunctions`.
- **`ContractAdapterFactory.build`**: picks the adapter by the contract's
  runtime class; any other `BaseContract` throws "Unknown abi type".
- **`Erc721ContractProxy`**: `canUse(key)` re-publishes the wrapped adapter on
  its public `adapter` field and answers from the capability map;
  `useOrThrow(key)` returns the adapter's method bound to the adapter, or throws
  "Method not implemented." before any adapter method runs.

Modules: `Errors` (the thrown error and a `Result` type standing for
"returns or throws"), `Contracts`, `ContractFactory`, `Adapters`,
`ContractAdapterFactory`, `ContractProxy` (the proxy is a class: its
`adapter` field is reassigned by every check, its wrapped adapter is a
`const`).

Version 4's adapter declares `doOther: false` although its `doOther` does
reach the backend. The model keeps this exactly as written. Together,
`Adapters.CapabilityMapSound` (no map declares usable an operation that throws)
and `Adapters.CapabilityGap` (the only operation that works but is declared
unusable is version 4's `doOther`) prove that this is the only place where the
map and the implementation disagree; `ContractProxy.DoOtherGuardedAndDirect`
shows its effect through the proxy. One might expect a map entry to be true
exactly when a real backend method stands behind it; version 4's `doOther`
breaks that, and the model follows the code.

## Model

| member | source | states |
|---|---|---|
| `Contracts.DoSome` | src/TryPatterns.ts:86-98 | versions 1 and 2 `doSome`: the result ends with the input string, after a non-empty label |
| `Contracts.RenamedDoSome` | src/TryPatterns.ts:100-104 | version 3 `renamedDoSome`: the result ends with the input string, after a non-empty label |
| `Contracts.RenamedAgainDoSome` | src/TryPatterns.ts:111-115 | version 4 `renamedAgainDoSome`: the result ends with the input string, after a non-empty label |
| `ContractFactory.Build` | src/TryPatterns.ts:122-137 | succeeds exactly for the tags `v1`..`v4`; the contract built carries the tag it was built from (AbiTypeOf is its inverse); every other tag fails with "Unknown abi type" |
| `ContractFactory.BuildRoundTrip` | src/TryPatterns.ts:123-135 | each of the four contract versions is what its own tag builds |
| `Adapters.UsableFunctions` | src/TryPatterns.ts:15-73 | the authored maps: `doSome` is usable on every adapter; `doOther` is usable exactly on the version 3 adapter |
| `Adapters.Usable` | src/TryPatterns.ts:173 | looking an operation up in an adapter's map is true exactly for `doSome`, or for any operation on version 3 |
| `Adapters.DoSome` | src/TryPatterns.ts:15-84 | each adapter forwards `doSome` to its contract's fetch operation, whose result is that version's fixed label followed by the input |
| `Adapters.DoOther` | src/TryPatterns.ts:27-83 | `doOther` throws "Method not implemented." exactly on versions 1 and 2; version 3 runs the backend's `doOther`, version 4 its `renamedDoOther` |
| `Adapters.CapabilityMapSound` | src/TryPatterns.ts:15-84 | no map declares usable an operation whose adapter method throws |
| `Adapters.CapabilityGap` | src/TryPatterns.ts:68-84 | an operation is implemented but declared unusable exactly for `doOther` on version 4 |
| `Adapters.DoSomeIdentifiesVersionAndInput` | src/TryPatterns.ts:86-115 | equal `doSome` outputs come from the same adapter version and the same input: the label identifies the version and the input is echoed intact |
| `ContractAdapterFactory.Build` | src/TryPatterns.ts:139-152 | succeeds exactly for the four known contract classes and wraps the very contract it was given; any other contract fails with "Unknown abi type" |
| `ContractAdapterFactory.BuildAcceptsEveryBuiltContract` | src/TryPatterns.ts:122-151 | every contract the contract factory builds finds an adapter, so the trailing throw is reached only by foreign contracts |
| `ContractAdapterFactory.TagToAdapterInjective` | src/TryPatterns.ts:122-151 | from tag through contract to adapter, different tags give different adapters |
| `ContractProxy.Apply` | src/TryPatterns.ts:187-188 | calling a bound operation throws exactly when the adapter's method for it is a stub, and then with "Method not implemented."; a bound `doSome` returns the adapter's `doSome` text; a bound `doOther` that succeeds performs the adapter's `doOther`, yielding its backend's logged line |
| `ContractProxy.GuardedCallNeverThrows` | src/TryPatterns.ts:176-192 | an operation the map allows never throws when the bound function is called |
| `ContractProxy.Erc721ContractProxy.constructor` | src/TryPatterns.ts:158-164 | the proxy wraps the given adapter and its public view starts empty |
| `ContractProxy.Erc721ContractProxy.CanUse` | src/TryPatterns.ts:166-174 | answers exactly the map's entry for the operation; re-publishes the wrapped adapter on `adapter`; the wrapped adapter never changes, so repeated checks agree |
| `ContractProxy.Erc721ContractProxy.UseOrThrow` | src/TryPatterns.ts:176-192 | returns the operation bound to the wrapped adapter exactly when the map allows it, otherwise fails with "Method not implemented." having changed nothing but the view |
| `ContractProxy.DoOtherGuardedAndDirect` | src/TryPatterns.ts:181-191 | on a version 4 proxy guarded `doOther` fails while the adapter's own `doOther` succeeds; on version 3 both succeed and the guarded call performs exactly the direct call's effect; on versions 1 and 2 both fail |

## Left out

- The `async` methods and their `setTimeout` delays (1 to 4 seconds): time and promises carry no logic here, so `doSome` is a pure function returning the text the promise resolves to.
- `console.log` in the contracts' side-effecting methods: modelled as the logged line being returned, not as output. `Contracts.DoOther` and `Contracts.RenamedDoOther` are these constant lines; their use is stated by `Adapters.DoOther`.
- The `{ str }` argument record: the fetch functions take the string itself.
- TypeScript-only typing (`NoMethods<T>`, the `this is …` guard, the `as unknown as` casts): `AdapterView.Narrowed` records which operation the view was narrowed to, but at run time the field holds the wrapped adapter whatever the check answered.
- `Function.prototype.bind`: modelled as the pair (adapter, operation) that `ContractProxy.Apply` calls.
- The `!!` coercion in `canUse` is dropped, since every map entry is already a boolean.
- The demonstration driver `TryPatterns.start` and `src/index.ts` (dependency-injection bootstrap); `ExampleService` is not part of this model.
