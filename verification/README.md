# Route compiler of router-middleware-factory, in Dafny

The repository's one piece of logic is a route compiler. `_routerMiddlewareFactory.create`
(also exported as `createCRUD`) takes a base `endpoint` and an `IRouterOptions` object. That
object holds up to five `[param, callback]` tuples, one for each of the operations `index`,
`find`, `create`, `update` and `delete`, and an optional `use` list of `[chanel, router]`
mounts. The compiler registers the tuples on a fresh Express router created with
`mergeParams: true`:

- each callback is registered under a fixed verb: index and find under GET, create under PUT,
  update under PATCH, delete under DELETE;
- each registration goes at `endpoint` joined with `:param`, or at `endpoint` itself when the
  parameter is falsy;
- the operations are registered in a fixed order, and the mounts follow in list order.

`createCRUDFromConfiguration` is an adapter. It flattens the object-shaped
`IRouterConfiguration` into the tuple shape and calls the factory with the result. To do so it
reduces over a key list into `[key, value]` entries and builds the options with
`Object.fromEntries(new Map(entries))`.

## How it is modelled

- `js.dfy`, module `Js`: JavaScript values. A string that may be `null` or `undefined` is
  `Option<string>`. `Truthy` holds only for a non-empty string, so a `param` or `chanel` of
  `''` counts as absent. An operation key or `use` key holds an array when it is present, and
  an array is always truthy, so these keys are plain `Option`s.
- `express.dfy`, module `Express`: the router as a trace. A `Router` is the `mergeParams` flag
  plus the sequence of calls made on it. Each call is `Bind(verb, path, handler)` or
  `Mount(path, sub)`. Handlers and sub-routers are opaque identifiers. Node's `path.join` is a
  parameter `join` that every operation takes, so every result holds for any join function.
- `factory.dfy`, module `Factory`: the factory.
  - `CreateCRUD` follows the source as written. It runs five guarded blocks (`RegisterOp`),
    each with the verb hard-coded as in the source, and then the `for ... of` loop over `use`
    (`MountAll`).
  - `Compiled` is a separate declarative reference. Its trace is one binding, looked up in the
    verb table, for each configured operation in registration order (`PresentOps`), followed by
    the mounts.
  - The method is proved to produce exactly `Compiled`. The lemmas then state the counts, the
    order, the paths and the edge cases.
  - `createCRUD` (src/index.ts:211) is only a getter that returns the same function, so it is
    modelled by the same method.
- `configuration.dfy`, module `Configuration`: the adapter.
  - The reducer (`Step`, `Reduce`) and `Object.fromEntries(new Map(...))` (`FromEntries`: for
    each key, the last value set wins) are modelled as the code writes them.
  - `DirectOptions` is the field-wise reference flattening. The two are proved equal.

## Model

| member | source | states |
|---|---|---|
| Factory.PresentOps | src/index.ts:165-193 | an operation takes part exactly when its key is present (truthy), and the operations taking part are listed in strictly increasing order index, find, create, update, delete, at most five of them |
| Factory.Present | src/index.ts:165-193 | filtering a list of operations keeps exactly the configured ones, never lengthens the list, and keeps it in registration order |
| Factory.Rank | src/index.ts:165-193 | each operation has a position in the fixed registration order, and the order lists it at that position |
| Factory.AllOpsListed | src/index.ts:165-193 | the registration order covers every operation, so no operation is skipped |
| Factory.Bindings | src/index.ts:166-168 | one binding per operation, in order, each using the verb table, the composed path and that operation's callback |
| Factory.Mounts | src/index.ts:195-198 | one mount per `use` entry, in list order, each with the entry's sub-router at the mount path of its `chanel` |
| Factory.RegisteredIsBindings | src/index.ts:165-193 | running the guarded blocks one after another registers exactly the reference bindings of the configured operations |
| Factory.RegisterOp | src/index.ts:165-169 | one guarded block, whose hard-coded verb must match the verb table: it adds the operation's binding when the tuple is present and adds nothing otherwise; `mergeParams` is unchanged |
| Factory.RegisterOps | src/index.ts:163-193 | the five blocks in source order, with verbs GET, GET, PUT, PATCH and DELETE, on a router created with `mergeParams` true, give exactly the reference bindings |
| Factory.MountAll | src/index.ts:195-198 | the `use` loop appends one mount per entry, in list order, and leaves the earlier registrations and `mergeParams` unchanged |
| Factory.CreateCRUD | src/index.ts:161-202 | the factory as written produces exactly the reference router: `mergeParams` true, the configured operations' bindings in the fixed order, then the mounts |
| Factory.IncreasingUnique | src/index.ts:165-193 | two lists in registration order that hold the same operations are equal, so `PresentOps` is the only such list for the configured set and the binding order is fixed once that set is known (the options record itself has no key order, as property lookup by name ignores it) |
| Factory.CompiledCounts | src/index.ts:163-200 | `mergeParams` is true; the number of verb bindings equals the number of configured operations; the number of mounts equals the length of `use`; no mount comes before a binding |
| Factory.OperationBinding | src/index.ts:165-193 | a configured operation gets exactly one binding slot; its binding uses the table verb, its own callback, and the path `join(endpoint, ':' + param)` when the param is truthy or `endpoint` otherwise |
| Factory.BindingOrigin | src/index.ts:165-193 | every verb binding in the trace belongs to a configured operation and carries that operation's verb, path and callback, so nothing else is bound |
| Factory.RegistrationOrder | src/index.ts:165-193 | of two configured operations, the one earlier in the order index, find, create, update, delete is bound at an earlier position |
| Factory.MountOrder | src/index.ts:195-198 | the j-th `use` entry is registered right after the bindings plus j earlier mounts; its sub-router is unchanged; it is mounted at `join(endpoint, chanel)` when `chanel` is truthy and at `endpoint` otherwise |
| Factory.EmptyOptions | src/index.ts:161-202 | options with no operation and no mount give a router with `mergeParams` true and nothing registered |
| Factory.LoneIndex | src/index.ts:165-169 | a lone `index` tuple gives exactly one GET binding for its callback, at `endpoint` when the param is empty or missing and at the joined path otherwise |
| Factory.SmokeTestDirectCall | test/index.js:13-15 | `createCRUD('./', {index: ['', fn]})` registers exactly one GET binding at './' |
| Factory.AllOperations | src/index.ts:165-193 | with all five operations configured there are exactly five bindings before the mounts, one per operation in the fixed order, with verbs GET, GET, PUT, PATCH, DELETE |
| Configuration.Flatten | src/index.ts:227-230 | the flattened tuple keeps the callback; its parameter is `options.param` when both `options` and `options.param` are truthy, and `null` otherwise |
| Configuration.FromEntries | src/index.ts:223-238 | a key that no entry sets is missing from the options object; a key some entry sets holds the value of the last entry with that key, later entries overriding earlier ones |
| Configuration.LastOpNone | src/index.ts:223-224 | the map holds nothing for an operation exactly when no entry has that operation's key |
| Configuration.LastOpLast | src/index.ts:223-224 | the map holds, for an operation, the tuple of the last entry with that operation's key |
| Configuration.LastUseNone | src/index.ts:223-224 | the map holds nothing for `use` exactly when no entry has the `use` key |
| Configuration.LastUseLast | src/index.ts:223-224 | the map holds, for `use`, the list of the last entry with the `use` key |
| Configuration.ReduceLastOp | src/index.ts:225-236 | after the reduce, an operation holds its flattened tuple if its key was walked and it is configured, and otherwise holds what it held before |
| Configuration.ReduceLastUse | src/index.ts:225-236 | after the reduce, `use` holds the configuration's mount list verbatim if its key was walked and the list is given, and otherwise holds what it held before |
| Configuration.KeysListed | src/index.ts:225 | the adapter's key list names every operation and `use` |
| Configuration.AdapterOptions | src/index.ts:221-238 | the options the adapter builds equal the field-wise flattening of the configuration, with `use` copied verbatim |
| Configuration.CreateCRUDFromConfiguration | src/index.ts:221-241 | the adapter registers exactly what the factory registers for the flattened configuration at `config.endpoint` |
| Configuration.AdapterBinding | src/index.ts:221-240 | through the adapter, a configured operation is bound under its table verb to its own callback; the path is the joined `:param` path when `options.param` is non-empty, and `endpoint` unchanged when `options` or `param` is missing or empty |
| Configuration.SmokeTestConfiguration | test/index.js:3-17 | the configuration `{endpoint: '', index: {callback, options: {param: 'userId'}}}` gives exactly one GET binding, at the join of '' and ':userId' |
| Configuration.LastOpMember | src/index.ts:223-224 | in an entry list without repeated keys, an operation holds a tuple exactly when the list contains that entry |
| Configuration.LastUseMember | src/index.ts:223-224 | in an entry list without repeated keys, `use` holds a list exactly when the list contains that entry |
| Configuration.EntryOrderIrrelevant | src/index.ts:223-238 | two entry lists with the same entries and no repeated keys build the same options object, so the order of the entries does not matter |
| Configuration.ReduceDistinct | src/index.ts:225-236 | reducing over distinct keys that no earlier entry uses yields entries with distinct keys |
| Configuration.EntriesDistinct | src/index.ts:225-236 | the adapter's entry list never repeats a key |

## Left out

- Express internals are not modelled: request matching, what `mergeParams` does at request time, and how `get`/`put`/`patch`/`delete`/`use` store routes. They belong to a library that is not part of this model, so each call is only recorded as a trace entry.
- Node's `path.join` normalisation is not modelled (separators, `.` and `..`, Windows backslashes). `join` is an arbitrary function parameter, and every property holds for all of them.
- Handler bodies and the `Request`/`Response`/`NextFunction` types are not modelled. Handlers and sub-routers are opaque identifiers.
- Errors Express would raise on malformed input, such as a missing or non-function callback, are not modelled. The source does not validate, and a callback is carried as an opaque value.
- Values the TypeScript types exclude are not modelled: an operation key holding a non-array truthy value such as `1`, and a `param` or `chanel` that is not a string. Missing keys and `null`/`undefined` strings are modelled as `None`.
- The interface cast at src/index.ts:206 and the doc comments are TypeScript-only scaffolding with no behaviour.
