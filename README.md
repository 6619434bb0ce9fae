# Node-Mongoose-Scenario seeding engine, modelled in Dafny

`scenario(model, rows)` seeds a Mongoose database from plain rows. Rows name
each other through symbolic labels. A row carries its own label in `_ref`,
and its foreign-key fields hold the labels of the rows they point to.

The engine keeps one shared `settings` object:
- `knownFK` caches each model's foreign-key paths.
- `refs` maps each label to the id the store gave it.
- `defer[label][sid]` parks the rows that wait on a label that is not created yet.
- `nextId` numbers the rows taken in (`_sid = 'ID-' + n`).
- `created` and `createdTotal` hold the counts reported to the `success`, `fail` and `finally` hooks.

A row is created once every foreign key it has is resolved. Creating a row
binds its label and re-attempts the rows that were waiting on it.

The model is in seven files:

- `values.dfy`: the JavaScript values the engine looks at. It covers truthiness, the conversion of a value to a property key (`refs[x]`, `defer[x]`), what `for (i in x)` visits, and the sids `'ID-' + n`, which are proved injective.
- `schema.dfy`: the foreign-key classification of `scenarioFKs`.
- `resolve.dfy`: what `scenarioCreator` does to each foreign-key field. It contains the array-mapping loop (`MapArray`, a `while` loop proved equal to the function `ScanArray`).
- `dispatch.dfy`: the argument shapes `scenario` accepts and the branch each takes (see Findings).
- `engine.dfy`: `settings` as a value (`State`), every operation as a transition function on it, the invariant `Valid`, and the lemmas.
- `seeder.dfy`: the class `Seeder`, whose fields are the fields of `settings` and whose methods update them in place, with the loops of index.js. Each method is proved to produce exactly the state the matching engine function computes, so the engine lemmas hold of the class.
- `wrappers.dfy`: `Option`, and a fact about draining a set in a loop.

Two points of the model are choices of representation:
- **Row objects are shared.** One object can sit in several defer buckets and is rewritten in place. The model therefore keeps every row in `items`, keyed by its sid, and a bucket holds sids, in insertion order.
- **`create` is asynchronous.** `Attempt` issues a request: it records it in `requests` and marks the sid outstanding. `Complete(sid, result)` is the callback, with the store's answer (`Created(id)` or `Rejected(error)`) as a parameter.

Some behaviour of the code is kept as written:
- A single reference whose label is known is overwritten with the id even when another field makes the row wait (`Engine.KnownRefRewritten`). The retry then looks the id up as a label and waits on its hexadecimal text (`Engine.RetryWaitsOnOwnId`).
- The first unknown element of an array field may be falsy (`''`, `0`, `null`, `false`). Then `if (!missing)` lets the array be replaced by the ids before it, instead of deferring (`Resolve.EffectOf`).
- `knownFK[model]` is set to `{}` before the schema lookup that throws for an unknown model.
- `scenarioFinalize` runs after every successful create and resets the counts. So between calls `created` is always `{}` (part of `Engine.Valid`), and every report carries `{model: 1}`.
- The label table is not write-once. When two rows share a truthy `_ref`, the second one created rebinds the label to its own id (`Engine.LabelRebound`).
- `scenarioRelink` ignores whether a re-attempt could not call `create`. That is harmless: a row in a bucket always has a model the store knows, so a re-attempt never throws (`Engine.RetryNeverThrows`).

## Model

| member | source | states |
|---|---|---|
| Values.Truthy | index.js:142 | a value is falsy exactly when it is `null`, `false`, `0` or `''` (every id, array and object is truthy) |
| Values.KeyOf | index.js:106 | a value used as a property key is converted as `String(x)`: a string is its own key, an id its 24-digit lower-case hexadecimal text, a number its decimal text, `null`, `true` and `false` their names, an object `[object Object]`, an empty array the empty text |
| Values.HexInjective | index.js:106 | below `16^w`, two numbers with the same `w`-digit hexadecimal text are equal |
| Values.OidKeysDistinct | index.js:106 | distinct ids convert to distinct property keys |
| Values.ArrayElems | index.js:118-119 | `for (var i in x)` visits an array's elements, a string's characters as one-character strings (one per index, in order), and nothing for other values |
| Values.SidInjective | index.js:68 | two counter values with the same `'ID-' + n` text are equal |
| Schema.ForeignKeys | index.js:82-90 | a path is a foreign key iff it is not `id`/`_id` and its instance or its caster's instance is `ObjectID`; it is a single reference exactly when its own instance is `ObjectID` |
| Resolve.ScanArray | index.js:116-125 | the ids of the longest known prefix of the array, in order, and the first unknown element if the loop stopped early |
| Resolve.MapArray | index.js:116-125 | the array loop yields the longest known prefix's ids and the first unknown element, equal to `ScanArray` |
| Resolve.ScanUnique | index.js:116-125 | the loop's outcome is determined by the array and `refs` |
| Resolve.EffectOf | index.js:104-134 | a single reference is replaced by `refs[label]` iff its label is known, else waits on that label; an array is replaced by all its ids in order when all are known; a replacement is always a known prefix, shorter only when the next element is unknown and falsy; a wait is on the first unknown element, which is truthy |
| Resolve.Resolved | index.js:98-136 | the row keeps its set of properties and every non-foreign-key property |
| Resolve.Waits | index.js:96-136 | the row waits on no label exactly when no foreign key made it wait (`canCreate`) |
| Resolve.FieldOutcome | index.js:104-134 | each present foreign key is either rewritten to its effect's value, or left unchanged with its label among the waits |
| Resolve.Payload | index.js:27 | the document given to `create` has the row's properties less `_model`, `_sid`, `_ref`, with the same values |
| Dispatch.RouteOf | index.js:30-56 | a falsy first argument links; an array is rejected; a name with an array loads the array; a hash loads each model; a name with an object loads that one row; anything else is an invalid invoke naming both `typeof`s |
| Dispatch.RouteAsWritten | index.js:36-55 | the tests in their written order: a falsy first argument links, a name with an array loads it, any array or hash loads each entry as a model, a name with an object loads one row, and no call is rejected as an array |
| Dispatch.ArrayTakenForHash | index.js:42-47 | as written, an array first argument goes to the hash branch |
| Dispatch.ArrayRejectionUnreachable | index.js:52-53 | as written, no call reaches the "scenario(array) is not supported" throw |
| Dispatch.RouteAgreesExceptArrays | index.js:36-55 | the corrected dispatch differs from the written one only for array first arguments |
| Engine.DeferOne | index.js:186-190 | after `scenarioDefer(lbl, sid)` the bucket `lbl` exists and holds exactly its earlier sids, still first and in their order, and `sid`; the other buckets are unchanged |
| Engine.DeferIdempotent | index.js:186-190 | deferring the same row on the same label twice is the same as once |
| Engine.Without | index.js:157 | deleting `sid` from a bucket keeps exactly the other sids, without duplicates |
| Engine.InitialValid | index.js:19-27 | the initial `settings` satisfy the invariant |
| Engine.DeferAllSpec | index.js:111 | deferring on a set of labels adds the row to exactly those buckets, keeps buckets non-empty and duplicate-free, and leaves the other buckets alone |
| Engine.Attempt | index.js:94-139 | an attempt throws only for a model the store lacks, and binds no label, adds no row, and changes no FK cache entry, id counter or report |
| Engine.AttemptShape | index.js:94-139 | an attempt writes only its own row's fields, the defer table, and the outstanding requests |
| Engine.WaitsNeedSchema | index.js:98 | a row can wait only if its model has foreign keys, so it is in the store |
| Engine.AttemptValid | index.js:94-168 | an attempt keeps the invariant, changes no other row and no label, count or report |
| Engine.AttemptIssues | index.js:94-139 | the row's foreign keys are resolved in place; `create` is issued exactly when nothing waits and the store knows the model, with the resolved row less `_model`/`_sid`/`_ref` as its document; the row is in exactly the buckets it was in or waits on; an unknown model throws |
| Engine.KnownRefSent | index.js:104-139 | a single reference whose label is known reaches the created document as that label's id |
| Engine.KnownArraySent | index.js:114-139 | an array whose labels are all known reaches the created document as their ids, in order |
| Engine.PartwayStep | index.js:98-135 | one turn of the foreign-key loop rewrites that field, defers the row on one label, or does nothing, as its effect says |
| Engine.KnownRefRewritten | index.js:105-108 | a known single reference is rewritten to its id even when the row is deferred because of another field |
| Engine.RetryWaitsOnOwnId | index.js:105-112 | on a retry, a single reference already holding an id is looked up by the id's text, so the row waits on that text and is not created |
| Engine.RetryAll | index.js:180-182 | re-attempting rows adds no row and changes no label, FK cache entry, id counter or report |
| Engine.RetryNeverThrows | index.js:180-182 | a row re-attempted from a bucket never throws, so relinking may ignore the outcome |
| Engine.RetryAllSpec | index.js:180-182 | re-attempting rows keeps the invariant and changes no other row, label, count or other row's requests |
| Engine.RelinkSpec | index.js:176-184 | `scenarioRelink(lbl)` keeps the invariant and re-attempts only the rows in `defer[lbl]` |
| Engine.RelinkResolves | index.js:176-184 | each row waiting on the label is re-attempted: its foreign keys are resolved against the labels known now, and `create` is issued for it exactly when nothing makes it wait any more |
| Engine.RetryAllResolves | index.js:180-182 | re-attempting distinct rows of known models resolves each of them once and issues `create` for it exactly when it no longer waits |
| Engine.WaitingRefBound | index.js:142-145 | once the row carrying a label is created, a waiting row's single reference to that label holds the new id |
| Engine.WithdrawOnStep | index.js:156-162 | one turn of the cleanup loop removes the sid from that bucket and deletes the bucket if it empties |
| Engine.WithdrawSpec | index.js:155-164 | after the cleanup loop no bucket holds the sid or is empty, buckets without the sid are unchanged, and every other row stays deferred on each label it waited on |
| Engine.CompleteRejected | index.js:140-141 | a store error calls `failCreate(model, err)` and changes no label, count, row or bucket |
| Engine.BoundSpec | index.js:142-146 | on success the row's truthy `_ref` is bound to the new id, only rows waiting on it change, and no other row leaves a bucket |
| Engine.RecordedSpec | index.js:139-153 | on success the counts become `{model: 1}`, no other row leaves a bucket, and the rest of the callback is the cleanup loop then `scenarioFinalize` |
| Engine.Finalize | index.js:192-202 | two reports are appended: `success` exactly when nothing waits (else `fail` with the defer table), then `finally`; the counts are reset and nothing else changes |
| Engine.OwnLabel | index.js:142-144 | a row binds a label exactly when its `_ref` is truthy, under the property-key text of the `_ref` (a string label as itself) |
| Engine.Bound | index.js:142-146 | binding and relinking set `refs[label]` to the new id when the row has a truthy `_ref`, and change no other label, no count and no report |
| Engine.Complete | index.js:139-166 | the callback keeps the rows and the cache; an error only reports `failCreate` and clears the outstanding request, changing nothing else; a success binds the label, appends `success` exactly when nothing waits afterwards and `fail` exactly when something does, then `finally`, and resets the counts |
| Engine.CompleteCreated | index.js:139-166 | a successful create keeps the invariant, binds the label, re-attempts only the rows waiting on it, removes the sid from every bucket while every other deferred row stays deferred on its label, then reports success iff the defer table is empty (fail otherwise), then finally, with counts `{model: 1}` |
| Engine.LabelRebound | index.js:144 | creating a second row with an already bound label rebinds it to the newer id |
| Engine.FreshSid | index.js:68 | a counter value not yet reached names no row |
| Engine.SidsDistinct | index.js:68 | distinct rows carry distinct counter values |
| Engine.Intake | index.js:68-69 | the row keeps every property but `_sid` and `_model`, which the engine overwrites, with the same values |
| Engine.Numbered | index.js:68-69 | numbering a row files it under `'ID-' + nextId` with counter `nextId` and its model, changes no other row, and increments `nextId` |
| Engine.NumberedSpec | index.js:68-69 | numbering keeps the invariant, uses a fresh sid, gives it the old `nextId` and the model, and increments `nextId` |
| Engine.TakeOneSpec | index.js:67-71 | one intake turn keeps the invariant, adds exactly the fresh sid, and throws only when the store lacks the model |
| Engine.TakeInSpec | index.js:67-71 | without a throw, `nextId` grows by exactly the number of rows and the rows get `'ID-' + n` for consecutive n from the old `nextId`, with their model; a throw means the model is unknown |
| Engine.TakeOneItems | index.js:68-70 | one intake turn files its row, with its foreign keys resolved, under the fresh sid and changes no other row |
| Engine.TakeInFiled | index.js:67-71 | without a throw, the rows after the loop are exactly the earlier rows with each new row filed by `FileRows` |
| Engine.FileRowsAt | index.js:67-70 | the i-th row of the array is filed under `'ID-' + (nextId + i)`, with that counter, its model, and its properties less `_sid`/`_model` with the foreign keys resolved against the labels then known |
| Engine.FileRowsKeeps | index.js:67-70 | filing leaves every row whose sid no new counter names as it was |
| Engine.TakeInKeeps | index.js:67-71 | the loop leaves the rows it did not add as they were |
| Engine.CacheFKsSpec | index.js:78-92 | `scenarioFKs` adds `knownFK[model]` (with `{}` for a model the store lacks, which throws), keeps every other model's entry, changes nothing else, and a second call changes nothing |
| Engine.LoadSpec | index.js:63-72 | `scenarioArray` keeps the invariant |
| Engine.LoadAllSpec | index.js:42-47 | the hash branch keeps the invariant |
| Engine.NukeFrame | index.js:31-34 | wiping changes nothing but the list of wiped models |
| Engine.NukeAll | index.js:31-34 | without a throw every `nuke` model is wiped, in order |
| Engine.NukeStops | index.js:31-34 | a throw happens at the first model the store lacks, after wiping the ones before it |
| Engine.ScenarioSpec | index.js:30-56 | every `scenario` call keeps the invariant and counts the call; later calls wipe nothing |
| Engine.BranchSpec | index.js:36-55 | every branch keeps the invariant |
| Engine.ArrayFirstRejected | index.js:52-53 | with the corrected dispatch an array first argument throws and changes nothing |
| Seeding.Classify | index.js:82-90 | the loop over the schema paths builds exactly `ForeignKeys(paths)` |
| Seeding.Seeder.constructor | index.js:8-28 | a new seeder is the initial `settings` and satisfies the invariant |
| Seeding.Seeder.ScenarioFKs | index.js:78-92 | the method leaves the state `CacheFKs` computes and throws when it does |
| Seeding.Seeder.Defer | index.js:186-190 | the method changes only the defer table, as `DeferOne` |
| Seeding.Seeder.Visit | index.js:99-135 | one turn of the foreign-key loop applies the field's effect and reports whether the row waits |
| Seeding.Seeder.Attempt | index.js:94-139 | the method leaves the state `Engine.Attempt` computes and reports the same throw |
| Seeding.Seeder.Relink | index.js:176-184 | the method leaves the state `Engine.Relink` computes |
| Seeding.Seeder.Withdraw | index.js:155-164 | the cleanup loop changes only the defer table, as `Engine.Withdraw` |
| Seeding.Seeder.Finalize | index.js:192-202 | the method appends the reports and resets the counts as `Engine.Finalize` |
| Seeding.Seeder.Bind | index.js:140-146 | the method binds the label and relinks, as `Engine.Bound` |
| Seeding.Seeder.Count | index.js:149-153 | `createdTotal` rises by one and `created[model]` by one, starting from 1 |
| Seeding.Seeder.Complete | index.js:139-166 | the callback leaves the state `Engine.Complete` computes and keeps the invariant |
| Seeding.Seeder.TakeOne | index.js:67-71 | one intake turn leaves the state `Engine.TakeOne` computes |
| Seeding.Seeder.Load | index.js:63-72 | the method leaves the state `Engine.Load` computes and throws when it does |
| Seeding.Seeder.LoadAll | index.js:42-47 | the method leaves the state `Engine.LoadAll` computes |
| Seeding.Seeder.Wipe | index.js:31-34 | the method wipes as `Engine.Nuke` |
| Seeding.Seeder.Enter | index.js:31 | the call is counted, and the first call wipes |
| Seeding.Seeder.Dispatch | index.js:36-55 | the method takes the branch `Engine.Branch` takes, by the corrected dispatch: an array first argument throws (see Findings) |
| Seeding.Seeder.Scenario | index.js:30-56 | the method leaves the state `Engine.Scenario` computes and keeps the invariant; it dispatches by the corrected `RouteOf` (see Findings) |

## Left out

- Mongoose:
  - The store is a parameter. Schemas are a map from model name to paths (`instance`, `caster.instance`).
  - `create` is a request recorded in `requests`, and its answer is a parameter of `Complete`.
  - Wiping (`find({}).remove().exec()`) is recorded in `wiped`.
  - Only the lookup that throws for an unknown model is modelled.
- Order:
  - The order in which a schema's paths and a row's foreign keys are visited is not modelled. It decides the order in which the labels of `defer` are first added, which the `fail` and `finally` hooks can observe. The model's `defer` is a map, so that order is lost.
  - Each bucket keeps its sids in insertion order (`seq`), and the rows of a hash keep their order.
- `settings.debug`, `console.warn` and the `_.defaults` option merge (index.js:13-17, 204-207) are not modelled. The hooks are recorded as `reports`; the `nuke` option is a list of model names.
- `scenarioLink` is never defined; calling it is modelled as the `LinkUndefined` throw.
- `scenarioHasAllMembers` (index.js:170-174) is dead code and is not modelled.
- `flatten`, `unflatten`, `import`, `export`, `set` and the timeout report are not part of index.js and are not part of this model.
- Values:
  - Numbers are integers, so NaN and fractions are not modelled.
  - `for (i in x)` over an ObjectID or a plain object visits nothing in the model.
  - A row that appears twice in the input is two rows in the model, not one shared object.
  - A row property named `_sid` or `_model` is overwritten on intake (`Intake`).
  - Labels and model names are plain keys. A name such as `constructor` or `toString` would find an inherited property of `Object.prototype` in `refs[x]`, `knownFK[x]` or `created[x]`; the model does not capture that.
  - The rows of a hash entry and of `scenario(model, rows)` are arrays of row objects. A hash whose value is a single object (`scenario({users: {...}})`) is outside the model.
  - `IntText` writes every integer in decimal digits. JavaScript writes numbers of 1e21 and above with an exponent, so such keys differ.
- Values.KeyOf: for a non-empty array the contract does not state the comma-joined text of the elements; only the function's body computes it (`JoinKeys`).
- Values.ArrayElems: a Dafny `char` is a Unicode scalar value, while `for (i in s)` visits UTF-16 code units. For a string with characters outside the Basic Multilingual Plane the model visits fewer, whole characters.
- Engine.Branch, Engine.Scenario, Seeding.Seeder.Dispatch, Seeding.Seeder.Scenario: use the corrected dispatch `RouteOf` (see Findings). An array first argument throws `ArrayInvoke` and changes nothing (`Engine.ArrayFirstRejected`). index.js instead takes it for a hash of models named "0", "1", .... For an empty array the loop at index.js:43-45 runs no turn and the call returns without effect. For a non-empty one it caches `knownFK['0'] = {}` and then throws at index.js:82 looking up the schema of model "0". The model does not capture that path.
- Engine.LoadSpec, Engine.LoadAllSpec, Engine.BranchSpec: state only that the invariant is kept. What each row becomes is stated by Engine.TakeInFiled and Engine.FileRowsAt, and by the attempt lemmas.
- Engine.RelinkSpec: states that only the rows waiting on the label change. What each of them becomes is stated by Engine.RelinkResolves and Engine.WaitingRefBound.

## Findings

| source | as written | input that shows it | evidently intended | confidence | as-written member | corrected member |
|---|---|---|---|---|---|---|
| index.js:42-53 | `_.isObject(model)` is tested before `_.isArray(model)`. `_.isObject` is true of arrays, so an array first argument is loaded as a hash of models (keys "0", "1", ...), and the "scenario(array) is not supported" throw can never be reached | `scenario([{name: 'x'}])` | an array first argument throws "scenario(array) is not supported" | not executed | Dispatch.RouteAsWritten (shown by Dispatch.ArrayTakenForHash) | Dispatch.RouteOf |
