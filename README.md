# bevy_lazy_signals: the reactive cell, the tick context and the signals API

This project models the bookkeeping core of `bevy_lazy_signals`, a lazy, glitch-free reactive
library for the Bevy engine, and proves properties of it in Dafny 4.11.

- **The observable cell** `LazyImmutable<T>` (`signals.dfy`, class `Signals.LazyImmutable`): a
  committed value, a staged next value, a live subscriber set and a staged subscriber set. A
  consumer joins the staged set in one of two ways: by reading with `value`, or by a direct
  `subscribe` call, such as the one the subscribe helper makes. `merge_subscribers` commits the
  staged set. `merge` commits a staged value only when it differs from the current one
  (glitch suppression) and then hands back the live subscribers and forgets them. Each method is
  specified by a pure transition function on the snapshot datatype `CellState`, and the lemmas
  about the protocol are proved on those functions. The functions `Initial`, `Staged`,
  `Subscribed`, `Committed` and `Merged` are those specifications, and the predicate `Changes`
  is the guard of `merge`.
- **The tick context** `SignalsResource` (`resource.dfy`): six entity sets. `init` clears five
  of them and keeps `effects`; `merge_running` promotes `next_running` into `running`. The set
  that outlives a reset is `effects`, the effects still running. `running` is the current
  iteration's set and is cleared by `init`, so the model follows the code on this point, not a
  reading of "running" as never cleared. The functions `Empty`, `Initialized` and
  `MergedRunning` on the snapshot datatype `Bookkeeping` are the specifications of `Default`,
  `Init` and `MergeRunning`.
- **The host world** (`ecs.dfy`): an abstract Bevy world. It maps every existing entity to the
  cell it carries, if any. It also holds the `ImmutableState` component ids, the component-info
  table, the reflection type registry and the entity allocator, and `Commands` is a queue of
  commands for the host to apply later. A world starts empty (`Ecs.World.constructor`).
- **The API facade** `LazySignals` (`api.dfy`): `read` and `value` with their error branches,
  `send`/`trigger`, and `state`/`computed`/`effect`, which each reserve a fresh entity.
- **The subscribe helper** (`wizardry.dfy`): resolving a source's cell through its component id
  and type id, then subscribing and committing at once. The reflection-based conversion to a
  trait object is the abstract step `ResolveObservable`. The predicate `Resolves` holds when
  the source exists, has an `ImmutableState`, and that component has info with a type id
  (`src/arcane_wizardry.rs:93-105`). The predicate `Dispatchable` holds when the resolved source
  really holds a cell whose type is registered: the lookups at
  `src/arcane_wizardry.rs:31-51` and `:66` unwrap on exactly these conditions.

`Entity` is a natural number. A `Vec<Entity>` filled from a `SparseSet` is a duplicate-free
sequence listing exactly that set (`Signals.Lists`). `LazySignalsResult<R>` is
`Option<Result<R, SignalsError>>`. The `read` in `src/api.rs` returns the cell's own read result
at that type, so the world's cells hold `LazySignalsResult<R>` values.

The cell's error type in `src/signals.rs` is `SignalsError`. `src/api.rs` uses
`LazySignalsError`, from a framework module that is not part of this model. The two variants
`src/api.rs` uses (`ReadError(entity)` at lines 94 and 142, `NoSignalError` at lines 97 and 145)
have the same names as the two variants of `SignalsError`. Both are modelled by
`Signals.SignalsError`.

## Model

| member | source | states |
|---|---|---|
| Signals.EmptySet | src/signals.rs:216-218 | the set `empty_set` builds has no member |
| Signals.LazyImmutable.constructor | src/signals.rs:97-99 | `data` is the given value, nothing is staged, both subscriber sets are empty |
| Signals.LazyImmutable.MergeNext | src/signals.rs:109-111 | the staged value becomes `Some(next)`; `data` and both subscriber sets are unchanged |
| Signals.LazyImmutable.Read | src/signals.rs:113-115 | returns the committed value; as a function it changes nothing, in particular no subscriber set |
| Signals.LazyImmutable.Value | src/signals.rs:117-120 | returns the committed value as it was before the call, adds `caller` to the staged subscribers only, changes nothing else |
| Signals.LazyImmutable.GetSubscribers | src/signals.rs:124-131 | the result lists every live subscriber exactly once and nothing else; the cell is not changed |
| Signals.LazyImmutable.Merge | src/signals.rs:133-155 | on a staged value that differs from `data`: `data` takes it, the result lists exactly the previous live subscribers, the live set is emptied; otherwise `data` and the live set are unchanged and the result is empty; either way nothing remains staged and the staged subscribers are untouched |
| Signals.LazyImmutable.MergeSubscribers | src/signals.rs:157-162 | the live set becomes its union with the staged set, and the staged set becomes empty |
| Signals.LazyImmutable.Subscribe | src/signals.rs:164-166 | adds the entity to the staged subscribers and changes nothing else |
| Signals.EqualWriteIsSuppressed | src/signals.rs:137-154 | merging a staged value equal to the committed one notifies nobody and changes nothing but clearing the staged value |
| Signals.ChangeNotifiesLiveSubscribers | src/signals.rs:137-153 | merging a staged value that differs hands back exactly the live subscribers, commits the value, empties the live set and keeps the staged subscribers |
| Signals.SecondMergeIsQuiet | src/signals.rs:133-155 | a second merge with no new staged value hands back nobody and changes nothing |
| Signals.StagedSubscriberWaitsForCommit | src/signals.rs:117-120 | a consumer that subscribes during a tick is not handed back by that tick's merge, but is handed back by the next real change once the staged subscribers are committed |
| Signals.CommitKeepsAndAdds | src/signals.rs:157-166 | subscribe then commit: the entity is live, every previously live and staged subscriber is live, nothing remains staged, value and staged value are untouched |
| Signals.CommitIsIdempotent | src/signals.rs:157-162 | committing the staged subscribers twice equals committing once |
| Signals.TickNotifications | src/signals.rs:133-155 | a run of ticks, each merging one write, yields one notification set per write |
| Signals.NotifiedWereLive | src/signals.rs:146-150 | over a run of writes without a subscriber commit, every notified entity was a live subscriber at the start |
| Signals.NotifiedAtMostOnce | src/signals.rs:146-150 | over a run of writes without a subscriber commit, no subscriber is notified in two different ticks: a notification consumes the subscription |
| Resource.SignalsResource.Default | src/lib.rs:103-113 | all six sets are empty |
| Resource.SignalsResource.Init | src/lib.rs:80-87 | `running`, `next_running`, `processed`, `changed` and `deferred` are emptied; `effects` is unchanged |
| Resource.SignalsResource.MergeRunning | src/lib.rs:90-100 | returns true exactly when `next_running` was non-empty; then `running` gains `next_running`, which is emptied; with nothing to move nothing changes; the other four sets never change |
| Resource.InitKeepsOnlyEffects | src/lib.rs:80-87 | after `init` the context is the empty one except for the unchanged `effects` |
| Resource.DefaultIsInitialized | src/lib.rs:103-113 | `init` on a default context leaves it as it is |
| Resource.MergeRunningAfterInitIsQuiet | src/lib.rs:80-100 | right after `init`, `merge_running` reports false and changes nothing |
| Resource.MergeRunningFrame | src/lib.rs:90-100 | `merge_running` moves exactly when `next_running` is non-empty, never shrinks `running`, empties `next_running`, and leaves `processed`, `changed`, `deferred` and `effects` unchanged |
| Resource.SecondMergeRunningIsQuiet | src/lib.rs:90-100 | calling `merge_running` twice in a row: the second call reports false and changes nothing |
| Ecs.World.ReserveEntity | src/api.rs:65 | the handle is new: not an existing entity and never handed out before; exactly one handle is added to those handed out |
| Ecs.Commands.SpawnEmpty | src/api.rs:65 | reserves exactly one fresh entity and queues nothing |
| Ecs.Commands.Push | src/api.rs:66 | appends exactly the given command to the queue |
| Api.EndEffect | src/api.rs:7-9 | the result is present and successful |
| Api.Computed | src/api.rs:59-68 | returns a fresh entity, reserves exactly that one, and queues exactly one create-computed command for it over the given sources |
| Api.Effect | src/api.rs:70-80 | returns a fresh entity, reserves exactly that one, and queues exactly one create-effect command for it over the given sources and triggers |
| Api.Read | src/api.rs:82-99 | no handle gives `NoSignalError`; an entity without a cell of this type gives `ReadError` of that entity; on a cell the result is the cell's committed value; as a function it changes nothing |
| Api.Send | src/api.rs:101-110 | with no handle nothing is queued; with a handle exactly one send command for it with the data is queued |
| Api.State | src/api.rs:112-116 | returns a fresh entity, reserves exactly that one, and queues exactly one create-state command for it with the initial data |
| Api.Trigger | src/api.rs:118-127 | with no handle nothing is queued; with a handle exactly one trigger command for it with the data is queued |
| Api.Value | src/api.rs:129-147 | returns exactly what `read` would have returned, does not change what `read` returns, on a cell stages `caller` as that cell's subscriber, and leaves every other cell unchanged (so the error cases change nothing) |
| Wizardry.ResolveObservable | src/arcane_wizardry.rs:20-77 | requires the entity to have the component, the type id to be that component's own, and the type to be registered (the lookups unwrap); the result is the entity's own cell |
| Wizardry.Subscribe | src/arcane_wizardry.rs:80-128 | if the source is missing, has no `ImmutableState`, or its component has no info or type id, no cell changes; otherwise the entity is a live subscriber of the source, previous live subscribers are kept, nothing remains staged, and no other cell changes |

## Left out

- Reflection and the unsafe pointer-to-trait-object conversion (`src/arcane_wizardry.rs:20-52`) are replaced by the abstract step `Wizardry.ResolveObservable`. The three registry lookups it unwraps are collapsed into one condition: the type is registered.
- The closure passed to `run_as_observable` is not modelled as a value. `Wizardry.Subscribe` runs its body (subscribe, then commit) directly on the resolved cell.
- `get_field`, `make_tuple`, `make_effect_with`, `make_propagator_with` and `store_result` (`src/api.rs:11-53`) rely on reflection-based tuple marshalling and on a cell `update` method that is not part of this model. Their error handling only logs.
- The propagator and effect closures given to `computed` and `effect` are not carried by the queued commands.
- What the commands do when the host applies them is not modelled: the `commands` module is not part of this model.
- The plugin and schedule wiring (`src/lib.rs:30-53`) is not modelled. Neither are the phase systems (`init_subscribers`, `send_signals`, `calculate_memos`, `apply_deferred_effects`) or the `factory`, `reference_impl`, `framework` and `lazy_immutable` modules; none of them is part of this model.
- Asynchronous tasks and the lifecycle of the `running`/`effects` sets across ticks are not modelled, because no code that uses those sets is part of this model.
- Logging (`info!`, `trace!`, `error!`) is left out.
- The convenience aliases (`src/lib.rs:22-25`) are left out, including `ImmutableFloat` over `f64`: the cell is generic over any type with equality.
- Entity generations and the reuse of freed entity indices are not modelled. The allocator hands out increasing indices.
- `world.entity` and `world.entity_mut` panic when the entity does not exist. `Api.Read` and `Api.Value` therefore require a given handle to name an existing entity.
- The order of the `Vec` returned by `get_subscribers` and `merge` is not modelled, because nothing modelled depends on it. A `SparseSet` iterates in the order of its dense index vector. The model states only which entities the `Vec` holds, each exactly once.
- Wizardry.Subscribe: the world holds cells of one value type `R`, and an entity with a cell of any other type is represented like an entity with no cell. So the contract covers only sources whose cell has type `R`. A resolvable source with a cell of another type, which the type-erased helper subscribes in the same way, is excluded by the requirement that a resolvable source holds a cell.
- Api.State: the command carries the raw initial value of type `R`. The world's cells hold `LazySignalsResult<R>`, and how the host wraps that value when it creates the cell (the `commands` module) is not part of this model.
