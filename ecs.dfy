/**
 The parts of the Bevy host that the signals API touches, modelled abstractly: a world of entities
 (each possibly carrying a cell), the `ImmutableState` component recording which component id holds
 an entity's cell, the component-info table, the type registry, the entity allocator, and the
 `Commands` queue whose commands the host applies later.
 */
module Ecs {
  import opened Wrappers
  import opened Signals

  type ComponentId = nat
  type TypeId = nat

  /** `LazySignalsResult<R>`: `None` means "no value yet"; an `Err` is stored like any value. */
  type LazySignalsResult<R> = Option<Result<R, SignalsError>>

  /** The commands the API enqueues (the propagator and effect closures are not carried). */
  datatype Command<R> =
    | CreateState(entity: Entity, data: R)
    | CreateComputed(entity: Entity, sources: seq<Entity>)
    | CreateEffect(entity: Entity, sources: seq<Entity>, triggers: seq<Entity>)
    | SendSignal(signal: Entity, data: R)
    | TriggerSignal(signal: Entity, data: R)

  class World<R(==)> {
    /** The existing entities; `Some(cell)` when the entity carries a cell of value type `R`. */
    var cells: map<Entity, Option<LazyImmutable<LazySignalsResult<R>>>>
    /** The `ImmutableState` component: the component id of an entity's cell. */
    var immutableStates: map<Entity, ComponentId>
    /** `components().get_info(id)` and that info's `type_id()`. */
    var componentInfos: map<ComponentId, Option<TypeId>>
    /** The types registered for reflection as observables. */
    var registry: set<TypeId>
    /** The entities handed out so far, whether they exist yet or are only reserved. */
    var issued: set<Entity>
    /** The entity allocator's next index: every issued index lies below it. */
    var nextEntity: nat

    /** An empty world: no entity, no component info, no registered type. */
    constructor ()
      ensures Valid()
      ensures cells == map[] && immutableStates == map[] && componentInfos == map[]
      ensures registry == {} && issued == {} && nextEntity == 0
    {
      cells := map[];
      immutableStates := map[];
      componentInfos := map[];
      registry := {};
      issued := {};
      nextEntity := 0;
    }

    /** Every existing entity was issued, and no two entities share one cell. */
    ghost predicate Valid()
      reads this
    {
      && (forall e :: e in cells ==> e in issued)
      && (forall e :: e in issued ==> e < nextEntity)
      && (forall a, b :: a in cells && b in cells && a != b && cells[a].Some? && cells[b].Some?
            ==> cells[a].value != cells[b].value)
    }

    /** The cell object of `e`, if it has one. */
    function CellObjects(e: Entity): set<object>
      reads this
    {
      if e in cells && cells[e].Some? then {cells[e].value} else {}
    }

    /** `Entities::reserve_entity`: a handle that no existing or earlier reserved entity has. */
    method ReserveEntity() returns (e: Entity)
      requires Valid()
      modifies this`nextEntity, this`issued
      ensures Valid()
      ensures e !in cells && e !in old(issued)
      ensures issued == old(issued) + {e}
    {
      e := nextEntity;
      nextEntity := nextEntity + 1;
      issued := issued + {e};
    }
  }

  class Commands<R(==)> {
    /** The world whose allocator `spawn_empty` reserves handles from. */
    const world: World<R>
    /** The commands waiting for the host to apply them, oldest first. */
    var queue: seq<Command<R>>

    constructor (world: World<R>)
      ensures this.world == world && queue == []
    {
      this.world := world;
      queue := [];
    }

    /** `spawn_empty().id()`: reserve a fresh entity; nothing is queued. */
    method SpawnEmpty() returns (e: Entity)
      requires world.Valid()
      modifies world`nextEntity, world`issued
      ensures world.Valid()
      ensures e !in world.cells && e !in old(world.issued)
      ensures world.issued == old(world.issued) + {e}
    {
      e := world.ReserveEntity();
    }

    /** Enqueue one command. */
    method Push(c: Command<R>)
      modifies this`queue
      ensures queue == old(queue) + [c]
    {
      queue := queue + [c];
    }
  }
}
