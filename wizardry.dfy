/**
 Type-erased access to a cell. The host resolves an entity's cell through its `ImmutableState`
 component id, that component's type id and the type registry; resolution is modelled as an
 abstract step that either finds the cell or reports that a link is missing.
 */
module Wizardry {
  import opened Wrappers
  import opened Signals
  import opened Ecs

  /** The source exists, has an `ImmutableState`, and that component id has info with a type id. */
  ghost predicate Resolves<R>(world: World<R>, source: Entity)
    reads world
  {
    && source in world.cells
    && source in world.immutableStates
    && world.immutableStates[source] in world.componentInfos
    && world.componentInfos[world.immutableStates[source]].Some?
  }

  /** A resolved source really holds a cell, and the cell's type is registered for reflection. */
  ghost predicate Dispatchable<R>(world: World<R>, source: Entity)
    reads world
    requires Resolves(world, source)
  {
    && world.cells[source].Some?
    && world.componentInfos[world.immutableStates[source]].value in world.registry
  }

  /**
   `run_as_observable`: view the component `componentId` of `source` as an observable cell. The
   host panics unless the entity has that component and its type is registered.
   */
  method ResolveObservable<R(==)>(world: World<R>, source: Entity, componentId: ComponentId,
                                  typeId: TypeId)
    returns (observable: LazyImmutable<LazySignalsResult<R>>)
    requires source in world.cells && world.cells[source].Some?
    requires source in world.immutableStates && world.immutableStates[source] == componentId
    requires componentId in world.componentInfos && world.componentInfos[componentId] == Some(typeId)
    requires typeId in world.registry
    ensures observable == world.cells[source].value
  {
    observable := world.cells[source].value;
  }

  /**
   Subscribe `entity` to `source` and commit the subscription at once. If the source cannot be
   resolved nothing changes; otherwise only the source's cell changes.
   */
  method Subscribe<R(==)>(entity: Entity, source: Entity, world: World<R>)
    requires world.Valid()
    requires Resolves(world, source) ==> Dispatchable(world, source)
    modifies world.CellObjects(source)
    ensures Resolves(world, source) ==>
              var cell := world.cells[source].value;
              && cell.Snapshot() == Committed(Subscribed(old(cell.Snapshot()), entity))
              && entity in cell.subscribers
              && old(cell.subscribers) <= cell.subscribers
              && cell.nextSubscribers == {}
    ensures !Resolves(world, source) ==>
              forall x :: x in world.cells && world.cells[x].Some? ==>
                world.cells[x].value.Snapshot() == old(world.cells[x].value.Snapshot())
    ensures forall x :: x in world.cells && world.cells[x].Some? && x != source ==>
              world.cells[x].value.Snapshot() == old(world.cells[x].value.Snapshot())
  {
    var componentId: Option<ComponentId> := None;
    var typeId: Option<TypeId> := None;

    if source in world.cells {
      if source in world.immutableStates {
        componentId := Some(world.immutableStates[source]);
        if componentId.value in world.componentInfos {
          typeId := world.componentInfos[componentId.value];
        }
      }
    }

    if componentId.Some? && typeId.Some? {
      if source in world.cells {
        var observable := ResolveObservable(world, source, componentId.value, typeId.value);
        observable.Subscribe(entity);
        observable.MergeSubscribers();
      }
    }
  }
}
