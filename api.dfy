/**
 The user-facing facade (`LazySignals`): create states, computeds and effects (each on a freshly
 reserved entity), send and trigger values, and read a cell with or without subscribing.
 */
module Api {
  import opened Wrappers
  import opened Signals
  import opened Ecs

  /** What an effect closure returns when it finished normally. */
  function EndEffect(): (r: LazySignalsResult<()>)
    ensures r.Some? && r.value.Ok?
  {
    Some(Ok(()))
  }

  /** Reserve an entity for a new computed and queue its creation over `sources`. */
  method Computed<R(==)>(sources: seq<Entity>, commands: Commands<R>) returns (entity: Entity)
    requires commands.world.Valid()
    modifies commands`queue, commands.world`nextEntity, commands.world`issued
    ensures commands.world.Valid()
    ensures entity !in commands.world.cells && entity !in old(commands.world.issued)
    ensures commands.world.issued == old(commands.world.issued) + {entity}
    ensures commands.queue == old(commands.queue) + [CreateComputed(entity, sources)]
  {
    entity := commands.SpawnEmpty();
    commands.Push(CreateComputed(entity, sources));
  }

  /** Reserve an entity for a new effect and queue its creation over `sources` and `triggers`. */
  method Effect<R(==)>(sources: seq<Entity>, triggers: seq<Entity>, commands: Commands<R>)
    returns (entity: Entity)
    requires commands.world.Valid()
    modifies commands`queue, commands.world`nextEntity, commands.world`issued
    ensures commands.world.Valid()
    ensures entity !in commands.world.cells && entity !in old(commands.world.issued)
    ensures commands.world.issued == old(commands.world.issued) + {entity}
    ensures commands.queue == old(commands.queue) + [CreateEffect(entity, sources, triggers)]
  {
    entity := commands.SpawnEmpty();
    commands.Push(CreateEffect(entity, sources, triggers));
  }

  /**
   The value of the cell `immutable` names, with no subscription. A missing handle is reported as
   `NoSignalError`, an entity without a cell of this value type as `ReadError` of that entity.
   */
  function Read<R(==)>(immutable: Option<Entity>, world: World<R>): (r: LazySignalsResult<R>)
    requires immutable.Some? ==> immutable.value in world.cells
    reads world, if immutable.Some? then world.CellObjects(immutable.value) else {}
    ensures immutable.None? ==> r == Some(Err(NoSignalError))
    ensures immutable.Some? && world.cells[immutable.value].None? ==>
              r == Some(Err(ReadError(immutable.value)))
    ensures immutable.Some? && world.cells[immutable.value].Some? ==>
              r == world.cells[immutable.value].value.Snapshot().data
  {
    match immutable
    case Some(e) =>
      (match world.cells[e]
       case Some(observable) => observable.Read()
       case None => Some(Err(ReadError(e))))
    case None => Some(Err(NoSignalError))
  }

  /** Queue a write of `data` to `signal`; a missing handle queues nothing. */
  method Send<R(==)>(signal: Option<Entity>, data: R, commands: Commands<R>)
    modifies commands`queue
    ensures commands.queue ==
              old(commands.queue) + if signal.Some? then [SendSignal(signal.value, data)] else []
  {
    if signal.Some? {
      commands.Push(SendSignal(signal.value, data));
    }
  }

  /** Reserve an entity for a new state and queue its creation with initial `data`. */
  method State<R(==)>(data: R, commands: Commands<R>) returns (state: Entity)
    requires commands.world.Valid()
    modifies commands`queue, commands.world`nextEntity, commands.world`issued
    ensures commands.world.Valid()
    ensures state !in commands.world.cells && state !in old(commands.world.issued)
    ensures commands.world.issued == old(commands.world.issued) + {state}
    ensures commands.queue == old(commands.queue) + [CreateState(state, data)]
  {
    state := commands.SpawnEmpty();
    commands.Push(CreateState(state, data));
  }

  /** Queue a trigger of `signal` carrying `data`; a missing handle queues nothing. */
  method Trigger<R(==)>(signal: Option<Entity>, data: R, commands: Commands<R>)
    modifies commands`queue
    ensures commands.queue ==
              old(commands.queue) + if signal.Some? then [TriggerSignal(signal.value, data)] else []
  {
    if signal.Some? {
      commands.Push(TriggerSignal(signal.value, data));
    }
  }

  /**
   Read like `Read`, and on a cell also stage `caller` as a subscriber of that cell. No other cell
   changes, and the error cases change nothing at all.
   */
  method Value<R(==)>(immutable: Option<Entity>, caller: Entity, world: World<R>)
    returns (r: LazySignalsResult<R>)
    requires world.Valid()
    requires immutable.Some? ==> immutable.value in world.cells
    modifies if immutable.Some? then world.CellObjects(immutable.value) else {}
    ensures r == old(Read(immutable, world))
    ensures Read(immutable, world) == old(Read(immutable, world))
    ensures immutable.Some? && world.cells[immutable.value].Some? ==>
              var cell := world.cells[immutable.value].value;
              cell.Snapshot() == Subscribed(old(cell.Snapshot()), caller)
    ensures forall x :: x in world.cells && world.cells[x].Some? && immutable != Some(x) ==>
              world.cells[x].value.Snapshot() == old(world.cells[x].value.Snapshot())
  {
    match immutable {
      case Some(e) =>
        match world.cells[e] {
          case Some(observable) => r := observable.Value(caller);
          case None => r := Some(Err(ReadError(e)));
        }
      case None => r := Some(Err(NoSignalError));
    }
  }

  /** A client: create a state on a fresh world, send to it, and read through a missing handle. */
  method StateThenSend()
  {
    var world := new World<bool>();
    var commands := new Commands(world);
    var s := State(false, commands);
    Send(Some(s), true, commands);
    assert commands.queue == [CreateState(s, false), SendSignal(s, true)];
    Send(None, true, commands);
    assert |commands.queue| == 2;
    var r := Value(None, s, world);
    assert r == Some(Err(NoSignalError));
  }
}
