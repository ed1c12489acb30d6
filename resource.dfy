/**
 The shared per-tick context of the reference implementation (`SignalsResource`): six entity sets.
 A tick starts by clearing five of them; `effects` (effects still running) survives every reset.
 `merge_running` promotes the entities queued for the next iteration into the running set.
 */
module Resource {
  import opened Signals

  datatype Bookkeeping = Bookkeeping(
    running: EntitySet,
    nextRunning: EntitySet,
    processed: EntitySet,
    changed: EntitySet,
    deferred: EntitySet,
    effects: EntitySet)

  /** What `Default::default` builds. */
  function Empty(): Bookkeeping {
    Bookkeeping({}, {}, {}, {}, {}, {})
  }

  /** `init`: clear everything but `effects`. */
  function Initialized(b: Bookkeeping): Bookkeeping {
    b.(running := {}, nextRunning := {}, processed := {}, changed := {}, deferred := {})
  }

  /** The new context after `merge_running`, and whether anything was moved. */
  datatype RunningMerge = RunningMerge(state: Bookkeeping, moved: bool)

  /** `merge_running`. */
  function MergedRunning(b: Bookkeeping): RunningMerge {
    if b.nextRunning == {} then RunningMerge(b, false)
    else RunningMerge(b.(running := b.running + b.nextRunning, nextRunning := {}), true)
  }

  class SignalsResource {
    /** The iteration currently running. */
    var running: EntitySet
    /** What runs after the current iteration ends. */
    var nextRunning: EntitySet
    /** Memos already added to a running set. */
    var processed: EntitySet
    /** Signals and memos whose data actually changed. */
    var changed: EntitySet
    /** Effects to evaluate. */
    var deferred: EntitySet
    /** Effects still running, which must not be re-triggered. */
    var effects: EntitySet

    ghost function Snapshot(): Bookkeeping
      reads this
    {
      Bookkeeping(running, nextRunning, processed, changed, deferred, effects)
    }

    /** `Default::default`: all six sets empty. */
    constructor Default()
      ensures Snapshot() == Empty()
      ensures running == {} && nextRunning == {} && processed == {}
      ensures changed == {} && deferred == {} && effects == {}
    {
      running := EmptySet();
      nextRunning := EmptySet();
      processed := EmptySet();
      changed := EmptySet();
      deferred := EmptySet();
      effects := EmptySet();
    }

    /** Start a tick afresh, remembering the effects that are still running. */
    method Init()
      modifies this
      ensures Snapshot() == Initialized(old(Snapshot()))
      ensures running == {} && nextRunning == {} && processed == {}
      ensures changed == {} && deferred == {}
      ensures effects == old(effects)
    {
      running := {};
      nextRunning := {};
      processed := {};
      changed := {};
      deferred := {};
    }

    /** Move `nextRunning` into `running`, reporting whether there was anything to move. */
    method MergeRunning() returns (moved: bool)
      modifies this
      ensures Snapshot() == MergedRunning(old(Snapshot())).state
      ensures moved == MergedRunning(old(Snapshot())).moved
      ensures moved <==> old(nextRunning) != {}
      ensures running == old(running) + old(nextRunning) && nextRunning == {}
      ensures processed == old(processed) && changed == old(changed)
      ensures deferred == old(deferred) && effects == old(effects)
    {
      if nextRunning == {} {
        return false;
      }
      var pending := nextRunning;
      while pending != {}
        invariant pending <= old(nextRunning)
        invariant running == old(running) + (old(nextRunning) - pending)
        invariant nextRunning == old(nextRunning)
        invariant processed == old(processed) && changed == old(changed)
        invariant deferred == old(deferred) && effects == old(effects)
        decreases pending
      {
        var e :| e in pending;
        running := running + {e};
        pending := pending - {e};
      }
      nextRunning := {};
      return true;
    }
  }

  // ---------------------------------------------------------------------------------------------
  // Properties of the tick context.

  /** `init` empties the five per-tick sets and keeps `effects`. */
  lemma InitKeepsOnlyEffects(b: Bookkeeping)
    ensures Initialized(b) == Empty().(effects := b.effects)
  {
  }

  /** A default context is already initialized. */
  lemma DefaultIsInitialized()
    ensures Initialized(Empty()) == Empty()
  {
  }

  /** Right after `init` there is nothing to merge into the running set. */
  lemma MergeRunningAfterInitIsQuiet(b: Bookkeeping)
    ensures MergedRunning(Initialized(b)) == RunningMerge(Initialized(b), false)
  {
  }

  /**
   `merge_running` reports a move exactly when `nextRunning` was non-empty, never loses a running
   entity, and touches none of `processed`, `changed`, `deferred`, `effects`.
   */
  lemma MergeRunningFrame(b: Bookkeeping)
    ensures MergedRunning(b).moved <==> b.nextRunning != {}
    ensures b.running <= MergedRunning(b).state.running
    ensures MergedRunning(b).state.running == b.running + b.nextRunning
    ensures MergedRunning(b).state.nextRunning == {}
    ensures var after := MergedRunning(b).state;
            && after.processed == b.processed && after.changed == b.changed
            && after.deferred == b.deferred && after.effects == b.effects
  {
  }

  /** Calling `merge_running` twice in a row: the second call reports false and changes nothing. */
  lemma SecondMergeRunningIsQuiet(b: Bookkeeping)
    ensures var first := MergedRunning(b).state;
            MergedRunning(first) == RunningMerge(first, false)
  {
  }
}
