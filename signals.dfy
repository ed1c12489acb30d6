/**
 The observable cell of the signals framework (`LazyImmutable<T>`): a committed value, a staged
 next value, and a double-buffered subscriber set. Consumers join the staged set by reading with
 `value`; only an explicit commit (`merge_subscribers`) moves them into the live set, and `merge`
 notifies (and then forgets) the live set only when the staged value really differs.
 */
module Signals {
  import opened Wrappers

  /** A Bevy entity handle; the generation part of a Bevy entity is not modelled. */
  type Entity = nat

  /** `EntitySet = SparseSet<Entity, ()>`. */
  type EntitySet = set<Entity>

  /** `empty_set()`. */
  function EmptySet(): (s: EntitySet)
    ensures forall e :: e !in s
  {
    {}
  }

  /** The errors a read can report. */
  datatype SignalsError = ReadError(entity: Entity) | NoSignalError

  /** `SignalsResult<T>`. */
  type SignalsResult<T> = Result<T, SignalsError>

  /** `subs` lists exactly the members of `s`, each once (a `Vec` filled from a set's indices). */
  ghost predicate Lists(subs: seq<Entity>, s: EntitySet) {
    && (forall e :: e in subs <==> e in s)
    && (forall i, j :: 0 <= i < j < |subs| ==> subs[i] != subs[j])
  }

  // ---------------------------------------------------------------------------------------------
  // The abstract state of a cell and what each operation does to it.

  datatype CellState<T> = CellState(
    data: T,
    nextValue: Option<T>,
    subscribers: EntitySet,
    nextSubscribers: EntitySet)

  /** What `LazyImmutable::new(data)` builds. */
  function Initial<T>(data: T): CellState<T> {
    CellState(data, None, {}, {})
  }

  /** `merge_next(next)`: stage a value. */
  function Staged<T>(s: CellState<T>, next: T): CellState<T> {
    s.(nextValue := Some(next))
  }

  /** `subscribe(entity)`: stage a subscriber. */
  function Subscribed<T>(s: CellState<T>, entity: Entity): CellState<T> {
    s.(nextSubscribers := s.nextSubscribers + {entity})
  }

  /** `merge_subscribers()`: commit the staged subscribers into the live set. */
  function Committed<T>(s: CellState<T>): CellState<T> {
    s.(subscribers := s.subscribers + s.nextSubscribers, nextSubscribers := {})
  }

  /** A merge commits only a staged value that differs from the committed one. */
  predicate Changes<T(==)>(s: CellState<T>) {
    s.nextValue.Some? && s.nextValue.value != s.data
  }

  /** The new cell state after a merge, and the subscribers the merge hands back. */
  datatype MergeOutcome<T> = MergeOutcome(cell: CellState<T>, notified: EntitySet)

  /** `merge()`. */
  function Merged<T(==)>(s: CellState<T>): MergeOutcome<T> {
    if Changes(s) then
      MergeOutcome(CellState(s.nextValue.value, None, {}, s.nextSubscribers), s.subscribers)
    else
      MergeOutcome(s.(nextValue := None), {})
  }

  // ---------------------------------------------------------------------------------------------
  // The cell itself.

  class LazyImmutable<T(==)> {
    var data: T
    var nextValue: Option<T>
    var subscribers: EntitySet
    var nextSubscribers: EntitySet

    ghost function Snapshot(): CellState<T>
      reads this
    {
      CellState(data, nextValue, subscribers, nextSubscribers)
    }

    /** `LazyImmutable::new`. */
    constructor (data: T)
      ensures Snapshot() == Initial(data)
      ensures this.data == data && nextValue == None
      ensures subscribers == {} && nextSubscribers == {}
    {
      this.data := data;
      nextValue := None;
      subscribers := EmptySet();
      nextSubscribers := EmptySet();
    }

    /** Stage a value for the next merge; nothing else changes and nobody is notified. */
    method MergeNext(next: T)
      modifies this
      ensures Snapshot() == Staged(old(Snapshot()), next)
      ensures nextValue == Some(next)
      ensures data == old(data)
      ensures subscribers == old(subscribers) && nextSubscribers == old(nextSubscribers)
    {
      nextValue := Some(next);
    }

    /** The committed value, with no subscription side effect. */
    function Read(): (r: T)
      reads this
      ensures r == Snapshot().data
    {
      data
    }

    /** Read the committed value and stage `caller` as a subscriber (not yet a live one). */
    method Value(caller: Entity) returns (r: T)
      modifies this
      ensures r == old(Read())
      ensures Snapshot() == Subscribed(old(Snapshot()), caller)
      ensures nextSubscribers == old(nextSubscribers) + {caller}
      ensures subscribers == old(subscribers)
      ensures data == old(data) && nextValue == old(nextValue)
    {
      Subscribe(caller);
      r := Read();
    }

    /** The live subscribers, listed once each; the cell is not changed. */
    method GetSubscribers() returns (subs: seq<Entity>)
      ensures Lists(subs, subscribers)
    {
      subs := [];
      var rest := subscribers;
      while rest != {}
        invariant rest <= subscribers
        invariant forall e :: e in subs <==> e in subscribers && e !in rest
        invariant forall i, j :: 0 <= i < j < |subs| ==> subs[i] != subs[j]
        decreases rest
      {
        var e :| e in rest;
        subs := subs + [e];
        rest := rest - {e};
      }
    }

    /**
     Commit the staged value if it differs from the committed one, handing back (and forgetting)
     the live subscribers; otherwise hand back nobody. The staged value is dropped either way,
     and the staged subscribers are never touched.
     */
    method Merge() returns (subs: seq<Entity>)
      modifies this
      ensures Snapshot() == Merged(old(Snapshot())).cell
      ensures Lists(subs, Merged(old(Snapshot())).notified)
      ensures nextValue == None && nextSubscribers == old(nextSubscribers)
      ensures old(Changes(Snapshot())) ==>
                data == old(nextValue).value && subscribers == {} && Lists(subs, old(subscribers))
      ensures !old(Changes(Snapshot())) ==>
                data == old(data) && subscribers == old(subscribers) && subs == []
    {
      subs := [];
      if nextValue.Some? {
        var next := nextValue.value;
        if data != next {
          data := next;
          subs := GetSubscribers();
          subscribers := {};
        }
      }
      nextValue := None;
    }

    /** Fold the staged subscribers into the live set and empty the staged set. */
    method MergeSubscribers()
      modifies this
      ensures Snapshot() == Committed(old(Snapshot()))
      ensures subscribers == old(subscribers) + old(nextSubscribers) && nextSubscribers == {}
      ensures data == old(data) && nextValue == old(nextValue)
    {
      var pending := nextSubscribers;
      while pending != {}
        invariant pending <= old(nextSubscribers)
        invariant subscribers == old(subscribers) + (old(nextSubscribers) - pending)
        invariant data == old(data) && nextValue == old(nextValue)
        invariant nextSubscribers == old(nextSubscribers)
        decreases pending
      {
        var e :| e in pending;
        subscribers := subscribers + {e};
        pending := pending - {e};
      }
      nextSubscribers := {};
    }

    /** Stage `entity` as a subscriber. */
    method Subscribe(entity: Entity)
      modifies this
      ensures Snapshot() == Subscribed(old(Snapshot()), entity)
      ensures nextSubscribers == old(nextSubscribers) + {entity}
      ensures subscribers == old(subscribers) && data == old(data) && nextValue == old(nextValue)
    {
      nextSubscribers := nextSubscribers + {entity};
    }
  }

  // ---------------------------------------------------------------------------------------------
  // Properties of the cell's protocol.

  /** Glitch suppression: staging the committed value again changes nothing and notifies nobody. */
  lemma EqualWriteIsSuppressed<T>(s: CellState<T>)
    ensures Merged(Staged(s, s.data)).notified == {}
    ensures Merged(Staged(s, s.data)).cell == s.(nextValue := None)
  {
  }

  /** A real change commits the new value and hands back exactly the live subscribers. */
  lemma ChangeNotifiesLiveSubscribers<T>(s: CellState<T>, next: T)
    requires next != s.data
    ensures Merged(Staged(s, next)).notified == s.subscribers
    ensures Merged(Staged(s, next)).cell.data == next
    ensures Merged(Staged(s, next)).cell.subscribers == {}
    ensures Merged(Staged(s, next)).cell.nextSubscribers == s.nextSubscribers
  {
  }

  /** A second merge with no new staged value is quiet and changes nothing. */
  lemma SecondMergeIsQuiet<T>(s: CellState<T>)
    ensures Merged(Merged(s).cell).notified == {}
    ensures Merged(Merged(s).cell).cell == Merged(s).cell
  {
  }

  /**
   Subscription commit ordering: a consumer that subscribes by reading during a tick is not
   handed back by that tick's merge, but once the staged subscribers are committed it is handed
   back by the next real change.
   */
  lemma StagedSubscriberWaitsForCommit<T>(s: CellState<T>, caller: Entity, next: T)
    requires caller !in s.subscribers
    ensures caller !in Merged(Subscribed(s, caller)).notified
    ensures var after := Committed(Merged(Subscribed(s, caller)).cell);
            next != after.data ==> caller in Merged(Staged(after, next)).notified
  {
  }

  /** After a commit every staged and every live subscriber is live, and nothing remains staged. */
  lemma CommitKeepsAndAdds<T>(s: CellState<T>, entity: Entity)
    ensures var c := Committed(Subscribed(s, entity));
            && entity in c.subscribers
            && s.subscribers <= c.subscribers
            && s.nextSubscribers <= c.subscribers
            && c.nextSubscribers == {}
            && c.data == s.data && c.nextValue == s.nextValue
  {
  }

  /** Committing twice is the same as committing once. */
  lemma CommitIsIdempotent<T>(s: CellState<T>)
    ensures Committed(Committed(s)) == Committed(s)
  {
  }

  /** The subscribers handed back in each of a run of ticks, each tick merging one staged write. */
  function TickNotifications<T(==)>(s: CellState<T>, writes: seq<T>): (r: seq<EntitySet>)
    ensures |r| == |writes|
    decreases |writes|
  {
    if writes == [] then []
    else
      var m := Merged(Staged(s, writes[0]));
      [m.notified] + TickNotifications(m.cell, writes[1..])
  }

  /** Over a run of writes without commits, only subscribers live at the start are handed back. */
  lemma {:induction false} NotifiedWereLive<T>(s: CellState<T>, writes: seq<T>, k: nat)
    requires k < |writes|
    ensures TickNotifications(s, writes)[k] <= s.subscribers
    decreases |writes|
  {
    var m := Merged(Staged(s, writes[0]));
    if k > 0 {
      NotifiedWereLive(m.cell, writes[1..], k - 1);
    }
  }

  /**
   A subscription is consumed by the notification it receives: over a run of writes with no
   commit in between, no subscriber is handed back in two different ticks.
   */
  lemma {:induction false} NotifiedAtMostOnce<T>(s: CellState<T>, writes: seq<T>, i: nat, j: nat)
    requires i < j < |writes|
    ensures TickNotifications(s, writes)[i] !! TickNotifications(s, writes)[j]
    decreases |writes|
  {
    var m := Merged(Staged(s, writes[0]));
    if i == 0 {
      NotifiedWereLive(m.cell, writes[1..], j - 1);
    } else {
      NotifiedAtMostOnce(m.cell, writes[1..], i - 1, j - 1);
    }
  }
}
