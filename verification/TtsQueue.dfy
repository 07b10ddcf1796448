/** The speech queue and its awaiting drains (shared/tts-queue.ts), as steps that may interleave in any order. */
module TtsQueue {
  import opened Text

  /** Items are numbered as they are enqueued. A drain is suspended while its item plays. */
  datatype World = World(
    items: seq<nat>, draining: bool, drainId: nat, drains: set<nat>,
    enqueued: nat, started: seq<nat>, flushed: set<nat>, interrupted: bool)

  const EMPTY := World([], false, 0, {}, 0, [], {}, false)

  /** `PlayDone(id)`: the promise that drain `id` awaits resolves. */
  datatype Event = Enqueue | Flush | Interrupt | PlayDone(id: nat)

  predicate Enabled(w: World, ev: Event) {
    ev.PlayDone? ==> ev.id in w.drains
  }

  /** The drain loop up to its next suspension or its end. */
  function Drain(w: World, id: nat): World {
    if w.items != [] then
      w.(items := w.items[1..], started := w.started + [w.items[0]], drains := w.drains + {id})
    else
      w.(draining := w.draining && w.drainId != id, drains := w.drains - {id})
  }

  function Step(w: World, ev: Event): World
    requires Enabled(w, ev)
  {
    match ev
    case Enqueue =>
      var v := w.(items := w.items + [w.enqueued], enqueued := w.enqueued + 1, interrupted := false);
      if w.draining then v.(interrupted := w.interrupted)
      else Drain(v.(draining := true, drainId := w.drainId + 1), w.drainId + 1)
    case Flush => w.(items := [], flushed := w.flushed + (set i | i in w.items))
    case Interrupt => w.(draining := false, drainId := w.drainId + 1, interrupted := true)
    case PlayDone(id) =>
      if w.drainId != id then w.(drains := w.drains - {id}) else Drain(w, id)
  }

  class Queue {
    var items: seq<nat>
    var draining: bool
    var drainId: nat
    /** The suspended drains, and what has happened to the items. */
    ghost var drains: set<nat>
    ghost var enqueued: nat
    ghost var started: seq<nat>
    ghost var flushed: set<nat>
    ghost var interrupted: bool

    ghost function Now(): World
      reads this
    {
      World(items, draining, drainId, drains, enqueued, started, flushed, interrupted)
    }

    constructor ()
      ensures Now() == EMPTY
    {
      items, draining, drainId := [], false, 0;
      drains, enqueued, started, flushed, interrupted := {}, 0, [], {}, false;
    }

    /** The loop of `_startDrain` from its test on. */
    method RunDrain(id: nat)
      modifies this
      ensures Now() == Drain(old(Now()), id)
    {
      if |items| > 0 {
        var item := items[0];
        items := items[1..];
        started, drains := started + [item], drains + {id};
        return;
      }
      if drainId == id {
        draining := false;
      }
      drains := drains - {id};
    }

    method Enqueue(item: nat)
      requires item == enqueued
      modifies this
      ensures Now() == Step(old(Now()), Event.Enqueue)
    {
      items := items + [item];
      enqueued := enqueued + 1;
      if !draining {
        drainId := drainId + 1;
        draining, interrupted := true, false;
        RunDrain(drainId);
      }
    }

    method Flush()
      modifies this
      ensures Now() == Step(old(Now()), Event.Flush)
    {
      flushed := flushed + (set i | i in items);
      items := [];
    }

    method InterruptDrain()
      modifies this
      ensures Now() == Step(old(Now()), Interrupt)
    {
      draining := false;
      drainId := drainId + 1;
      interrupted := true;
    }

    /** A drain wakes up after its item. */
    method Resume(id: nat)
      requires id in drains
      modifies this
      ensures Now() == Step(old(Now()), PlayDone(id))
    {
      if drainId != id {
        drains := drains - {id};
        return;
      }
      RunDrain(id);
    }
  }

  // ---------------------------------------------------------------------------------------------
  // Every run
  // ---------------------------------------------------------------------------------------------

  ghost predicate Increasing(s: seq<nat>) {
    forall i, j :: 0 <= i < j < |s| ==> s[i] < s[j]
  }

  /** Each item enqueued so far is started, flushed or still queued, and only one of these. */
  ghost predicate Accounted(w: World) {
    forall i: nat :: i < w.enqueued <==> i in w.started || i in w.items || i in w.flushed
  }

  ghost predicate Apart(w: World) {
    forall i :: i in w.flushed ==> i !in w.started && i !in w.items
  }

  /** The queue is draining exactly while a drain with the current id is suspended; older ones are stale. */
  ghost predicate OneCurrent(w: World) {
    && (w.draining <==> w.drainId in w.drains)
    && (forall id :: id in w.drains ==> id <= w.drainId)
    && (!w.draining && w.items != [] ==> w.interrupted)
  }

  ghost predicate Inv(w: World) {
    Increasing(w.started + w.items) && Accounted(w) && Apart(w) && OneCurrent(w)
  }

  lemma DrainKeeps(w: World, id: nat)
    requires Increasing(w.started + w.items) && Accounted(w) && Apart(w)
    requires id == w.drainId && w.draining && forall d :: d in w.drains ==> d <= w.drainId
    ensures Inv(Drain(w, id))
  {
    if w.items != [] {
      assert w.started + [w.items[0]] + w.items[1..] == w.started + w.items;
      assert w.items == [w.items[0]] + w.items[1..];
      forall i | i in w.flushed ensures i !in w.started + [w.items[0]] && i !in w.items[1..] {
        assert w.items[0] in w.items;
      }
    }
  }

  lemma EnqueueKeeps(w: World)
    requires Inv(w)
    ensures Inv(Step(w, Event.Enqueue))
  {
    var items := w.items + [w.enqueued];
    var v := w.(items := items, enqueued := w.enqueued + 1);
    assert w.started + items == (w.started + w.items) + [w.enqueued];
    forall k | 0 <= k < |w.started + w.items| ensures (w.started + w.items)[k] < w.enqueued {
      var x := (w.started + w.items)[k];
      assert x in w.started || x in w.items;
    }
    assert Increasing(v.started + v.items);
    assert Accounted(v) && Apart(v);
    if !w.draining {
      DrainKeeps(v.(draining := true, drainId := w.drainId + 1, interrupted := false), w.drainId + 1);
    }
  }

  lemma FlushKeeps(w: World)
    requires Inv(w)
    ensures Inv(Step(w, Event.Flush))
  {
    var all, n := w.started + w.items, |w.started|;
    forall a, b | 0 <= a < n && 0 <= b < |w.items| ensures w.started[a] != w.items[b] {
      assert all[a] == w.started[a] && all[n + b] == w.items[b];
    }
    forall a, b | 0 <= a < b < n ensures w.started[a] < w.started[b] {
      assert all[a] == w.started[a] && all[b] == w.started[b];
    }
    assert w.started + [] == w.started;
  }

  lemma StepKeeps(w: World, ev: Event)
    requires Inv(w) && Enabled(w, ev)
    ensures Inv(Step(w, ev))
  {
    match ev {
      case Enqueue => EnqueueKeeps(w);
      case Flush => FlushKeeps(w);
      case Interrupt =>
      case PlayDone(id) =>
        if w.drainId == id {
          DrainKeeps(w, id);
        }
    }
  }

  predicate Happens(w: World, events: seq<Event>)
    decreases |events|
  {
    events == [] || (Enabled(w, events[0]) && Happens(Step(w, events[0]), events[1..]))
  }

  function Final(w: World, events: seq<Event>): World
    requires Happens(w, events)
    decreases |events|
  {
    if events == [] then w else Final(Step(w, events[0]), events[1..])
  }

  lemma {:induction false} RunKeeps(w: World, events: seq<Event>)
    requires Inv(w) && Happens(w, events)
    ensures Inv(Final(w, events))
    decreases |events|
  {
    if events != [] {
      StepKeeps(w, events[0]);
      RunKeeps(Step(w, events[0]), events[1..]);
    }
  }

  lemma EmptyKeeps()
    ensures Inv(EMPTY)
  {
    assert EMPTY.started + EMPTY.items == [];
  }

  /** In every interleaving: items start in enqueue order, each at most once, none after a flush took it. */
  lemma EveryRunKeeps(events: seq<Event>)
    requires Happens(EMPTY, events)
    ensures Inv(Final(EMPTY, events))
  {
    EmptyKeeps();
    RunKeeps(EMPTY, events);
  }

  /** Read off for one item: it starts at most once, after every item started before it, and never once flushed. */
  lemma StartsInOrder(events: seq<Event>, a: nat, b: nat)
    requires Happens(EMPTY, events)
    requires a < |Final(EMPTY, events).started| && b < |Final(EMPTY, events).started|
    ensures var w := Final(EMPTY, events);
            && (a < b <==> w.started[a] < w.started[b])
            && w.started[a] < w.enqueued && w.started[a] !in w.items && w.started[a] !in w.flushed
  {
    EveryRunKeeps(events);
    var w := Final(EMPTY, events);
    var all := w.started + w.items;
    assert all[a] == w.started[a] && all[b] == w.started[b];
    assert w.started[a] in w.started;
    forall k | 0 <= k < |w.items| ensures w.items[k] != w.started[a] {
      assert all[|w.started| + k] == w.items[k];
    }
  }

  /** A drain that finishes uninterrupted leaves the queue empty, with every item started or flushed. */
  lemma FinishedIsEmpty(w: World, id: nat)
    requires Inv(w) && id in w.drains && id == w.drainId && id !in Step(w, PlayDone(id)).drains
    ensures var v := Step(w, PlayDone(id));
            !v.draining && v.items == [] && forall i: nat :: i < v.enqueued ==> i in v.started || i in v.flushed
  {
    StepKeeps(w, PlayDone(id));
  }
}
