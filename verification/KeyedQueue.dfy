/** The per-key promise chain (src/keyedQueue.ts), as steps that may interleave in any order. */
module KeyedQueue {
  import opened Text

  datatype Status = Waiting | Running | Settled(rejected: bool)

  /** A call: its key, and the tail it was chained to (None: it starts from a resolved promise). */
  datatype Job = Job(key: string, prev: Option<nat>, status: Status)

  /** `cleaned`: the jobs whose tail's own reaction has run. */
  datatype World = World(jobs: seq<Job>, tails: map<string, nat>, cleaned: set<nat>)

  /** A caller calls, a job starts, a job's promise settles, a tail's reaction runs. */
  datatype Event = Call(key: string) | Start(j: nat) | Settle(j: nat, rejected: bool) | Clean(j: nat)

  const EMPTY := World([], map[], {})

  /** A job may start when what it is chained to has settled, either way. */
  predicate Enabled(w: World, ev: Event) {
    match ev
    case Call(_) => true
    case Start(j) =>
      j < |w.jobs| && w.jobs[j].status.Waiting?
      && (w.jobs[j].prev.Some? ==> w.jobs[j].prev.value < |w.jobs| && w.jobs[w.jobs[j].prev.value].status.Settled?)
    case Settle(j, _) => j < |w.jobs| && w.jobs[j].status.Running?
    case Clean(j) => j < |w.jobs| && w.jobs[j].status.Settled? && j !in w.cleaned
  }

  function Step(w: World, ev: Event): World
    requires Enabled(w, ev)
  {
    match ev
    case Call(key) =>
      var prev := if key in w.tails then Some(w.tails[key]) else None;
      w.(jobs := w.jobs + [Job(key, prev, Waiting)], tails := w.tails[key := |w.jobs|])
    case Start(j) => w.(jobs := w.jobs[j := w.jobs[j].(status := Running)])
    case Settle(j, rejected) => w.(jobs := w.jobs[j := w.jobs[j].(status := Settled(rejected))])
    case Clean(j) =>
      var key := w.jobs[j].key;
      w.(tails := if key in w.tails && w.tails[key] == j then w.tails - {key} else w.tails, cleaned := w.cleaned + {j})
  }

  /** The queue's one map, and the promises around it. */
  class Queue {
    var tails: map<string, nat>
    ghost var jobs: seq<Job>
    ghost var cleaned: set<nat>

    ghost function Now(): World
      reads this
    {
      World(jobs, tails, cleaned)
    }

    constructor ()
      ensures Now() == EMPTY
    {
      tails, jobs, cleaned := map[], [], {};
    }

    /** `run`: chain the call to the key's tail, and become the tail. Tails are named by their call's number. */
    method Run(key: string, tail: nat)
      requires tail == |jobs|
      modifies this
      ensures Now() == Step(old(Now()), Call(key))
    {
      ghost var prev := if key in tails then Some(tails[key]) else None;
      jobs := jobs + [Job(key, prev, Waiting)];
      tails := tails[key := tail];
    }

    /** The tail's reaction: drop the entry if it is still this tail. */
    method TailSettled(key: string, tail: nat)
      requires Enabled(Now(), Clean(tail)) && key == jobs[tail].key
      modifies this
      ensures Now() == Step(old(Now()), Clean(tail))
    {
      if key in tails && tails[key] == tail {
        tails := tails - {key};
      }
      cleaned := cleaned + {tail};
    }

    method Size() returns (n: nat)
      ensures n == |Now().tails|
    {
      n := |tails|;
    }
  }

  // ---------------------------------------------------------------------------------------------
  // Every run
  // ---------------------------------------------------------------------------------------------

  predicate SameKey(w: World, i: nat, j: nat)
    requires i < |w.jobs| && j < |w.jobs|
  {
    w.jobs[i].key == w.jobs[j].key
  }

  /** A job is chained to the one called before it on its key, unless all of those have settled. */
  ghost predicate ChainedAt(w: World, j: nat)
    requires j < |w.jobs|
  {
    match w.jobs[j].prev
    case Some(p) => p < j && SameKey(w, p, j) && forall i :: p < i < j ==> !SameKey(w, i, j)
    case None => forall i :: 0 <= i < j && SameKey(w, i, j) ==> w.jobs[i].status.Settled?
  }

  ghost predicate Chained(w: World) {
    forall j :: 0 <= j < |w.jobs| ==> ChainedAt(w, j)
  }

  /** `t` is the key's latest call, and its reaction has not run. */
  ghost predicate IsTail(w: World, key: string, t: nat) {
    && t < |w.jobs| && w.jobs[t].key == key && t !in w.cleaned
    && forall i :: t < i < |w.jobs| ==> w.jobs[i].key != key
  }

  ghost predicate HasTail(w: World, key: string) {
    key in w.tails && IsTail(w, key, w.tails[key])
  }

  /** A key's entry is its tail; a key without one has only settled jobs. */
  ghost predicate Tailed(w: World) {
    && (forall key :: key in w.tails ==> HasTail(w, key))
    && (forall i :: 0 <= i < |w.jobs| && !w.jobs[i].status.Settled? ==> w.jobs[i].key in w.tails)
    && (forall i :: i in w.cleaned ==> i < |w.jobs| && w.jobs[i].status.Settled?)
  }

  /** One at a time and in call order: a job that has started has only settled jobs before it on its key. */
  ghost predicate Ordered(w: World) {
    forall i, j :: 0 <= i < j < |w.jobs| && SameKey(w, i, j) && !w.jobs[j].status.Waiting? ==> w.jobs[i].status.Settled?
  }

  ghost predicate Inv(w: World) {
    Chained(w) && Tailed(w) && Ordered(w)
  }

  lemma CallKeeps(w: World, key: string)
    requires Inv(w)
    ensures Inv(Step(w, Call(key)))
  {
    var v, n := Step(w, Call(key)), |w.jobs|;
    forall j | 0 <= j < n + 1 ensures ChainedAt(v, j) {
      if j < n {
        assert ChainedAt(w, j);
        assert forall i :: 0 <= i <= j ==> v.jobs[i] == w.jobs[i];
        assert forall i :: 0 <= i < j ==> SameKey(v, i, j) == SameKey(w, i, j);
      }
    }
    forall k | k in v.tails ensures HasTail(v, k) {
      if k != key {
        assert HasTail(w, k);
      }
    }
    OrderedSame(w, v);
  }

  /** More waiting jobs at the end disturb no order. */
  lemma OrderedSame(w: World, v: World)
    requires Ordered(w) && |v.jobs| == |w.jobs| + 1 && v.jobs[..|w.jobs|] == w.jobs && v.jobs[|w.jobs|].status.Waiting?
    ensures Ordered(v)
  {
    assert forall i :: 0 <= i < |w.jobs| ==> v.jobs[i] == v.jobs[..|w.jobs|][i];
    forall i, j | 0 <= i < j < |v.jobs| && SameKey(v, i, j) && !v.jobs[j].status.Waiting?
      ensures v.jobs[i].status.Settled? {
      assert SameKey(w, i, j);
    }
  }

  /** What a job is chained to settles last of all before it. */
  lemma AllBeforeSettled(w: World, j: nat)
    requires Inv(w) && Enabled(w, Start(j))
    ensures forall i :: 0 <= i < j && SameKey(w, i, j) ==> w.jobs[i].status.Settled?
  {
    assert ChainedAt(w, j);
    if w.jobs[j].prev.Some? {
      var p := w.jobs[j].prev.value;
      forall i | 0 <= i < j && SameKey(w, i, j) ensures w.jobs[i].status.Settled? {
        assert i < p ==> SameKey(w, i, p);
      }
    }
  }

  /** A job moves on: only its own status changes, and a settled one stays settled. */
  ghost predicate MovesOn(w: World, v: World, j: nat) {
    && |v.jobs| == |w.jobs| && j < |w.jobs| && v.tails == w.tails && v.cleaned == w.cleaned
    && !w.jobs[j].status.Settled? && !v.jobs[j].status.Waiting?
    && (forall i :: 0 <= i < |w.jobs| ==> v.jobs[i].key == w.jobs[i].key && v.jobs[i].prev == w.jobs[i].prev)
    && (forall i :: 0 <= i < |w.jobs| && i != j ==> v.jobs[i].status == w.jobs[i].status)
  }

  lemma MovingKeeps(w: World, v: World, j: nat)
    requires Inv(w) && MovesOn(w, v, j)
    requires forall i :: 0 <= i < j && SameKey(w, i, j) ==> w.jobs[i].status.Settled?
    ensures Inv(v)
  {
    forall k | 0 <= k < |v.jobs| ensures ChainedAt(v, k) {
      assert ChainedAt(w, k);
      assert forall i :: 0 <= i < k ==> SameKey(v, i, k) == SameKey(w, i, k);
    }
    forall k | k in v.tails ensures HasTail(v, k) {
      assert HasTail(w, k);
    }
    forall i, k | 0 <= i < k < |v.jobs| && SameKey(v, i, k) && !v.jobs[k].status.Waiting?
      ensures v.jobs[i].status.Settled? {
      assert SameKey(w, i, k);
    }
  }

  lemma StartKeeps(w: World, j: nat)
    requires Inv(w) && Enabled(w, Start(j))
    ensures Inv(Step(w, Start(j)))
  {
    AllBeforeSettled(w, j);
    MovingKeeps(w, Step(w, Start(j)), j);
  }

  lemma SettleKeeps(w: World, j: nat, rejected: bool)
    requires Inv(w) && Enabled(w, Settle(j, rejected))
    ensures Inv(Step(w, Settle(j, rejected)))
  {
    MovingKeeps(w, Step(w, Settle(j, rejected)), j);
  }

  lemma TailIsLast(w: World, key: string, j: nat)
    requires Ordered(w) && IsTail(w, key, j) && w.jobs[j].status.Settled?
    ensures forall i :: 0 <= i < |w.jobs| && w.jobs[i].key == key ==> w.jobs[i].status.Settled?
  {
    forall i | 0 <= i < j && w.jobs[i].key == key ensures w.jobs[i].status.Settled? {
      assert SameKey(w, i, j);
    }
  }

  lemma CleanKeeps(w: World, j: nat)
    requires Inv(w) && Enabled(w, Clean(j))
    ensures Inv(Step(w, Clean(j)))
  {
    var v, key := Step(w, Clean(j)), w.jobs[j].key;
    if key in w.tails && w.tails[key] == j {
      assert HasTail(w, key);
      TailIsLast(w, key, j);
    }
    forall k | k in v.tails ensures HasTail(v, k) {
      assert HasTail(w, k);
    }
    forall k | 0 <= k < |v.jobs| ensures ChainedAt(v, k) {
      assert ChainedAt(w, k);
      assert forall i :: 0 <= i < k ==> SameKey(v, i, k) == SameKey(w, i, k);
    }
    forall i, k | 0 <= i < k < |v.jobs| && SameKey(v, i, k) && !v.jobs[k].status.Waiting?
      ensures v.jobs[i].status.Settled? {
      assert SameKey(w, i, k);
    }
  }

  function Final(w: World, events: seq<Event>): World
    requires Happens(w, events)
    decreases |events|
  {
    if events == [] then w else Final(Step(w, events[0]), events[1..])
  }

  predicate Happens(w: World, events: seq<Event>)
    decreases |events|
  {
    events == [] || (Enabled(w, events[0]) && Happens(Step(w, events[0]), events[1..]))
  }

  lemma {:induction false} RunKeeps(w: World, events: seq<Event>)
    requires Inv(w) && Happens(w, events)
    ensures Inv(Final(w, events))
    decreases |events|
  {
    if events != [] {
      match events[0] {
        case Call(key) => CallKeeps(w, key);
        case Start(j) => StartKeeps(w, j);
        case Settle(j, rejected) => SettleKeeps(w, j, rejected);
        case Clean(j) => CleanKeeps(w, j);
      }
      RunKeeps(Step(w, events[0]), events[1..]);
    }
  }

  /** In every interleaving, jobs of a key run one at a time in call order, rejections or not. */
  lemma EveryRunKeeps(events: seq<Event>)
    requires Happens(EMPTY, events)
    ensures Inv(Final(EMPTY, events))
  {
    assert Inv(EMPTY);
    RunKeeps(EMPTY, events);
  }

  /** An idle key holds nothing: with its jobs settled and their reactions run there is no entry. */
  lemma IdleIsEmpty(w: World, key: string)
    requires Inv(w) && forall i :: 0 <= i < |w.jobs| && w.jobs[i].key == key ==> i in w.cleaned
    ensures key !in w.tails
  {
    assert key in w.tails ==> HasTail(w, key);
  }

  /** No key is ever stuck: its first unsettled job is running or may start. */
  lemma {:induction false} NeverStuck(w: World, j: nat) returns (first: nat)
    requires Inv(w) && j < |w.jobs| && !w.jobs[j].status.Settled?
    ensures first <= j && SameKey(w, first, j) && !w.jobs[first].status.Settled?
    ensures Enabled(w, Start(first)) || Enabled(w, Settle(first, false))
    decreases j
  {
    assert ChainedAt(w, j);
    if w.jobs[j].status.Waiting? && w.jobs[j].prev.Some? && !w.jobs[w.jobs[j].prev.value].status.Settled? {
      first := NeverStuck(w, w.jobs[j].prev.value);
    } else {
      first := j;
    }
  }
}
