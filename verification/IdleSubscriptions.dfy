/**
 `IdleSubscriptionHub`: the hub's maps as fields, its methods as they are written. Every method that
 changes state is proved to compute the matching function of `IdleGraph`; the recursive wait search,
 with its one shared `seen` set, is proved to decide exactly `Waits`.
 */
module IdleSubscriptions {
  import opened Text
  import opened IdleGraph

  method Pick<T>(s: set<T>) returns (x: T)
    requires s != {}
    ensures x in s
  {
    x :| x in s;
  }

  // ---------------------------------------------------------------------------------------------
  // The wait search
  // ---------------------------------------------------------------------------------------------

  /** Everything `s` waits on has been looked at (is in `seen`) or is gone, and no wake is on its way to it. */
  ghost predicate Settled(h: Hub, seen: set<Id>, s: Id) {
    !HasWake(h, s) && forall t :: IsArmed(h, t, s) ==> t in seen || Gone(h, t)
  }

  ghost predicate Looked(h: Hub, root: Id, seen: set<Id>) {
    forall t :: t in seen ==> t == root || HeldQuiet(h, t)
  }

  ghost predicate WorkFrom(h: Hub, root: Id, x: Id) {
    exists p :: WaitPath(h, root, p) && p[0] == x && HasWork(h, root, p[|p| - 1])
  }

  lemma WorkHere(h: Hub, root: Id, x: Id)
    requires HasWork(h, root, x)
    ensures WorkFrom(h, root, x)
  {
    var p := [x];
    assert WaitPath(h, root, p) && p[0] == x && p[|p| - 1] == x;
  }

  lemma WorkBehind(h: Hub, root: Id, x: Id, t: Id)
    requires t != root && IsArmed(h, t, x) && HeldQuiet(h, t) && WorkFrom(h, root, t)
    ensures WorkFrom(h, root, x)
  {
    var p :| WaitPath(h, root, p) && p[0] == t && HasWork(h, root, p[|p| - 1]);
    var q := [x] + p;
    assert q[|q| - 1] == p[|p| - 1];
    forall i | 0 < i < |q| ensures q[i] != root && Hop(h, q, i) {
      assert i > 1 ==> Hop(h, p, i - 1);
    }
    assert WaitPath(h, root, q);
  }

  lemma {:induction false} PathInside(h: Hub, root: Id, seen: set<Id>, p: seq<Id>, i: nat)
    requires forall s :: s in seen ==> Settled(h, seen, s)
    requires WaitPath(h, root, p) && p[0] in seen && i < |p|
    ensures p[i] in seen
  {
    if i > 0 {
      PathInside(h, root, seen, p, i - 1);
      assert Settled(h, seen, p[i - 1]);
      assert Hop(h, p, i) && !Gone(h, p[i]);
    }
  }

  /** A search that ends without finding work has closed off everything `x` waits on, so no chain leads to work. */
  lemma NoWorkInside(h: Hub, root: Id, seen: set<Id>)
    requires root in seen && Looked(h, root, seen) && forall s :: s in seen ==> Settled(h, seen, s)
    ensures !WorkFrom(h, root, root)
  {
    forall p | WaitPath(h, root, p) && p[0] == root ensures !HasWork(h, root, p[|p| - 1]) {
      PathInside(h, root, seen, p, |p| - 1);
      assert Settled(h, seen, p[|p| - 1]);
    }
  }

  /** A group around `x`, held but for `x` itself, that waits on nothing but itself and what is gone. */
  ghost predicate ClosedAround(h: Hub, x: Id, group: set<Id>) {
    x in group && Looked(h, x, group) && forall s :: s in group ==> Settled(h, group, s)
  }

  ghost predicate ReachedBy(h: Hub, x: Id, s: Id) {
    exists p :: WaitPath(h, x, p) && p[0] == x && p[|p| - 1] == s
  }

  /** Everything the search from `x` can come to. */
  ghost function Reach(h: Hub, x: Id): set<Id> {
    {x} + set s | s in h.byId && ReachedBy(h, x, s)
  }

  lemma ReachedOn(h: Hub, x: Id, s: Id, t: Id)
    requires ReachedBy(h, x, s) && t != x && IsArmed(h, t, s) && HeldQuiet(h, t)
    ensures ReachedBy(h, x, t)
  {
    var p :| WaitPath(h, x, p) && p[0] == x && p[|p| - 1] == s;
    var q := p + [t];
    forall i | 0 < i < |q| ensures q[i] != x && Hop(h, q, i) {
      assert i < |p| ==> Hop(h, p, i) && p[i] != x;
    }
    assert WaitPath(h, x, q) && q[0] == x && q[|q| - 1] == t;
  }

  lemma ReachedHeld(h: Hub, x: Id, s: Id)
    requires ReachedBy(h, x, s) && s != x
    ensures HeldQuiet(h, s)
  {
    var p :| WaitPath(h, x, p) && p[0] == x && p[|p| - 1] == s;
    assert Hop(h, p, |p| - 1);
  }

  lemma ReachIsClosed(h: Hub, x: Id)
    requires !Waits(h, x)
    ensures ClosedAround(h, x, Reach(h, x))
  {
    var group := Reach(h, x);
    assert WaitPath(h, x, [x]) && [x][0] == x && [x][|[x]| - 1] == x;
    forall s | s in group && s != x ensures HeldQuiet(h, s) {
      ReachedHeld(h, x, s);
    }
    forall s | s in group ensures Settled(h, group, s) {
      assert ReachedBy(h, x, s) && !HasWork(h, x, s);
      forall t | IsArmed(h, t, s) ensures t in group || Gone(h, t) {
        if t != x && !Gone(h, t) {
          assert !Working(h, t);
          ReachedOn(h, x, s, t);
        }
      }
    }
  }

  /** The exact complement: `x` waits on no work iff a closed group around it only waits on itself. */
  lemma MutualWaitsDoNotHold(h: Hub, x: Id)
    ensures !Waits(h, x) <==> exists group :: ClosedAround(h, x, group)
  {
    if !Waits(h, x) {
      ReachIsClosed(h, x);
    } else if group :| ClosedAround(h, x, group) {
      NoWorkInside(h, x, group);
    }
  }

  method DropFrom(m: map<Id, seq<Id>>, x: Id) returns (left: map<Id, seq<Id>>, emptied: set<Id>)
    ensures left == DropCaller(m, x)
    ensures emptied == Orphaned(m, x)
  {
    left, emptied := map[], {};
    var todo := m.Keys;
    while todo != {}
      invariant todo <= m.Keys && emptied <= m.Keys
      invariant forall t :: t in m ==>
                  (t in left <==> t !in todo && !(x in m[t] && Remove(m[t], x) == []))
      invariant forall t :: t in left ==> t in m && left[t] == Remove(m[t], x)
      invariant forall t :: t in m ==> (t in emptied <==> t !in todo && x in m[t] && Remove(m[t], x) == [])
      decreases todo
    {
      var t := Pick(todo);
      todo := todo - {t};
      var rest := Remove(m[t], x);
      if x in m[t] && rest == [] {
        emptied := emptied + {t};
      } else {
        left := left[t := rest];
      }
    }
    assert emptied == Orphaned(m, x);
    assert left == DropCaller(m, x);
  }

  datatype HubEvent =
    | UserEcho(human: bool, text: string)
    | ToolAsk
    | TurnEnded
    | SteerDrained
    | TaskLifecycle
    | RotationCompleted(comesUpIdle: bool)
    | OtherEvent

  datatype Dispatched = Done | CallerNotLive | TargetNotLive | SelfWait

  /** What `x` itself was owed, asked and was told is forgotten apart from its edges. */
  lemma EraseInParts(h: Hub, x: Id)
    ensures var h0 := DropDeferred(TakePrompts(h, x, false), x);
            var h1 := h0.(asked := h0.asked - {x}, inFlight := h0.inFlight - {x}, owners := DropCaller(h0.owners - {x}, x));
            var others := h.subscribers - {x};
            var gone := Orphaned(others, x) + {x};
            Erase(h, x) == h1.(holding := h.holding - gone, settles := h.settles - gone, subscribers := DropCaller(others, x),
                               history := h1.history.(skipped := h.history.skipped - gone,
                                 ledger := h.history.ledger + EndsOf(x, Get(h.subscribers, x), Purged) + CallerEvents(others, x)))
  {
  }

  class IdleSubscriptionHub {
    /** The manager's registry, which the hub reads; `ManagerUpdates` is the manager changing it. */
    var byId: map<Id, Instance>
    var subscribers: map<Id, seq<Id>>
    var owners: map<Id, seq<Id>>
    var pendingSettles: map<Id, Settle>
    var deferredWakes: map<Id, seq<Wake>>
    var inFlight: map<Id, nat>
    var asked: set<Id>
    var holding: set<Id>
    var humanPrompts: map<Id, seq<string>>
    var suspended: bool
    ghost var history: History

    ghost function State(): Hub
      reads this
    {
      Hub(byId, subscribers, owners, pendingSettles, deferredWakes, inFlight, asked, holding, humanPrompts, suspended, history)
    }

    constructor ()
      ensures State() == EMPTY
    {
      byId, subscribers, owners, pendingSettles, deferredWakes, inFlight := map[], map[], map[], map[], map[], map[];
      asked, holding, humanPrompts, suspended := {}, {}, map[], false;
      history := History(multiset{}, multiset{}, map[], map[], {});
    }

    method ManagerUpdates(x: Id, i: Option<Instance>)
      modifies this
      ensures State() == SetFacts(old(State()), x, i)
    {
      byId := if i.Some? then byId[x := i.value] else byId - {x};
      ghost var h := old(State()).(byId := byId);
      if !Quiet(old(State()), x) && Quiet(h, x) {
        history := Skip(h, x).history;
      }
    }

    /** `_goneForGood` and the registry lookup before it. */
    predicate GoneForGood(t: Id)
      reads this
      ensures GoneForGood(t) == Gone(State(), t)
    {
      t !in byId || (byId[t].proc.None? && !byId[t].reviving && !byId[t].rotationPending)
    }

    predicate TargetDefers(i: Instance) {
      i.agentTasks > 0 || i.notificationPending || i.rotationPending || i.steerPending
    }

    /**
     `_waitsOnWork`: a depth-first search that shares one `seen` set across the whole recursion. It answers true
     only with a chain to work in hand; answering false, it has settled `x` and everything it newly looked at.
     */
    method WaitsOnWork(x: Id, seen0: set<Id>, ghost root: Id) returns (r: bool, seen: set<Id>)
      requires root in seen0 && x in seen0 && Looked(State(), root, seen0)
      ensures r ==> WorkFrom(State(), root, x)
      ensures !r ==> seen0 <= seen && Looked(State(), root, seen)
      ensures !r ==> forall s :: s in seen && (s == x || s !in seen0) ==> Settled(State(), seen, s)
      decreases subscribers.Keys - seen0
    {
      seen := seen0;
      if x in inFlight || (x in deferredWakes && deferredWakes[x] != []) {
        WorkHere(State(), root, x);
        return true, seen;
      }
      var todo := subscribers.Keys;
      while todo != {}
        invariant todo <= subscribers.Keys && seen0 <= seen && Looked(State(), root, seen)
        invariant forall s :: s in seen && s !in seen0 ==> Settled(State(), seen, s)
        invariant forall t :: t in subscribers && t !in todo && x in subscribers[t] ==> t in seen || Gone(State(), t)
        decreases todo
      {
        var t := Pick(todo);
        todo := todo - {t};
        if t in seen || x !in subscribers[t] || GoneForGood(t) {
          continue;
        }
        if byId[t].status != Idle || TargetDefers(byId[t]) || t !in holding {
          assert IsArmed(State(), t, x) && Working(State(), t);
          WorkHere(State(), root, x);
          return true, seen;
        }
        assert HeldQuiet(State(), t);
        ghost var before := seen;
        seen := seen + {t};
        var deeper;
        Shrinks(subscribers.Keys, seen0, seen, t);
        deeper, seen := WaitsOnWork(t, seen, root);
        if deeper {
          assert IsArmed(State(), t, x);
          WorkBehind(State(), root, x, t);
          return true, seen;
        }
        forall s | s in seen && s !in seen0 ensures Settled(State(), seen, s) {
          if s in before {
            assert Settled(State(), before, s);
          }
        }
      }
      assert forall t :: IsArmed(State(), t, x) ==> t in subscribers && x in subscribers[t];
      r := false;
    }

    /** `_holds`, called only at decision points: a true answer is recorded. */
    method Holds(x: Id) returns (held: bool)
      requires x in byId
      modifies this
      ensures held == HoldsNow(old(State()), x)
      ensures State() == if held then MarkHeld(old(State()), x) else old(State())
    {
      if x in asked || byId[x].forceAborted {
        return false;
      }
      var seen;
      held, seen := WaitsOnWork(x, {x}, x);
      if held {
        assert Waits(State(), x);
        holding := holding + {x};
        history := history.(skipped := history.skipped - {x});
      } else {
        NoWorkInside(State(), x, seen);
        assert !Waits(State(), x);
      }
    }

    // --- arming and delivering ---

    /** `_arm`: idempotent per pair, which is what makes one turn one wake. */
    method Arm(t: Id, c: Id) returns (armed: bool)
      modifies this
      ensures State() == IdleGraph.Arm(old(State()), t, c)
      ensures armed == !IsArmed(old(State()), t, c)
    {
      var subs := if t in subscribers then subscribers[t] else [];
      if c in subs {
        return false;
      }
      subscribers := subscribers[t := subs + [c]];
      history := history.(ledger := history.ledger + multiset{Armed(t, c)});
      armed := true;
    }

    method DropArmed(t: Id, c: Id, ghost why: Why)
      modifies this
      ensures State() == IdleGraph.DropArmed(old(State()), t, c, why)
    {
      if t !in subscribers || c !in subscribers[t] {
        return;
      }
      var rest := Remove(subscribers[t], c);
      history := history.(ledger := history.ledger + multiset{Ended(t, c, why)});
      if rest == [] {
        subscribers := subscribers - {t};
        holding := holding - {t};
        history := history.(skipped := history.skipped - {t});
        pendingSettles := pendingSettles - {t};
      } else {
        subscribers := subscribers[t := rest];
      }
    }

    method Deliver(c: Id, w: Wake)
      modifies this
      ensures State() == IdleGraph.Deliver(old(State()), c, w)
    {
      if suspended || c !in byId || byId[c].proc.None? {
        history := Skip(DropWake(State(), c, w), c).history;
        return;
      }
      if byId[c].status == Turn && !byId[c].steerable {
        var queue := if c in deferredWakes then deferredWakes[c] else [];
        deferredWakes := deferredWakes[c := queue + [w]];
        return;
      }
      inFlight := inFlight[c := (if c in inFlight then inFlight[c] else 0) + 1];
      history := history.(posts := history.posts + multiset{PostOf(c, w, true)});
    }

    method TakeHumanPrompts(t: Id, ghost reported: bool) returns (texts: seq<string>)
      modifies this
      ensures State() == TakePrompts(old(State()), t, reported)
      ensures texts == Get(old(humanPrompts), t)
    {
      texts := if t in humanPrompts then humanPrompts[t] else [];
      history := TakePrompts(State(), t, reported).history;
      humanPrompts := humanPrompts - {t};
      assert t !in old(humanPrompts) ==> humanPrompts == old(humanPrompts);
    }

    method DeliverEach(callers: seq<Id>, w: Wake)
      modifies this
      ensures State() == DeliverAll(old(State()), callers, w)
    {
      var i := 0;
      while i < |callers|
        invariant 0 <= i <= |callers|
        invariant DeliverAll(State(), callers[i..], w) == DeliverAll(old(State()), callers, w)
      {
        history := history.(ledger := history.ledger + multiset{Ended(w.target, callers[i], Consumed)});
        Deliver(callers[i], w);
        assert callers[i..][1..] == callers[i + 1..];
        i := i + 1;
      }
    }

    method ClearArmed(t: Id)
      modifies this
      ensures State() == Unhold(old(State()).(subscribers := old(subscribers) - {t}, settles := old(pendingSettles) - {t}), t)
    {
      subscribers := subscribers - {t};
      holding := holding - {t};
      history := history.(skipped := history.skipped - {t});
      pendingSettles := pendingSettles - {t};
    }

    /** `_consume`: every armed wake on the target, in arming order. */
    method Consume(t: Id)
      modifies this
      ensures State() == IdleGraph.Consume(old(State()), t)
    {
      var entries := if t in subscribers then subscribers[t] else [];
      if entries == [] {
        return;
      }
      var interrupted := t in byId && byId[t].forceAborted;
      ClearArmed(t);
      var prompts := TakeHumanPrompts(t, true);
      DeliverEach(entries, Wake(t, false, false, interrupted, false, prompts));
    }

    // --- hold decisions ---

    method DecideOrConsume(x: Id)
      requires x in byId
      modifies this
      ensures State() == Decide(old(State()), x)
    {
      var held := Holds(x);
      if !held {
        Consume(x);
      }
    }

    method ReleaseHeld(x: Id)
      modifies this
      ensures State() == IdleGraph.ReleaseHeld(old(State()), x)
    {
      if x !in holding {
        return;
      }
      if suspended || x !in byId || byId[x].proc.None? {
        history := Skip(State(), x).history;
        return;
      }
      if byId[x].status != Idle || x !in subscribers || subscribers[x] == [] || TargetDefers(byId[x]) {
        return;
      }
      DecideOrConsume(x);
    }

    method RedecideHold(x: Id)
      modifies this
      ensures State() == IdleGraph.RedecideHold(old(State()), x)
    {
      if x !in holding {
        return;
      }
      var held := false;
      if x in byId {
        held := Holds(x);
      }
      if !held {
        holding := holding - {x};
        history := history.(skipped := history.skipped - {x});
      }
    }

    // --- entry points ---

    /** Live owners: dispatchers, then the spawner, never the target itself. */
    function OwnersOf(t: Id): seq<Id>
      reads this
    {
      OwnersIn(byId, owners, t)
    }

    method ArmEach(t: Id, callers: seq<Id>)
      modifies this
      ensures State() == ArmAll(old(State()), t, callers)
    {
      var i := 0;
      while i < |callers|
        invariant 0 <= i <= |callers|
        invariant ArmAll(State(), t, callers[i..]) == ArmAll(old(State()), t, callers)
      {
        var _ := Arm(t, callers[i]);
        assert callers[i..][1..] == callers[i + 1..];
        i := i + 1;
      }
    }

    /** A turn no armed wake survived into starts with a clean slate. */
    method CleanSlate(x: Id)
      modifies this
      ensures State() == var h := old(State());
                         h.(asked := h.asked - {x},
                            byId := if x in h.byId then h.byId[x := h.byId[x].(forceAborted := false)] else h.byId)
    {
      if x in byId {
        byId := byId[x := byId[x].(forceAborted := false)];
      }
      asked := asked - {x};
    }

    method OnTurnStart(x: Id)
      modifies this
      ensures State() == TurnStart(old(State()), x)
    {
      var survived := x in subscribers && subscribers[x] != [];
      holding := holding - {x};
      history := history.(skipped := history.skipped - {x});
      ArmEach(x, OwnersOf(x));
      if !survived {
        CleanSlate(x);
      }
    }

    method OnTurnEnd(x: Id)
      modifies this
      ensures State() == IdleGraph.OnTurnEnd(old(State()), x)
    {
      if x !in byId {
        return;
      }
      if byId[x].stopInterrupted {
        if x !in subscribers || subscribers[x] == [] {
          var _ := TakeHumanPrompts(x, false);
        }
        return;
      }
      pendingSettles := pendingSettles - {x};
      if x !in subscribers || subscribers[x] == [] {
        var _ := TakeHumanPrompts(x, false);
        return;
      }
      if TargetDefers(byId[x]) {
        return;
      }
      DecideOrConsume(x);
    }

    method RedeliverEach(c: Id, pending: seq<Wake>)
      modifies this
      ensures State() == Redeliver(old(State()), c, pending)
    {
      var i := 0;
      while i < |pending|
        invariant 0 <= i <= |pending|
        invariant Redeliver(State(), c, pending[i..]) == Redeliver(old(State()), c, pending)
      {
        var w := pending[i];
        var stale := w.target in byId && byId[w.target].status == Turn;
        Deliver(c, w.(stale := stale));
        assert pending[i..][1..] == pending[i + 1..];
        i := i + 1;
      }
    }

    method FlushDeferredWakes(c: Id)
      modifies this
      ensures State() == Flush(old(State()), c)
    {
      if c !in deferredWakes {
        return;
      }
      var pending := deferredWakes[c];
      if c !in byId || byId[c].proc.None? {
        history := Skip(DropDeferred(State(), c), c).history;
        deferredWakes := deferredWakes - {c};
        return;
      }
      if byId[c].steerPending {
        return;
      }
      deferredWakes := deferredWakes - {c};
      RedeliverEach(c, pending);
    }

    method OnTaskEvent(x: Id)
      modifies this
      ensures State() == TaskEvent(old(State()), x)
    {
      if x !in byId || x !in subscribers || subscribers[x] == [] {
        return;
      }
      if !Drained(byId[x]) {
        pendingSettles := pendingSettles - {x};
        return;
      }
      pendingSettles := pendingSettles[x := Settle(byId[x].proc, byId[x].nextSeq)];
    }

    method FireSettle(x: Id)
      modifies this
      ensures State() == IdleGraph.FireSettle(old(State()), x)
    {
      if x !in pendingSettles {
        assert pendingSettles - {x} == pendingSettles;
        return;
      }
      var pending := pendingSettles[x];
      pendingSettles := pendingSettles - {x};
      if x !in subscribers || subscribers[x] == [] || x !in byId {
        return;
      }
      if byId[x].proc.None? || byId[x].proc != pending.proc || !Drained(byId[x]) || byId[x].nextSeq != pending.armSeq {
        return;
      }
      DecideOrConsume(x);
    }

    method OnRotationComplete(x: Id, comesUpIdle: bool)
      modifies this
      ensures State() == RotationComplete(old(State()), x, comesUpIdle)
    {
      if !comesUpIdle {
        return;
      }
      if x in byId {
        DecideOrConsume(x);
      } else {
        Consume(x);
      }
    }

    method OnTargetExit(t: Id)
      modifies this
      ensures State() == TargetExit(old(State()), t)
    {
      var prompts := TakeHumanPrompts(t, Get(subscribers, t) != []);
      var callers := if t in subscribers then subscribers[t] else [];
      var w := Wake(t, false, true, false, false, prompts);
      ghost var h1 := State();
      var i := 0;
      while i < |callers|
        invariant 0 <= i <= |callers|
        invariant ExitAll(State(), t, callers[i..], w) == ExitAll(h1, t, callers, w)
      {
        DropArmed(t, callers[i], Exited);
        Deliver(callers[i], w);
        assert callers[i..][1..] == callers[i + 1..];
        i := i + 1;
      }
    }

    method RecordOwner(t: Id, c: Id)
      modifies this
      ensures State() == IdleGraph.RecordOwner(old(State()), t, c)
    {
      var known := if t in owners then owners[t] else [];
      if c !in known {
        owners := owners[t := known + [c]];
      }
    }

    /** `noteDispatch`, on instances already resolved from their session ids. */
    method NoteDispatch(c: Id, t: Id) returns (r: Dispatched)
      modifies this
      ensures r == (if c == t then SelfWait else if c !in old(byId) then CallerNotLive
                    else if t !in old(byId) then TargetNotLive else Done)
      ensures State() == Next(old(State()), Dispatch(c, t))
    {
      if c == t {
        return SelfWait;
      }
      if c !in byId {
        return CallerNotLive;
      }
      if t !in byId {
        return TargetNotLive;
      }
      RecordOwner(t, c);
      if t in subscribers && c in subscribers[t] {
        subscribers := subscribers[t := Remove(subscribers[t], c) + [c]];
      } else if byId[t].status == Turn {
        var _ := Arm(t, c);
      }
      r := Done;
    }

    method SetIdleTimeout(c: Id, t: Id) returns (r: Dispatched, armed: bool)
      modifies this
      ensures State() == Next(old(State()), Timeout(c, t))
      ensures armed == (r == Done && IsArmed(old(State()), t, c))
    {
      if c !in byId {
        return CallerNotLive, false;
      }
      if t !in byId {
        return TargetNotLive, false;
      }
      if c == t {
        return SelfWait, false;
      }
      RecordOwner(t, c);
      r := Done;
      armed := t in subscribers && c in subscribers[t];
      if armed {
        subscribers := subscribers[t := Remove(subscribers[t], c) + [c]];
      }
    }

    method DisarmSilently(t: Id, c: Id)
      modifies this
      ensures State() == IdleGraph.DisarmSilently(old(State()), t, c)
    {
      if t !in subscribers || c !in subscribers[t] {
        return;
      }
      DropArmed(t, c, Disarmed);
      ReleaseHeld(c);
    }

    /** The interval's callback; an entry's interval is cleared with the entry, so it only runs while armed. */
    method HeartbeatFires(t: Id, c: Id)
      modifies this
      ensures State() == Heartbeat(old(State()), t, c)
    {
      if t !in subscribers || c !in subscribers[t] {
        return;
      }
      if GoneForGood(t) {
        DropArmed(t, c, Retired);
      }
      Deliver(c, Wake(t, true, false, false, false, []));
    }

    method EndInFlight(c: Id)
      modifies this
      ensures State() == IdleGraph.EndInFlight(old(State()), c)
    {
      var n: int := (if c in inFlight then inFlight[c] as int else 0) - 1;
      inFlight := if n > 0 then inFlight[c := n] else inFlight - {c};
      ReleaseHeld(c);
    }

    /** `purge` forgets what `x` itself was owed, asked and was told. */
    method ForgetOwn(x: Id)
      modifies this
      ensures State() == var h := DropDeferred(TakePrompts(old(State()), x, false), x);
                         h.(asked := h.asked - {x}, inFlight := h.inFlight - {x}, owners := DropCaller(h.owners - {x}, x))
    {
      var _ := TakeHumanPrompts(x, false);
      history := DropDeferred(State(), x).history;
      deferredWakes := deferredWakes - {x};
      asked := asked - {x};
      inFlight := inFlight - {x};
      var kept, _ := DropFrom(owners - {x}, x);
      owners := kept;
    }

    /** Everything `purge` erases before the callers that lost a wait are looked at. */
    method EraseAll(x: Id)
      modifies this
      ensures State() == Erase(old(State()), x)
    {
      ghost var ended := EndsOf(x, Get(subscribers, x), Purged);
      ghost var cut := CallerEvents(subscribers - {x}, x);
      ForgetOwn(x);
      ghost var h1 := State();
      var left, orphaned := DropFrom(subscribers - {x}, x);
      var gone := orphaned + {x};
      subscribers, holding, pendingSettles := left, holding - gone, pendingSettles - gone;
      history := history.(skipped := history.skipped - gone, ledger := history.ledger + ended + cut);
      EraseInParts(old(State()), x);
    }

    method Purge(x: Id, release: bool, removing: set<Id>)
      modifies this
      ensures State() == IdleGraph.Purge(old(State()), x, release, removing)
    {
      var waiters := if x in subscribers then subscribers[x] else [];
      EraseAll(x);
      ghost var h1 := State();
      var i := 0;
      while i < |waiters|
        invariant 0 <= i <= |waiters|
        invariant ReleaseAll(State(), waiters[i..], release, removing) == ReleaseAll(h1, waiters, release, removing)
      {
        if waiters[i] in removing {
          history := Skip(State(), waiters[i]).history;
        } else if release {
          ReleaseHeld(waiters[i]);
        } else {
          RedecideHold(waiters[i]);
        }
        assert waiters[i..][1..] == waiters[i + 1..];
        i := i + 1;
      }
    }

    /** `onEvent`: every instance event lands here. */
    method OnEvent(x: Id, ev: HubEvent)
      modifies this
      ensures State() == match ev
                         case UserEcho(human, text) => if human then HumanEcho(old(State()), x, text) else old(State())
                         case ToolAsk => AskUser(old(State()), x)
                         case TurnEnded => TurnEnd(old(State()), x)
                         case SteerDrained => Flush(old(State()), x)
                         case TaskLifecycle => TaskEvent(old(State()), x)
                         case RotationCompleted(up) => RotationComplete(old(State()), x, up)
                         case OtherEvent => old(State())
    {
      match ev
      case UserEcho(human, text) =>
        if human {
          var texts := if x in humanPrompts then humanPrompts[x] else [];
          humanPrompts := humanPrompts[x := texts + [text]];
          history := history.(echoed := history.echoed[x := Get(history.echoed, x) + [text]]);
        }
      case ToolAsk =>
        asked := asked + {x};
      case TurnEnded =>
        OnTurnEnd(x);
        FlushDeferredWakes(x);
      case SteerDrained =>
        FlushDeferredWakes(x);
      case TaskLifecycle =>
        OnTaskEvent(x);
      case RotationCompleted(up) =>
        OnRotationComplete(x, up);
      case OtherEvent =>
    }

    method Suspend()
      modifies this
      ensures State() == Next(old(State()), IdleGraph.Suspend)
    {
      suspended := true;
    }

    method Resume()
      modifies this
      ensures State() == Next(old(State()), IdleGraph.Resume)
    {
      suspended := false;
    }

    /** `isCaller`: waiting on an armed wake, a deferred one or one in flight. */
    method IsCaller(x: Id) returns (waiting: bool)
      ensures waiting == (HasWake(State(), x) || exists t :: IsArmed(State(), t, x))
    {
      if x in inFlight || (x in deferredWakes && deferredWakes[x] != []) {
        return true;
      }
      var todo := subscribers.Keys;
      while todo != {}
        invariant todo <= subscribers.Keys
        invariant forall t :: t in subscribers && t !in todo ==> x !in subscribers[t]
        decreases todo
      {
        var t := Pick(todo);
        todo := todo - {t};
        if x in subscribers[t] {
          assert IsArmed(State(), t, x);
          return true;
        }
      }
      waiting := false;
    }
  }

  lemma Shrinks(keys: set<Id>, seen0: set<Id>, seen: set<Id>, t: Id)
    requires t in keys && t !in seen0 && t in seen && seen0 <= seen
    ensures keys - seen < keys - seen0
  {
    assert t in keys - seen0 && t !in keys - seen;
  }
}
