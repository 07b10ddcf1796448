/** Two concrete runs: a relaunch during a hold that loses the hold's release, and one that loses nothing. */
module IdleGraphExamples {
  import opened Text
  import opened IdleGraph
  import opened IdleGraphTheorems
  import opened IdleGraphHolds

  function Session(status: Status, proc: Option<nat>, reviving: bool, spawner: Option<Id>): Instance {
    Instance(status, proc, reviving, 0, false, false, false, true, false, false, false, 0, spawner)
  }

  const BOSS := Id(0)
  const MIDDLE := Id(1)
  const WORKER := Id(2)

  function Boss(): Instance {
    Session(Idle, Some(0), false, None)
  }

  /** The middle session in its turn. */
  function Turning(): Instance {
    Session(Turn, Some(0), false, Some(BOSS))
  }

  /** The middle session at the end of its turn. */
  function Middle(): Instance {
    Session(Idle, Some(0), false, Some(BOSS))
  }

  /** The middle session between two processes. */
  function Away(): Instance {
    Session(Other, None, true, Some(BOSS))
  }

  /** The middle session with a new process. */
  function Back(): Instance {
    Session(Idle, Some(1), false, Some(BOSS))
  }

  /** The worker in its turn. */
  function Worker(): Instance {
    Session(Turn, Some(0), false, Some(MIDDLE))
  }

  /** The worker at the end of its turn. */
  function Finished(): Instance {
    Session(Idle, Some(0), false, Some(MIDDLE))
  }

  /**
   The boss owns the middle session, which owns the worker. The middle session ends its turn while the worker
   runs, so the boss's wake is held.
   */
  const HOLD: seq<Step> :=
    [Facts(BOSS, Some(Boss()))] + [Facts(MIDDLE, Some(Turning()))] + [Start(MIDDLE)]
    + [Facts(WORKER, Some(Worker()))] + [Start(WORKER)]
    + [Facts(MIDDLE, Some(Middle()))] + [End(MIDDLE)]

  const DOWN: Step := Facts(MIDDLE, Some(Away()))
  const UP: Step := Facts(MIDDLE, Some(Back()))

  /**
   The middle session's process is relaunched; meanwhile the worker finishes, and its wake to the middle session is
   dropped because there is no process to prompt.
   */
  const RELAUNCH: seq<Step> := HOLD + [DOWN] + [Facts(WORKER, Some(Finished()))] + [End(WORKER)] + [UP]

  /** The parts of the state a hold decision reads. */
  ghost predicate Looks(h: Hub, byId: map<Id, Instance>, subscribers: map<Id, seq<Id>>, holding: set<Id>) {
    && h.byId == byId && h.subscribers == subscribers && h.holding == holding
    && h.owners == map[] && h.inFlight == map[] && h.deferred == map[] && h.asked == {} && !h.suspended
  }

  lemma RunSnoc(steps: seq<Step>, s: Step)
    ensures Run(steps + [s]) == After(Run(steps), s)
  {
    assert (steps + [s])[..|steps|] == steps;
  }

  lemma FreshLooks(h: Hub, byId: map<Id, Instance>, subscribers: map<Id, seq<Id>>, holding: set<Id>)
    requires Looks(h, byId, subscribers, holding)
    ensures Looks(Fresh(h), byId, subscribers, holding)
  {
  }

  lemma FactsLooks(h: Hub, x: Id, i: Instance, byId: map<Id, Instance>, subscribers: map<Id, seq<Id>>, holding: set<Id>)
    requires Looks(h, byId, subscribers, holding)
    ensures Looks(After(h, Facts(x, Some(i))), byId[x := i], subscribers, holding)
  {
  }

  /** A turn start of an unwatched session whose one owner is its live spawner. */
  lemma OneOwner(h: Hub, x: Id, owner: Id)
    requires h.owners == map[] && x in h.byId && h.byId[x].spawner == Some(owner) && owner in h.byId && owner != x
    ensures OwnersOf(h, x) == [owner]
  {
    assert Get(h.owners, x) + [owner] == [owner];
    assert LiveOthers(h.byId, x, [owner]) == [owner] + LiveOthers(h.byId, x, []);
  }

  lemma ArmLooks(h: Hub, x: Id, owner: Id, byId: map<Id, Instance>, subscribers: map<Id, seq<Id>>)
    requires Looks(h, byId, subscribers, {}) && x !in subscribers
    ensures Looks(Arm(h, x, owner), byId, subscribers[x := [owner]], {})
  {
    assert Get(h.subscribers, x) + [owner] == [owner];
  }

  /** A turn start of an unwatched session with one live owner. */
  function StartOwned(h: Hub, x: Id, owner: Id): Hub
    requires x in h.byId
  {
    var h1 := Arm(Unhold(h, x), x, owner);
    h1.(asked := h1.asked - {x}, byId := h1.byId[x := h1.byId[x].(forceAborted := false)])
  }

  lemma StartsOwned(h: Hub, x: Id, owner: Id)
    requires h.owners == map[] && x !in h.subscribers && x in h.byId && owner in h.byId && owner != x
    requires h.byId[x].spawner == Some(owner)
    ensures TurnStart(h, x) == StartOwned(h, x, owner)
  {
    OneOwner(h, x, owner);
    var h0 := Unhold(h, x);
    assert ArmAll(h0, x, [owner]) == ArmAll(Arm(h0, x, owner), x, []);
  }

  lemma NothingToClear(byId: map<Id, Instance>, x: Id)
    requires x in byId && !byId[x].forceAborted
    ensures byId[x := byId[x].(forceAborted := false)] == byId
  {
    assert byId[x].(forceAborted := false) == byId[x];
  }

  lemma UnholdLooks(h: Hub, x: Id, byId: map<Id, Instance>, subscribers: map<Id, seq<Id>>)
    requires Looks(h, byId, subscribers, {})
    ensures Looks(Unhold(h, x), byId, subscribers, {})
  {
  }

  lemma StartLooks(h: Hub, x: Id, owner: Id, byId: map<Id, Instance>, subscribers: map<Id, seq<Id>>)
    requires Looks(h, byId, subscribers, {}) && x !in subscribers && x in byId && owner in byId && owner != x
    requires byId[x].spawner == Some(owner) && !byId[x].forceAborted
    ensures Looks(TurnStart(h, x), byId, subscribers[x := [owner]], {})
  {
    NothingToClear(byId, x);
    UnholdLooks(h, x, byId, subscribers);
    ArmLooks(Unhold(h, x), x, owner, byId, subscribers);
    var h1 := Arm(Unhold(h, x), x, owner);
    CleanLooks(h1, x, byId, subscribers[x := [owner]]);
    assert Looks(StartOwned(h, x, owner), byId, subscribers[x := [owner]], {});
    StartsOwned(h, x, owner);
  }

  lemma CleanLooks(h: Hub, x: Id, byId: map<Id, Instance>, subscribers: map<Id, seq<Id>>)
    requires Looks(h, byId, subscribers, {}) && x in byId && byId[x := byId[x].(forceAborted := false)] == byId
    ensures Looks(h.(asked := h.asked - {x}, byId := h.byId[x := h.byId[x].(forceAborted := false)]), byId, subscribers, {})
  {
  }

  lemma ChainSecond(h: Hub, p: seq<Id>)
    requires |p| > 1 && HeldChain(h, p)
    ensures IsArmed(h, p[1], p[0])
  {
    assert Hop(h, p, 1);
  }

  lemma FactsStep(run: seq<Step>, s: Step, x: Id, i: Instance, byId: map<Id, Instance>, subscribers: map<Id, seq<Id>>, holding: set<Id>)
    requires Looks(Run(run), byId, subscribers, holding) && s == Facts(x, Some(i))
    ensures Looks(Run(run + [s]), byId[x := i], subscribers, holding)
  {
    RunSnoc(run, s);
    FactsLooks(Run(run), x, i, byId, subscribers, holding);
  }

  lemma StartStep(run: seq<Step>, s: Step, x: Id, owner: Id, byId: map<Id, Instance>, subscribers: map<Id, seq<Id>>)
    requires Looks(Run(run), byId, subscribers, {}) && s == Start(x)
    requires x !in subscribers && x in byId && owner in byId && owner != x
    requires byId[x].spawner == Some(owner) && !byId[x].forceAborted
    ensures Looks(Run(run + [s]), byId, subscribers[x := [owner]], {})
  {
    RunSnoc(run, s);
    FreshLooks(Run(run), byId, subscribers, {});
    StartLooks(Fresh(Run(run)), x, owner, byId, subscribers);
  }

  /** The middle session's turn starts with its owner there to be told of it. */
  lemma MiddleStarts(f: Step, g: Step, s: Step, boss: Instance, m0: Instance)
    requires f == Facts(BOSS, Some(boss)) && g == Facts(MIDDLE, Some(m0)) && s == Start(MIDDLE)
    requires m0.spawner == Some(BOSS) && !m0.forceAborted
    ensures Looks(Run([f] + [g] + [s]), map[BOSS := boss, MIDDLE := m0], map[MIDDLE := [BOSS]], {})
  {
    assert [] + [f] == [f];
    FactsStep([], f, BOSS, boss, map[], map[], {});
    FactsStep([f], g, MIDDLE, m0, map[BOSS := boss], map[], {});
    StartStep([f] + [g], s, MIDDLE, BOSS, map[BOSS := boss, MIDDLE := m0], map[]);
  }

  lemma WorkerStarts(run: seq<Step>, f: Step, s: Step, boss: Instance, m0: Instance, w0: Instance)
    requires Looks(Run(run), map[BOSS := boss, MIDDLE := m0], map[MIDDLE := [BOSS]], {})
    requires f == Facts(WORKER, Some(w0)) && s == Start(WORKER) && w0.spawner == Some(MIDDLE) && !w0.forceAborted
    ensures Looks(Run(run + [f] + [s]), map[BOSS := boss, MIDDLE := m0, WORKER := w0], map[MIDDLE := [BOSS], WORKER := [MIDDLE]], {})
  {
    FactsStep(run, f, WORKER, w0, map[BOSS := boss, MIDDLE := m0], map[MIDDLE := [BOSS]], {});
    StartStep(run + [f], s, WORKER, MIDDLE, map[BOSS := boss, MIDDLE := m0, WORKER := w0], map[MIDDLE := [BOSS]]);
  }

  /** The middle session ends its turn while the worker runs. */
  lemma MiddleEnds(run: seq<Step>, f: Step, s: Step, boss: Instance, m0: Instance, m1: Instance, w0: Instance)
    requires Looks(Run(run), map[BOSS := boss, MIDDLE := m0, WORKER := w0], map[MIDDLE := [BOSS], WORKER := [MIDDLE]], {})
    requires f == Facts(MIDDLE, Some(m1)) && s == End(MIDDLE)
    requires AtRest(m1) && Works(w0)
    ensures Looks(Run(run + [f] + [s]), map[BOSS := boss, MIDDLE := m1, WORKER := w0], map[MIDDLE := [BOSS], WORKER := [MIDDLE]], {MIDDLE})
  {
    var subs := map[MIDDLE := [BOSS], WORKER := [MIDDLE]];
    var byId := map[BOSS := boss, MIDDLE := m0, WORKER := w0];
    FactsStep(run, f, MIDDLE, m1, byId, subs, {});
    assert byId[MIDDLE := m1] == map[BOSS := boss, MIDDLE := m1, WORKER := w0];
    RunSnoc(run + [f], s);
    FreshLooks(Run(run + [f]), map[BOSS := boss, MIDDLE := m1, WORKER := w0], subs, {});
    EndHolds(Fresh(Run(run + [f])), boss, m1, w0);
  }

  /** The run up to the hold. */
  lemma Held()
    ensures Looks(Run(HOLD), map[BOSS := Boss(), MIDDLE := Middle(), WORKER := Worker()],
                  map[MIDDLE := [BOSS], WORKER := [MIDDLE]], {MIDDLE})
  {
    var run := [Facts(BOSS, Some(Boss()))] + [Facts(MIDDLE, Some(Turning()))] + [Start(MIDDLE)];
    MiddleStarts(Facts(BOSS, Some(Boss())), Facts(MIDDLE, Some(Turning())), Start(MIDDLE), Boss(), Turning());
    HeldFrom(run, Facts(WORKER, Some(Worker())), Start(WORKER), Facts(MIDDLE, Some(Middle())), End(MIDDLE),
             Boss(), Turning(), Middle(), Worker());
  }

  lemma HeldFrom(run: seq<Step>, f: Step, s: Step, g: Step, e: Step, boss: Instance, m0: Instance, m1: Instance, w0: Instance)
    requires Looks(Run(run), map[BOSS := boss, MIDDLE := m0], map[MIDDLE := [BOSS]], {})
    requires f == Facts(WORKER, Some(w0)) && s == Start(WORKER) && g == Facts(MIDDLE, Some(m1)) && e == End(MIDDLE)
    requires AtRest(m1) && Works(w0) && w0.spawner == Some(MIDDLE)
    ensures Looks(Run(run + [f] + [s] + [g] + [e]), map[BOSS := boss, MIDDLE := m1, WORKER := w0],
                  map[MIDDLE := [BOSS], WORKER := [MIDDLE]], {MIDDLE})
  {
    WorkerStarts(run, f, s, boss, m0, w0);
    MiddleEnds(run + [f] + [s], g, e, boss, m0, m1, w0);
  }

  /** Live, idle and past every wake point. */
  predicate AtRest(i: Instance) {
    i.status == Idle && i.proc.Some? && !i.stopInterrupted && !i.forceAborted && !Defers(i)
  }

  /** In a turn of its own. */
  predicate Works(i: Instance) {
    i.status == Turn && i.proc.Some? && !i.forceAborted
  }

  /** Its process went away and is being brought back. */
  predicate Relaunching(i: Instance) {
    i.proc.None? && i.reviving
  }

  lemma EndHolds(h: Hub, boss: Instance, m1: Instance, w0: Instance)
    requires AtRest(m1) && Works(w0)
    requires Looks(h, map[BOSS := boss, MIDDLE := m1, WORKER := w0], map[MIDDLE := [BOSS], WORKER := [MIDDLE]], {})
    ensures Looks(TurnEnd(h, MIDDLE), map[BOSS := boss, MIDDLE := m1, WORKER := w0],
                  map[MIDDLE := [BOSS], WORKER := [MIDDLE]], {MIDDLE})
  {
    var h1 := h.(settles := h.settles - {MIDDLE});
    assert IsArmed(h1, WORKER, MIDDLE) && Working(h1, WORKER);
    assert HasWork(h1, MIDDLE, MIDDLE);
    assert WaitPath(h1, MIDDLE, [MIDDLE]) && [MIDDLE][0] == MIDDLE && [MIDDLE][|[MIDDLE]| - 1] == MIDDLE;
    assert Waits(h1, MIDDLE);
    assert OnTurnEnd(h, MIDDLE) == MarkHeld(h1, MIDDLE);
  }

  /** The worker has no waits of its own, so its owner's wake is consumed; with no process to prompt it is dropped. */
  lemma EndDrops(h: Hub, boss: Instance, m2: Instance, w1: Instance)
    requires Relaunching(m2) && AtRest(w1)
    requires Looks(h, map[BOSS := boss, MIDDLE := m2, WORKER := w1], map[MIDDLE := [BOSS], WORKER := [MIDDLE]], {MIDDLE})
    ensures Looks(TurnEnd(h, WORKER), map[BOSS := boss, MIDDLE := m2, WORKER := w1], map[MIDDLE := [BOSS]], {MIDDLE})
  {
    var h1 := h.(settles := h.settles - {WORKER});
    assert forall t :: !IsArmed(h1, t, WORKER);
    NoWaits(h1, WORKER);
    assert OnTurnEnd(h, WORKER) == Consume(h1, WORKER);
    ConsumeDrops(h1, boss, m2, w1);
    assert Flush(Consume(h1, WORKER), WORKER) == Consume(h1, WORKER);
  }

  lemma ConsumeDrops(h: Hub, boss: Instance, m2: Instance, w1: Instance)
    requires m2.proc.None?
    requires Looks(h, map[BOSS := boss, MIDDLE := m2, WORKER := w1], map[MIDDLE := [BOSS], WORKER := [MIDDLE]], {MIDDLE})
    ensures Looks(Consume(h, WORKER), map[BOSS := boss, MIDDLE := m2, WORKER := w1], map[MIDDLE := [BOSS]], {MIDDLE})
  {
    var byId := map[BOSS := boss, MIDDLE := m2, WORKER := w1];
    var h1 := Unhold(h.(subscribers := h.subscribers - {WORKER}, settles := h.settles - {WORKER}), WORKER);
    assert h.subscribers - {WORKER} == map[MIDDLE := [BOSS]];
    var h2 := TakePrompts(h1, WORKER, true);
    assert Looks(h2, byId, map[MIDDLE := [BOSS]], {MIDDLE});
    OneDropped(h2, ReportOf(h, WORKER), byId);
  }

  lemma OneDropped(h: Hub, w: Wake, byId: map<Id, Instance>)
    requires MIDDLE in byId && byId[MIDDLE].proc.None? && Looks(h, byId, map[MIDDLE := [BOSS]], {MIDDLE})
    ensures Looks(DeliverAll(h, [MIDDLE], w), byId, map[MIDDLE := [BOSS]], {MIDDLE})
  {
    var h1 := Log(h, Ended(w.target, MIDDLE, Consumed));
    assert Deliver(h1, MIDDLE, w) == Skip(DropWake(h1, MIDDLE, w), MIDDLE);
    assert DeliverAll(h, [MIDDLE], w) == DeliverAll(Skip(DropWake(h1, MIDDLE, w), MIDDLE), [], w);
  }

  lemma NoWaits(h: Hub, x: Id)
    requires !HasWake(h, x) && forall t :: !IsArmed(h, t, x)
    ensures !Waits(h, x)
  {
    forall p | WaitPath(h, x, p) && p[0] == x ensures !HasWork(h, x, p[|p| - 1]) {
      if |p| > 1 {
        ChainSecond(h, p);
      }
    }
  }

  lemma BothMoved(boss: Instance, m1: Instance, m2: Instance, w0: Instance, w1: Instance)
    ensures map[BOSS := boss, MIDDLE := m1, WORKER := w0][MIDDLE := m2][WORKER := w1] == map[BOSS := boss, MIDDLE := m2, WORKER := w1]
  {
  }

  /** The worker finishes while the middle session has no process: its wake is dropped. */
  lemma WorkerFinishes(run: seq<Step>, d: Step, f: Step, e: Step, boss: Instance, m1: Instance, m2: Instance, w0: Instance, w1: Instance)
    requires Looks(Run(run), map[BOSS := boss, MIDDLE := m1, WORKER := w0], map[MIDDLE := [BOSS], WORKER := [MIDDLE]], {MIDDLE})
    requires d == Facts(MIDDLE, Some(m2)) && f == Facts(WORKER, Some(w1)) && e == End(WORKER)
    requires Relaunching(m2) && AtRest(w1)
    ensures Looks(Run(run + [d] + [f] + [e]), map[BOSS := boss, MIDDLE := m2, WORKER := w1], map[MIDDLE := [BOSS]], {MIDDLE})
  {
    var subs := map[MIDDLE := [BOSS], WORKER := [MIDDLE]];
    var byId := map[BOSS := boss, MIDDLE := m1, WORKER := w0];
    FactsStep(run, d, MIDDLE, m2, byId, subs, {MIDDLE});
    FactsStep(run + [d], f, WORKER, w1, byId[MIDDLE := m2], subs, {MIDDLE});
    BothMoved(boss, m1, m2, w0, w1);
    RunSnoc(run + [d] + [f], e);
    FreshLooks(Run(run + [d] + [f]), map[BOSS := boss, MIDDLE := m2, WORKER := w1], subs, {MIDDLE});
    EndDrops(Fresh(Run(run + [d] + [f])), boss, m2, w1);
  }

  lemma RelaunchEnds()
    ensures Looks(Run(RELAUNCH), map[BOSS := Boss(), MIDDLE := Back(), WORKER := Finished()], map[MIDDLE := [BOSS]], {MIDDLE})
  {
    Held();
    RelaunchFrom(HOLD, DOWN, Facts(WORKER, Some(Finished())), End(WORKER), UP,
                 Boss(), Middle(), Away(), Back(), Worker(), Finished());
  }

  lemma RelaunchFrom(run: seq<Step>, d: Step, f: Step, e: Step, u: Step,
                     boss: Instance, m1: Instance, m2: Instance, m3: Instance, w0: Instance, w1: Instance)
    requires Looks(Run(run), map[BOSS := boss, MIDDLE := m1, WORKER := w0], map[MIDDLE := [BOSS], WORKER := [MIDDLE]], {MIDDLE})
    requires d == Facts(MIDDLE, Some(m2)) && f == Facts(WORKER, Some(w1)) && e == End(WORKER) && u == Facts(MIDDLE, Some(m3))
    requires Relaunching(m2) && AtRest(w1)
    ensures Looks(Run(run + [d] + [f] + [e] + [u]), map[BOSS := boss, MIDDLE := m3, WORKER := w1], map[MIDDLE := [BOSS]], {MIDDLE})
  {
    WorkerFinishes(run, d, f, e, boss, m1, m2, w0, w1);
    var byId := map[BOSS := boss, MIDDLE := m2, WORKER := w1];
    FactsStep(run + [d] + [f] + [e], u, MIDDLE, m3, byId, map[MIDDLE := [BOSS]], {MIDDLE});
    assert byId[MIDDLE := m3] == map[BOSS := boss, MIDDLE := m3, WORKER := w1];
  }

  /**
   The exception in the hold theorem is real: after the relaunch the middle session is live and idle, the boss's
   wake is still held, and no chain of waits from it leads anywhere.
   */
  lemma RelaunchStrands()
    ensures var h := Run(RELAUNCH);
            Lost(h, MIDDLE) && h.byId[MIDDLE].proc.Some? && !h.suspended
  {
    RelaunchEnds();
    var h := Run(RELAUNCH);
    assert h.byId[MIDDLE] == Back() && Get(h.subscribers, MIDDLE) == [BOSS];
    assert HeldQuiet(h, MIDDLE);
    NothingRescues(h, MIDDLE);
  }

  /** Had the worker still been in its turn, the same skipped decision would have lost nothing. */
  lemma RelaunchKeeps()
    ensures var h := Run(HOLD + [DOWN]);
            && SkipGuard(h, UP, MIDDLE) && HeldQuiet(After(h, UP), MIDDLE)
            && WayOut(After(h, UP), MIDDLE)
  {
    Held();
    KeepsOf(HOLD, DOWN, UP, Boss(), Middle(), Away(), Back(), Worker());
  }

  lemma KeepsOf(run: seq<Step>, d: Step, u: Step, boss: Instance, m1: Instance, m2: Instance, m3: Instance, w0: Instance)
    requires Looks(Run(run), map[BOSS := boss, MIDDLE := m1, WORKER := w0], map[MIDDLE := [BOSS], WORKER := [MIDDLE]], {MIDDLE})
    requires d == Facts(MIDDLE, Some(m2)) && u == Facts(MIDDLE, Some(m3)) && Relaunching(m2) && AtRest(m3) && Works(w0)
    ensures var h := Run(run + [d]);
            && SkipGuard(h, u, MIDDLE) && HeldQuiet(After(h, u), MIDDLE)
            && WayOut(After(h, u), MIDDLE)
  {
    var subs := map[MIDDLE := [BOSS], WORKER := [MIDDLE]];
    var byId := map[BOSS := boss, MIDDLE := m1, WORKER := w0];
    FactsStep(run, d, MIDDLE, m2, byId, subs, {MIDDLE});
    var h := Run(run + [d]);
    FactsLooks(h, MIDDLE, m3, byId[MIDDLE := m2], subs, {MIDDLE});
    WorkerRescues(After(h, u), MIDDLE, WORKER);
  }

  lemma WorkerRescues(h: Hub, x: Id, t: Id)
    requires IsArmed(h, t, x) && Working(h, t)
    ensures WayOut(h, x)
  {
    StartsAtItself(h, x);
    assert Rescued(h, x);
  }

  /** A session with no wake on the way that is armed on nothing waits for nothing. */
  lemma NothingRescues(h: Hub, x: Id)
    requires !HasWake(h, x) && forall t :: !IsArmed(h, t, x)
    ensures !WayOut(h, x)
  {
    forall p | HeldChain(h, p) && p[0] == x ensures !Rescued(h, p[|p| - 1]) {
      if |p| > 1 {
        ChainSecond(h, p);
      }
    }
  }
}
