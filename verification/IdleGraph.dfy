/**
 The idle-wake graph (src/idleSubscriptions.ts) as a state machine over values: the hub's maps, the
 facts it reads off each instance, and one function per entry point. `IdleSubscriptions` is the class
 whose methods are proved to compute these functions; `IdleGraphTheorems` proves what every run keeps.

 `history` holds what the hub does not store but its design speaks about: which armed wakes ended and
 how, which prompts were reported, which wakes were sent or dropped, and which held sessions had a hold decision
 skipped.
 */
module IdleGraph {
  import opened Text

  /** The stable instanceId. */
  datatype Id = Id(token: nat)

  /** `Other` covers spawning, exited and crashed, which the hub never tells apart. */
  datatype Status = Idle | Turn | Other

  /** The facts the hub reads off an Instance. `proc` names the subprocess run; `reviving` is `relaunching || _mutating`. */
  datatype Instance = Instance(
    status: Status, proc: Option<nat>, reviving: bool,
    agentTasks: nat, notificationPending: bool, rotationPending: bool, steerPending: bool,
    steerable: bool, forceAborted: bool, stopInterrupted: bool,
    windowDirty: bool, nextSeq: nat, spawner: Option<Id>)

  datatype Wake = Wake(target: Id, timedOut: bool, exited: bool, interrupted: bool, stale: bool, prompts: seq<string>)

  datatype Settle = Settle(proc: Option<nat>, armSeq: nat)

  /** How an armed wake ended. Only `Consumed` and `Exited` report the turn; `Retired` rides on a last heartbeat. */
  datatype Why = Consumed | Exited | Retired | Disarmed | Purged

  datatype Event = Armed(target: Id, caller: Id) | Ended(target: Id, caller: Id, why: Why)

  /** A wake that left the hub: put in flight to its recipient, or dropped with nobody to prompt. */
  datatype Post = Post(caller: Id, target: Id, why: Why, sent: bool)

  datatype Batch = Batch(reported: bool, texts: seq<string>)

  /**
   `skipped`: quiet held sessions whose hold decision the current step skipped at a guard: a release refused or
   a wake dropped because delivery is suspended or the process is down, a session being swept, or a return to
   quiet (a relaunch, a deferral that cleared) with no decision attached.
   */
  datatype History = History(
    ledger: multiset<Event>, posts: multiset<Post>,
    echoed: map<Id, seq<string>>, batches: map<Id, seq<Batch>>,
    skipped: set<Id>)

  datatype Hub = Hub(
    byId: map<Id, Instance>,
    subscribers: map<Id, seq<Id>>,
    owners: map<Id, seq<Id>>,
    settles: map<Id, Settle>,
    deferred: map<Id, seq<Wake>>,
    inFlight: map<Id, nat>,
    asked: set<Id>,
    holding: set<Id>,
    prompts: map<Id, seq<string>>,
    suspended: bool,
    history: History)

  // ---------------------------------------------------------------------------------------------
  // Reading the graph
  // ---------------------------------------------------------------------------------------------

  function Get<T>(m: map<Id, seq<T>>, id: Id): seq<T> {
    if id in m then m[id] else []
  }

  function Remove(s: seq<Id>, x: Id): (r: seq<Id>)
    ensures forall y :: y in r <==> y in s && y != x
  {
    if s == [] then [] else if s[0] == x then Remove(s[1..], x) else [s[0]] + Remove(s[1..], x)
  }

  predicate IsArmed(h: Hub, target: Id, caller: Id) {
    caller in Get(h.subscribers, target)
  }

  /** `_goneForGood`: no subprocess and nothing that will bring one back. */
  predicate Gone(h: Hub, t: Id) {
    t !in h.byId || (h.byId[t].proc.None? && !h.byId[t].reviving && !h.byId[t].rotationPending)
  }

  predicate Defers(i: Instance) {
    i.agentTasks > 0 || i.notificationPending || i.rotationPending || i.steerPending
  }

  /** Idle, able to be decided about, and not past every wake point. */
  predicate Quiet(h: Hub, t: Id) {
    t in h.byId && !Gone(h, t) && h.byId[t].status == Idle && !Defers(h.byId[t])
  }

  predicate HeldQuiet(h: Hub, t: Id) {
    Quiet(h, t) && t in h.holding
  }

  /** A wake is on its way to `x`. */
  predicate HasWake(h: Hub, x: Id) {
    x in h.inFlight || Get(h.deferred, x) != []
  }

  /** A live target whose turn, deferral or owed wake is still coming. */
  predicate Working(h: Hub, t: Id) {
    !Gone(h, t) && !HeldQuiet(h, t)
  }

  /** `s` itself still waits on work, not counting a wait on `root`. */
  ghost predicate HasWork(h: Hub, root: Id, s: Id) {
    HasWake(h, s) || exists t :: t != root && IsArmed(h, t, s) && Working(h, t)
  }

  predicate Hop(h: Hub, p: seq<Id>, i: int)
    requires 0 < i < |p|
  {
    IsArmed(h, p[i], p[i - 1]) && HeldQuiet(h, p[i])
  }

  /** A chain of waits from p[0] through held sessions. */
  ghost predicate HeldChain(h: Hub, p: seq<Id>) {
    |p| > 0 && forall i :: 0 < i < |p| ==> Hop(h, p, i)
  }

  /** A chain of waits that does not come back to `root`. */
  ghost predicate WaitPath(h: Hub, root: Id, p: seq<Id>) {
    HeldChain(h, p) && forall i :: 0 < i < |p| ==> p[i] != root
  }

  /** What `_waitsOnWork(x, {x})` decides: some chain of held waits from `x` ends at work. */
  ghost predicate Waits(h: Hub, x: Id) {
    exists p :: WaitPath(h, x, p) && p[0] == x && HasWork(h, x, p[|p| - 1])
  }

  ghost predicate HoldsNow(h: Hub, x: Id)
    requires x in h.byId
  {
    x !in h.asked && !h.byId[x].forceAborted && Waits(h, x)
  }

  // ---------------------------------------------------------------------------------------------
  // Building blocks
  // ---------------------------------------------------------------------------------------------

  function Skip(h: Hub, x: Id): Hub {
    if HeldQuiet(h, x) then h.(history := h.history.(skipped := h.history.skipped + {x})) else h
  }

  function Unhold(h: Hub, x: Id): Hub {
    h.(holding := h.holding - {x}, history := h.history.(skipped := h.history.skipped - {x}))
  }

  function MarkHeld(h: Hub, x: Id): Hub {
    h.(holding := h.holding + {x}, history := h.history.(skipped := h.history.skipped - {x}))
  }

  function Log(h: Hub, e: Event): Hub {
    h.(history := h.history.(ledger := h.history.ledger + multiset{e}))
  }

  /** Take a target's pending human prompts out: `reported` with a wake, or dropped with nobody to tell. */
  function TakePrompts(h: Hub, t: Id, reported: bool): Hub {
    if t !in h.prompts then h
    else h.(prompts := h.prompts - {t},
            history := h.history.(batches :=
              h.history.batches[t := Get(h.history.batches, t) + [Batch(reported, h.prompts[t])]]))
  }

  /** `_arm`: false (unchanged) when the pair is already armed. */
  function Arm(h: Hub, t: Id, c: Id): Hub {
    if IsArmed(h, t, c) then h
    else Log(h.(subscribers := h.subscribers[t := Get(h.subscribers, t) + [c]]), Armed(t, c))
  }

  /** Restart an armed pair's heartbeat: the entry moves to the end of the insertion order. */
  function Rearm(h: Hub, t: Id, c: Id): Hub
    requires t in h.subscribers
  {
    h.(subscribers := h.subscribers[t := Remove(h.subscribers[t], c) + [c]])
  }

  function DropEdge(m: map<Id, seq<Id>>, t: Id, c: Id): map<Id, seq<Id>>
    requires t in m
  {
    var rest := Remove(m[t], c);
    if rest == [] then m - {t} else m[t := rest]
  }

  /** `_dropArmed`: one entry goes, and with the last one everything that was waiting for it. */
  function DropArmed(h: Hub, t: Id, c: Id, why: Why): Hub {
    if !IsArmed(h, t, c) then h
    else
      var h1 := Log(h.(subscribers := DropEdge(h.subscribers, t, c)), Ended(t, c, why));
      if t in h1.subscribers then h1 else Unhold(h1.(settles := h1.settles - {t}), t)
  }

  predicate CanReceive(h: Hub, c: Id) {
    !h.suspended && c in h.byId && h.byId[c].proc.Some?
  }

  /** What a wake tells its recipient: a heartbeat of its target, its exit, or its turn's end. */
  function WhyOf(w: Wake): Why {
    if w.timedOut then Retired else if w.exited then Exited else Consumed
  }

  function PostOf(c: Id, w: Wake, sent: bool): Post {
    Post(c, w.target, WhyOf(w), sent)
  }

  function DropsOf(c: Id, wakes: seq<Wake>): multiset<Post> {
    if wakes == [] then multiset{} else multiset{PostOf(c, wakes[0], false)} + DropsOf(c, wakes[1..])
  }

  /** The wakes waiting for `c`'s turn to end are dropped with nobody to prompt. */
  function DropDeferred(h: Hub, c: Id): Hub {
    h.(deferred := h.deferred - {c},
       history := h.history.(posts := h.history.posts + DropsOf(c, Get(h.deferred, c))))
  }

  function HoldBehindTurn(h: Hub, c: Id, w: Wake): Hub {
    h.(deferred := h.deferred[c := Get(h.deferred, c) + [w]])
  }

  function PutInFlight(h: Hub, c: Id, w: Wake): Hub {
    h.(inFlight := h.inFlight[c := (if c in h.inFlight then h.inFlight[c] else 0) + 1],
       history := h.history.(posts := h.history.posts + multiset{PostOf(c, w, true)}))
  }

  function DropWake(h: Hub, c: Id, w: Wake): Hub {
    h.(history := h.history.(posts := h.history.posts + multiset{PostOf(c, w, false)}))
  }

  /** `deliver`: drop it, hold it behind the recipient's running turn, or put it in flight. */
  function Deliver(h: Hub, c: Id, w: Wake): Hub {
    if !CanReceive(h, c) then Skip(DropWake(h, c, w), c)
    else if h.byId[c].status == Turn && !h.byId[c].steerable then HoldBehindTurn(h, c, w)
    else PutInFlight(h, c, w)
  }

  /** Deliver one consumed entry to each caller in turn. */
  function DeliverAll(h: Hub, callers: seq<Id>, w: Wake): Hub
    decreases |callers|
  {
    if callers == [] then h
    else DeliverAll(Deliver(Log(h, Ended(w.target, callers[0], Consumed)), callers[0], w), callers[1..], w)
  }

  /** The wake a consuming path hands out: the abort qualifier and the prompts as of now. */
  function ReportOf(h: Hub, t: Id): Wake {
    Wake(t, false, false, t in h.byId && h.byId[t].forceAborted, false, Get(h.prompts, t))
  }

  function Consume(h: Hub, t: Id): Hub {
    var callers := Get(h.subscribers, t);
    if callers == [] then h
    else
      var h1 := TakePrompts(Unhold(h.(subscribers := h.subscribers - {t}, settles := h.settles - {t}), t), t, true);
      DeliverAll(h1, callers, ReportOf(h, t))
  }

  /** A decision point: hold the owners' wakes, or consume them. */
  ghost function Decide(h: Hub, x: Id): Hub
    requires x in h.byId
  {
    if HoldsNow(h, x) then MarkHeld(h, x) else Consume(h, x)
  }

  /** `_releaseHeld`. The two guards that skip a decision about a held session are recorded as skips. */
  ghost function ReleaseHeld(h: Hub, x: Id): Hub {
    if x !in h.holding then h
    else if !CanReceive(h, x) then Skip(h, x)
    else if h.byId[x].status != Idle || Get(h.subscribers, x) == [] || Defers(h.byId[x]) then h
    else Decide(h, x)
  }

  /** `_redecideHold`: re-decide without delivering. */
  ghost function RedecideHold(h: Hub, x: Id): Hub {
    if x !in h.holding then h
    else if x in h.byId && HoldsNow(h, x) then MarkHeld(h, x)
    else Unhold(h, x)
  }

  // ---------------------------------------------------------------------------------------------
  // Entry points
  // ---------------------------------------------------------------------------------------------

  function WithFacts(h: Hub, x: Id, i: Option<Instance>): Hub {
    h.(byId := if i.Some? then h.byId[x := i.value] else h.byId - {x})
  }

  /** Any change to one instance's facts, its registration or its removal. Returning to quiet while held is a skip. */
  function SetFacts(h: Hub, x: Id, i: Option<Instance>): Hub {
    var h1 := WithFacts(h, x, i);
    if !Quiet(h, x) && Quiet(h1, x) then Skip(h1, x) else h1
  }

  function HumanEcho(h: Hub, x: Id, text: string): Hub {
    h.(prompts := h.prompts[x := Get(h.prompts, x) + [text]],
       history := h.history.(echoed := h.history.echoed[x := Get(h.history.echoed, x) + [text]]))
  }

  function AskUser(h: Hub, x: Id): Hub {
    h.(asked := h.asked + {x})
  }

  /** Live owners in the order the wakes are armed: dispatchers, then the spawner; never itself. */
  function OwnersIn(byId: map<Id, Instance>, owners: map<Id, seq<Id>>, t: Id): seq<Id> {
    var dispatched := Get(owners, t);
    var all := if t in byId && byId[t].spawner.Some? && byId[t].spawner.value !in dispatched
               then dispatched + [byId[t].spawner.value] else dispatched;
    LiveOthers(byId, t, all)
  }

  function LiveOthers(byId: map<Id, Instance>, t: Id, ids: seq<Id>): (r: seq<Id>)
    ensures forall c :: c in r <==> c in ids && c != t && c in byId
  {
    if ids == [] then []
    else (if ids[0] != t && ids[0] in byId then [ids[0]] else []) + LiveOthers(byId, t, ids[1..])
  }

  function OwnersOf(h: Hub, t: Id): seq<Id> {
    OwnersIn(h.byId, h.owners, t)
  }

  function ArmAll(h: Hub, t: Id, callers: seq<Id>): Hub
    decreases |callers|
  {
    if callers == [] then h else ArmAll(Arm(h, t, callers[0]), t, callers[1..])
  }

  /** `onTurnStart`: arm every live owner; a turn no armed wake survived into starts with a clean slate. */
  function TurnStart(h: Hub, x: Id): Hub {
    var survived := Get(h.subscribers, x) != [];
    var h1 := ArmAll(Unhold(h, x), x, OwnersOf(h, x));
    if survived then h1
    else h1.(asked := h1.asked - {x},
             byId := if x in h1.byId then h1.byId[x := h1.byId[x].(forceAborted := false)] else h1.byId)
  }

  ghost function OnTurnEnd(h: Hub, x: Id): Hub {
    if x !in h.byId then h
    else if h.byId[x].stopInterrupted then
      if Get(h.subscribers, x) == [] then TakePrompts(h, x, false) else h
    else
      var h1 := h.(settles := h.settles - {x});
      if Get(h.subscribers, x) == [] then TakePrompts(h1, x, false)
      else if Defers(h.byId[x]) then h1
      else Decide(h1, x)
  }

  function Redeliver(h: Hub, c: Id, wakes: seq<Wake>): Hub
    decreases |wakes|
  {
    if wakes == [] then h
    else
      var w := wakes[0];
      var stale := w.target in h.byId && h.byId[w.target].status == Turn;
      Redeliver(Deliver(h, c, w.(stale := stale)), c, wakes[1..])
  }

  /** `_flushDeferredWakes`: the recipient reached a boundary. */
  function Flush(h: Hub, c: Id): Hub {
    if c !in h.deferred then h
    else if c !in h.byId || h.byId[c].proc.None? then Skip(DropDeferred(h, c), c)
    else if h.byId[c].steerPending then h
    else Redeliver(h.(deferred := h.deferred - {c}), c, h.deferred[c])
  }

  /** A `turn_end` event: the target's wake path, then the recipient's. */
  ghost function TurnEnd(h: Hub, x: Id): Hub {
    Flush(OnTurnEnd(h, x), x)
  }

  function Drained(i: Instance): bool {
    i.status == Idle && i.agentTasks == 0 && !i.notificationPending && !i.windowDirty
  }

  /** `_onTaskEvent`: arm, re-arm or cancel the idle-drain settle. */
  function TaskEvent(h: Hub, x: Id): Hub {
    if x !in h.byId || Get(h.subscribers, x) == [] then h
    else if !Drained(h.byId[x]) then h.(settles := h.settles - {x})
    else h.(settles := h.settles[x := Settle(h.byId[x].proc, h.byId[x].nextSeq)])
  }

  /** The settle fires only over the same subprocess run and a stream frozen since it was armed. */
  predicate SettleHolds(h: Hub, x: Id) {
    && x in h.settles && Get(h.subscribers, x) != [] && x in h.byId
    && h.byId[x].proc.Some? && h.byId[x].proc == h.settles[x].proc
    && Drained(h.byId[x]) && h.byId[x].nextSeq == h.settles[x].armSeq
  }

  ghost function FireSettle(h: Hub, x: Id): Hub {
    var h1 := h.(settles := h.settles - {x});
    if SettleHolds(h, x) then Decide(h1, x) else h1
  }

  ghost function RotationComplete(h: Hub, x: Id, comesUpIdle: bool): Hub {
    if !comesUpIdle then h
    else if x in h.byId then Decide(h, x)
    else Consume(h, x)
  }

  function ExitAll(h: Hub, t: Id, callers: seq<Id>, w: Wake): Hub
    decreases |callers|
  {
    if callers == [] then h
    else ExitAll(Deliver(DropArmed(h, t, callers[0], Exited), callers[0], w), t, callers[1..], w)
  }

  /** `onTargetExit`: the process exited on its own; the exit is the wake. */
  function TargetExit(h: Hub, t: Id): Hub {
    ExitAll(TakePrompts(h, t, Get(h.subscribers, t) != []), t, Get(h.subscribers, t), Wake(t, false, true, false, false, Get(h.prompts, t)))
  }

  function RecordOwner(h: Hub, t: Id, c: Id): Hub {
    if c in Get(h.owners, t) then h
    else h.(owners := h.owners[t := Get(h.owners, t) + [c]])
  }

  /** `noteDispatch` between two live sessions. */
  function NoteDispatch(h: Hub, c: Id, t: Id): Hub
    requires c in h.byId && t in h.byId && c != t
  {
    var h1 := RecordOwner(h, t, c);
    if IsArmed(h1, t, c) then Rearm(h1, t, c)
    else if h.byId[t].status == Turn then Arm(h1, t, c)
    else h1
  }

  function SetIdleTimeout(h: Hub, c: Id, t: Id): Hub
    requires c in h.byId && t in h.byId && c != t
  {
    var h1 := RecordOwner(h, t, c);
    if IsArmed(h1, t, c) then Rearm(h1, t, c) else h1
  }

  ghost function DisarmSilently(h: Hub, t: Id, c: Id): Hub {
    if !IsArmed(h, t, c) then h else ReleaseHeld(DropArmed(h, t, c, Disarmed), c)
  }

  /** One beat of an armed pair's interval: reports, and retires the entry only when the target is gone for good. */
  function Heartbeat(h: Hub, t: Id, c: Id): Hub {
    if !IsArmed(h, t, c) then h
    else Deliver(if Gone(h, t) then DropArmed(h, t, c, Retired) else h, c, Wake(t, true, false, false, false, []))
  }

  /** `_endInFlight`: a delivery was sent, refused or abandoned. */
  ghost function EndInFlight(h: Hub, c: Id): Hub {
    ReleaseHeld(OneLanded(h, c), c)
  }

  function OneLanded(h: Hub, c: Id): Hub {
    var n := if c in h.inFlight then h.inFlight[c] as int else 0;
    h.(inFlight := if n > 1 then h.inFlight[c := n - 1] else h.inFlight - {c})
  }

  // --- removal ---

  function EndsOf(t: Id, callers: seq<Id>, why: Why): multiset<Event> {
    if callers == [] then multiset{} else multiset{Ended(t, callers[0], why)} + EndsOf(t, callers[1..], why)
  }

  function DropCaller(m: map<Id, seq<Id>>, x: Id): map<Id, seq<Id>> {
    map t | t in m && !(x in m[t] && Remove(m[t], x) == []) :: Remove(m[t], x)
  }

  /** The targets that lose their last watcher when `x` goes. */
  function Orphaned(m: map<Id, seq<Id>>, x: Id): set<Id> {
    set t | t in m && x in m[t] && Remove(m[t], x) == []
  }

  function CallerEvents(m: map<Id, seq<Id>>, x: Id): multiset<Event> {
    multiset(set t | t in m && x in m[t] :: Ended(t, x, Purged))
  }

  /** Everything `purge` erases before it looks at the callers that lost a wait. */
  function Erase(h: Hub, x: Id): Hub {
    var others := h.subscribers - {x};
    var gone := Orphaned(others, x) + {x};
    var h1 := DropDeferred(TakePrompts(h, x, false), x);
    h1.(asked := h.asked - {x},
        holding := h.holding - gone,
        settles := h.settles - gone,
        owners := DropCaller(h.owners - {x}, x),
        inFlight := h.inFlight - {x},
        subscribers := DropCaller(others, x),
        history := h1.history.(skipped := h.history.skipped - gone,
          ledger := h.history.ledger + EndsOf(x, Get(h.subscribers, x), Purged) + CallerEvents(others, x)))
  }

  ghost function ReleaseAll(h: Hub, waiters: seq<Id>, release: bool, removing: set<Id>): Hub
    decreases |waiters|
  {
    if waiters == [] then h
    else
      ReleaseAll(ReleaseOne(h, waiters[0], release, removing), waiters[1..], release, removing)
  }

  /** A caller that lost a wait to a removal: skipped if it is being swept too, else decided about. */
  ghost function ReleaseOne(h: Hub, w: Id, release: bool, removing: set<Id>): Hub {
    if w in removing then Skip(h, w) else if release then ReleaseHeld(h, w) else RedecideHold(h, w)
  }

  ghost function Purge(h: Hub, x: Id, release: bool, removing: set<Id>): Hub {
    ReleaseAll(Erase(h, x), Get(h.subscribers, x), release, removing)
  }

  // ---------------------------------------------------------------------------------------------
  // Runs
  // ---------------------------------------------------------------------------------------------

  datatype Step =
    | Facts(x: Id, instance: Option<Instance>)
    | Echo(x: Id, text: string)
    | Ask(x: Id)
    | Start(x: Id)
    | End(x: Id)
    | SteerSettled(x: Id)
    | Task(x: Id)
    | SettleFires(x: Id)
    | Rotated(x: Id, comesUpIdle: bool)
    | Exit(x: Id)
    | Dispatch(caller: Id, target: Id)
    | Timeout(caller: Id, target: Id)
    | Disarm(target: Id, caller: Id)
    | Beat(target: Id, caller: Id)
    | SendDone(x: Id)
    | Removal(x: Id, release: bool, removing: set<Id>)
    | Suspend
    | Resume

  /** One step. A dispatch the hub refuses (a party not live, or a session addressing itself) changes nothing. */
  ghost function Next(h: Hub, s: Step): Hub {
    match s
    case Facts(x, i) => SetFacts(h, x, i)
    case Echo(x, text) => HumanEcho(h, x, text)
    case Ask(x) => AskUser(h, x)
    case Start(x) => TurnStart(h, x)
    case End(x) => TurnEnd(h, x)
    case SteerSettled(x) => Flush(h, x)
    case Task(x) => TaskEvent(h, x)
    case SettleFires(x) => FireSettle(h, x)
    case Rotated(x, up) => RotationComplete(h, x, up)
    case Exit(x) => TargetExit(h, x)
    case Dispatch(c, t) => if c in h.byId && t in h.byId && c != t then NoteDispatch(h, c, t) else h
    case Timeout(c, t) => if c in h.byId && t in h.byId && c != t then SetIdleTimeout(h, c, t) else h
    case Disarm(t, c) => DisarmSilently(h, t, c)
    case Beat(t, c) => Heartbeat(h, t, c)
    case SendDone(x) => EndInFlight(h, x)
    case Removal(x, release, removing) => Purge(h, x, release, removing)
    case Suspend => h.(suspended := true)
    case Resume => h.(suspended := false)
  }

  const EMPTY: Hub := Hub(map[], map[], map[], map[], map[], map[], {}, {}, map[], false,
                          History(multiset{}, multiset{}, map[], map[], {}))

  /** The record of skipped decisions starts over with each step. */
  function Fresh(h: Hub): Hub {
    h.(history := h.history.(skipped := {}))
  }

  ghost function After(h: Hub, s: Step): Hub {
    Next(Fresh(h), s)
  }

  ghost function Run(steps: seq<Step>): Hub {
    if steps == [] then EMPTY else After(Run(steps[..|steps| - 1]), steps[|steps| - 1])
  }
}
