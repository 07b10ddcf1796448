/** One turn, one wake: a turn's end reaches each caller at most once. */
module IdleGraphTurns {
  import opened Text
  import opened IdleGraph
  import opened IdleGraphTheorems
  import opened IdleGraphLedger

  /** The wakes of the pair that its turns' ends have consumed. */
  function Consumed(h: Hub, t: Id, c: Id): nat {
    h.history.ledger[Ended(t, c, Why.Consumed)]
  }

  /** Those, and the one a turn's end could still consume. */
  function Claims(h: Hub, t: Id, c: Id): nat {
    Consumed(h, t, c) + if IsArmed(h, t, c) then 1 else 0
  }

  predicate InTurn(h: Hub, t: Id) {
    t in h.byId && h.byId[t].status == Turn
  }

  /** No claim is added, and while `t` is not held none is used up. */
  predicate Follows(h: Hub, h': Hub, t: Id, c: Id) {
    && Claims(h', t, c) <= Claims(h, t, c)
    && (t !in h.holding ==> t !in h'.holding && Consumed(h', t, c) == Consumed(h, t, c))
  }

  lemma FollowsTrans(h: Hub, h1: Hub, h2: Hub, t: Id, c: Id)
    requires Follows(h, h1, t, c) && Follows(h1, h2, t, c)
    ensures Follows(h, h2, t, c)
  {
  }

  lemma Still(h: Hub, h': Hub, t: Id, c: Id)
    requires SameBooks(h, h') && h'.holding <= h.holding
    ensures Follows(h, h', t, c)
  {
  }

  lemma SkipStill(h: Hub, x: Id)
    ensures SameBooks(h, Skip(h, x)) && Skip(h, x).holding == h.holding
  {
    SkipSameBooks(h, x);
    SkipSame(h, x);
  }

  lemma DeliverStill(h: Hub, c: Id, w: Wake)
    ensures SameBooks(h, Deliver(h, c, w)) && Deliver(h, c, w).holding == h.holding
  {
    DeliverSameBooks(h, c, w);
    DeliverKeepsHolds(h, c, w);
  }

  lemma {:induction false} DeliverAllHolds(h: Hub, callers: seq<Id>, w: Wake)
    ensures DeliverAll(h, callers, w).holding == h.holding
    decreases |callers|
  {
    if callers != [] {
      var h1 := Log(h, Ended(w.target, callers[0], Why.Consumed));
      DeliverStill(h1, callers[0], w);
      DeliverAllHolds(Deliver(h1, callers[0], w), callers[1..], w);
    }
  }

  lemma {:induction false} RedeliverStill(h: Hub, c: Id, wakes: seq<Wake>)
    ensures SameBooks(h, Redeliver(h, c, wakes)) && Redeliver(h, c, wakes).holding == h.holding
    decreases |wakes|
  {
    if wakes != [] {
      var stale := wakes[0].target in h.byId && h.byId[wakes[0].target].status == Turn;
      var w := wakes[0].(stale := stale);
      DeliverStill(h, c, w);
      RedeliverStill(Deliver(h, c, w), c, wakes[1..]);
    }
  }

  lemma FlushStill(h: Hub, x: Id)
    ensures SameBooks(h, Flush(h, x)) && Flush(h, x).holding == h.holding
  {
    if x in h.deferred {
      SkipStill(DropDeferred(h, x), x);
      RedeliverStill(h.(deferred := h.deferred - {x}), x, h.deferred[x]);
    }
  }

  // ---------------------------------------------------------------------------------------------
  // Deciding
  // ---------------------------------------------------------------------------------------------

  /** Consuming a target uses up each caller's claim on it, and touches no other target's. */
  lemma ConsumeClaims(h: Hub, x: Id, t: Id, c: Id)
    requires Distinct(Get(h.subscribers, x))
    ensures Consume(h, x).holding <= h.holding && Claims(Consume(h, x), t, c) <= Claims(h, t, c)
    ensures x != t ==> Consumed(Consume(h, x), t, c) == Consumed(h, t, c)
  {
    var callers := Get(h.subscribers, x);
    if callers != [] {
      var h0 := Unhold(h.(subscribers := h.subscribers - {x}, settles := h.settles - {x}), x);
      var h1 := TakePrompts(h0, x, true);
      TakeSameBooks(h0, x, true);
      assert h1.holding == h0.holding;
      DeliverAllLedger(h1, callers, ReportOf(h, x));
      DeliverAllHolds(h1, callers, ReportOf(h, x));
      EndsOfCount(x, callers, Why.Consumed, Ended(t, c, Why.Consumed));
    }
  }

  lemma DecideClaims(h: Hub, x: Id, t: Id, c: Id)
    requires x in h.byId && Distinct(Get(h.subscribers, x))
    ensures Claims(Decide(h, x), t, c) <= Claims(h, t, c)
    ensures x != t || x in h.holding ==> Follows(h, Decide(h, x), t, c)
  {
    MarkSameBooks(h, x);
    ConsumeClaims(h, x, t, c);
  }

  lemma ReleaseFollows(h: Hub, x: Id, t: Id, c: Id)
    requires Distinct(Get(h.subscribers, x))
    ensures Follows(h, ReleaseHeld(h, x), t, c)
  {
    if x in h.holding {
      if !CanReceive(h, x) {
        SkipStill(h, x);
        Still(h, Skip(h, x), t, c);
      } else {
        DecideClaims(h, x, t, c);
      }
    }
  }

  lemma RedecideFollows(h: Hub, x: Id, t: Id, c: Id)
    ensures Follows(h, RedecideHold(h, x), t, c)
  {
    MarkSameBooks(h, x);
  }

  lemma ReleaseOneFollows(h: Hub, w: Id, release: bool, removing: set<Id>, t: Id, c: Id)
    requires Distinct(Get(h.subscribers, w))
    ensures Follows(h, ReleaseOne(h, w, release, removing), t, c)
  {
    if w in removing {
      SkipStill(h, w);
      Still(h, Skip(h, w), t, c);
    } else if release {
      ReleaseFollows(h, w, t, c);
    } else {
      RedecideFollows(h, w, t, c);
    }
  }

  lemma {:induction false} ReleaseAllFollows(h: Hub, waiters: seq<Id>, release: bool, removing: set<Id>, t: Id, c: Id)
    requires Books(h)
    ensures Follows(h, ReleaseAll(h, waiters, release, removing), t, c)
    decreases |waiters|
  {
    if waiters != [] {
      var h1 := ReleaseOne(h, waiters[0], release, removing);
      ReleaseOneFollows(h, waiters[0], release, removing, t, c);
      ReleaseOneBooks(h, waiters[0], release, removing);
      ReleaseAllFollows(h1, waiters[1..], release, removing, t, c);
      FollowsTrans(h, h1, ReleaseAll(h1, waiters[1..], release, removing), t, c);
    }
  }

  lemma EraseFollows(h: Hub, x: Id, t: Id, c: Id)
    requires Distinct(Get(h.subscribers, x))
    ensures Follows(h, Erase(h, x), t, c)
  {
    ErasedLedger(h, x, Ended(t, c, Why.Consumed));
    ErasedEdge(h.subscribers - {x}, x, t, c);
  }

  // ---------------------------------------------------------------------------------------------
  // Arming and dropping
  // ---------------------------------------------------------------------------------------------

  lemma DropFollows(h: Hub, x: Id, d: Id, why: Why, t: Id, c: Id)
    requires why != Why.Consumed
    ensures Follows(h, DropArmed(h, x, d, why), t, c)
  {
    DropUsesNone(h, x, d, why, t, c);
    if IsArmed(h, x, d) {
      DropLosesEdge(h, x, d, why, t, c);
    }
  }

  lemma DropUsesNone(h: Hub, x: Id, d: Id, why: Why, t: Id, c: Id)
    requires why != Why.Consumed
    ensures var h' := DropArmed(h, x, d, why);
            h'.holding <= h.holding && Consumed(h', t, c) == Consumed(h, t, c)
  {
  }

  lemma {:induction false} ExitAllFollows(h: Hub, x: Id, callers: seq<Id>, w: Wake, t: Id, c: Id)
    ensures Follows(h, ExitAll(h, x, callers, w), t, c)
    decreases |callers|
  {
    if callers != [] {
      var h1 := DropArmed(h, x, callers[0], Exited);
      var h2 := Deliver(h1, callers[0], w);
      DropFollows(h, x, callers[0], Exited, t, c);
      DeliverStill(h1, callers[0], w);
      Still(h1, h2, t, c);
      ExitAllFollows(h2, x, callers[1..], w, t, c);
    }
  }

  lemma ArmKeepsOthers(h: Hub, x: Id, d: Id, t: Id, c: Id)
    ensures Arm(h, x, d).holding == h.holding && Consumed(Arm(h, x, d), t, c) == Consumed(h, t, c)
    ensures x != t || d != c || IsArmed(h, t, c) ==> Claims(Arm(h, x, d), t, c) == Claims(h, t, c)
  {
  }

  lemma {:induction false} ArmAllKeepsOthers(h: Hub, x: Id, callers: seq<Id>, t: Id, c: Id)
    ensures var h' := ArmAll(h, x, callers);
            && h'.holding == h.holding && Consumed(h', t, c) == Consumed(h, t, c)
            && (x != t ==> Claims(h', t, c) == Claims(h, t, c))
    decreases |callers|
  {
    if callers != [] {
      ArmKeepsOthers(h, x, callers[0], t, c);
      ArmAllKeepsOthers(Arm(h, x, callers[0]), x, callers[1..], t, c);
    }
  }

  /** A turn's start arms its own session's callers only, and is no end of a turn. */
  lemma StartClaims(h: Hub, x: Id, t: Id, c: Id)
    ensures var h' := TurnStart(h, x);
            && h'.holding <= h.holding && x !in h'.holding && Consumed(h', t, c) == Consumed(h, t, c)
            && (x != t ==> Claims(h', t, c) == Claims(h, t, c))
  {
    ArmAllKeepsOthers(Unhold(h, x), x, OwnersOf(h, x), t, c);
  }

  lemma RearmStill(h: Hub, x: Id, d: Id, t: Id, c: Id)
    requires IsArmed(h, x, d)
    ensures Follows(h, Rearm(h, x, d), t, c)
  {
    assert c in Remove(h.subscribers[x], d) + [d] <==> c in h.subscribers[x];
  }

  /** A dispatch adds no claim on a session that is not in a turn, and uses none up. */
  lemma DispatchClaims(h: Hub, d: Id, x: Id, t: Id, c: Id)
    requires d in h.byId && x in h.byId && d != x
    ensures var h' := NoteDispatch(h, d, x);
            && h'.holding == h.holding && Consumed(h', t, c) == Consumed(h, t, c)
            && (!InTurn(h, t) ==> Claims(h', t, c) <= Claims(h, t, c))
  {
    var h1 := RecordOwner(h, x, d);
    assert SameBooks(h, h1) && h1.holding == h.holding;
    if IsArmed(h1, x, d) {
      RearmStill(h1, x, d, t, c);
    } else {
      ArmKeepsOthers(h1, x, d, t, c);
    }
  }

  lemma TimeoutFollows(h: Hub, d: Id, x: Id, t: Id, c: Id)
    requires d in h.byId && x in h.byId && d != x
    ensures Follows(h, SetIdleTimeout(h, d, x), t, c)
  {
    var h1 := RecordOwner(h, x, d);
    if IsArmed(h1, x, d) {
      RearmStill(h1, x, d, t, c);
    }
  }

  // ---------------------------------------------------------------------------------------------
  // Steps
  // ---------------------------------------------------------------------------------------------

  /** The steps that can end a turn of `t`. */
  predicate EndsTurn(s: Step, t: Id) {
    s == End(t) || s == Rotated(t, true)
  }

  lemma TurnEndClaims(h: Hub, x: Id, t: Id, c: Id)
    requires Distinct(Get(h.subscribers, x))
    ensures Claims(TurnEnd(h, x), t, c) <= Claims(h, t, c)
    ensures x != t ==> Follows(h, TurnEnd(h, x), t, c)
  {
    OnTurnEndClaims(h, x, t, c);
    FlushStill(OnTurnEnd(h, x), x);
    Still(OnTurnEnd(h, x), TurnEnd(h, x), t, c);
  }

  lemma OnTurnEndClaims(h: Hub, x: Id, t: Id, c: Id)
    requires Distinct(Get(h.subscribers, x))
    ensures Claims(OnTurnEnd(h, x), t, c) <= Claims(h, t, c)
    ensures x != t ==> Follows(h, OnTurnEnd(h, x), t, c)
  {
    var h1 := h.(settles := h.settles - {x});
    if x in h.byId && !h.byId[x].stopInterrupted && Get(h.subscribers, x) != [] && !Defers(h.byId[x]) {
      DecideClaims(h1, x, t, c);
    } else {
      QuietEndFollows(h, x, t, c);
    }
  }

  lemma QuietEndFollows(h: Hub, x: Id, t: Id, c: Id)
    requires x in h.byId && !h.byId[x].stopInterrupted ==> Get(h.subscribers, x) == [] || Defers(h.byId[x])
    ensures Follows(h, OnTurnEnd(h, x), t, c)
  {
    var h1 := h.(settles := h.settles - {x});
    Still(h, h1, t, c);
    TakeFollows(h, x, t, c);
    TakeFollows(h1, x, t, c);
  }

  lemma TakeFollows(h: Hub, x: Id, t: Id, c: Id)
    ensures Follows(h, TakePrompts(h, x, false), t, c)
  {
    TakeStill(h, x);
    Still(h, TakePrompts(h, x, false), t, c);
  }

  lemma TakeStill(h: Hub, x: Id)
    ensures SameBooks(h, TakePrompts(h, x, false)) && TakePrompts(h, x, false).holding == h.holding
  {
  }

  lemma SettleClaims(h: Hub, x: Id, t: Id, c: Id)
    requires Distinct(Get(h.subscribers, x))
    ensures Claims(FireSettle(h, x), t, c) <= Claims(h, t, c)
    ensures x != t || InTurn(h, t) ==> Follows(h, FireSettle(h, x), t, c)
  {
    var h1 := h.(settles := h.settles - {x});
    if SettleHolds(h, x) {
      DecideClaims(h1, x, t, c);
    }
  }

  lemma RotatedClaims(h: Hub, x: Id, up: bool, t: Id, c: Id)
    requires Distinct(Get(h.subscribers, x))
    ensures Claims(RotationComplete(h, x, up), t, c) <= Claims(h, t, c)
    ensures x != t || !up ==> Follows(h, RotationComplete(h, x, up), t, c)
  {
    ConsumeClaims(h, x, t, c);
    if x in h.byId {
      DecideClaims(h, x, t, c);
    }
  }

  lemma ExitFollows(h: Hub, x: Id, t: Id, c: Id)
    ensures Follows(h, TargetExit(h, x), t, c)
  {
    var callers := Get(h.subscribers, x);
    var h1 := TakePrompts(h, x, callers != []);
    TakeSameBooks(h, x, callers != []);
    Still(h, h1, t, c);
    ExitAllFollows(h1, x, callers, Wake(x, false, true, false, false, Get(h.prompts, x)), t, c);
  }

  lemma DisarmFollows(h: Hub, x: Id, d: Id, t: Id, c: Id)
    requires Books(h)
    ensures Follows(h, DisarmSilently(h, x, d), t, c)
  {
    if IsArmed(h, x, d) {
      DropFollows(h, x, d, Disarmed, t, c);
      DropBooks(h, x, d, Disarmed);
      ReleaseFollows(DropArmed(h, x, d, Disarmed), d, t, c);
    }
  }

  lemma BeatFollows(h: Hub, x: Id, d: Id, t: Id, c: Id)
    ensures Follows(h, Heartbeat(h, x, d), t, c)
  {
    if IsArmed(h, x, d) {
      var h1 := if Gone(h, x) then DropArmed(h, x, d, Retired) else h;
      DropFollows(h, x, d, Retired, t, c);
      DeliverStill(h1, d, Wake(x, true, false, false, false, []));
    }
  }

  lemma FactsStill(h: Hub, x: Id, i: Option<Instance>)
    ensures SameBooks(h, SetFacts(h, x, i)) && SetFacts(h, x, i).holding == h.holding
  {
    SkipStill(WithFacts(h, x, i), x);
  }

  lemma PlainStepStill(h: Hub, s: Step)
    requires s.Echo? || s.Ask? || s.Task? || s.Suspend? || s.Resume?
    ensures SameBooks(h, Next(h, s)) && Next(h, s).holding == h.holding
  {
    QuietStepBooks(h, s);
  }

  lemma RemovalFollows(h: Hub, s: Step, t: Id, c: Id)
    requires Books(h) && s.Removal?
    ensures Follows(h, Next(h, s), t, c)
  {
    EraseFollows(h, s.x, t, c);
    EraseBooks(h, s.x);
    ReleaseAllFollows(Erase(h, s.x), Get(h.subscribers, s.x), s.release, s.removing, t, c);
  }

  predicate TurnStep(s: Step) {
    s.End? || s.SettleFires? || s.Rotated? || s.Start? || s.Dispatch?
  }

  /** A step that starts or ends no turn and dispatches nothing. */
  lemma OtherStepFollows(h: Hub, s: Step, t: Id, c: Id)
    requires Books(h) && !TurnStep(s)
    ensures Follows(h, Next(h, s), t, c)
  {
    match s
    case Facts(x, i) => FactsStill(h, x, i); Still(h, Next(h, s), t, c);
    case SteerSettled(x) => FlushStill(h, x); Still(h, Next(h, s), t, c);
    case Exit(x) => ExitFollows(h, x, t, c);
    case Timeout(d, x) => if d in h.byId && x in h.byId && d != x { TimeoutFollows(h, d, x, t, c); }
    case Disarm(x, d) => DisarmFollows(h, x, d, t, c);
    case Beat(x, d) => BeatFollows(h, x, d, t, c);
    case SendDone(x) => Still(h, OneLanded(h, x), t, c); ReleaseFollows(OneLanded(h, x), x, t, c);
    case Removal(_, _, _) => RemovalFollows(h, s, t, c);
    case _ => PlainStepStill(h, s); Still(h, Next(h, s), t, c);
  }

  /** Outside a turn of `t`, no step but its next turn's start adds a claim on it. */
  lemma NoNewClaim(h: Hub, s: Step, t: Id, c: Id)
    requires Books(h) && !InTurn(h, t) && s != Start(t)
    ensures Claims(Next(h, s), t, c) <= Claims(h, t, c)
  {
    match s
    case Start(x) => StartClaims(h, x, t, c);
    case End(x) => TurnEndClaims(h, x, t, c);
    case SettleFires(x) => SettleClaims(h, x, t, c);
    case Rotated(x, up) => RotatedClaims(h, x, up, t, c);
    case Dispatch(d, x) => if d in h.byId && x in h.byId && d != x { DispatchClaims(h, d, x, t, c); }
    case _ => OtherStepFollows(h, s, t, c);
  }

  /** Inside a turn of `t` that is not held, no step but its end uses up a claim on it. */
  lemma NoClaimUsed(h: Hub, s: Step, t: Id, c: Id)
    requires Books(h) && InTurn(h, t) && t !in h.holding && !EndsTurn(s, t)
    ensures t !in Next(h, s).holding && Consumed(Next(h, s), t, c) == Consumed(h, t, c)
  {
    match s
    case Start(x) => StartClaims(h, x, t, c);
    case End(x) => TurnEndClaims(h, x, t, c);
    case SettleFires(x) => SettleClaims(h, x, t, c);
    case Rotated(x, up) => RotatedClaims(h, x, up, t, c);
    case Dispatch(d, x) => if d in h.byId && x in h.byId && d != x { DispatchClaims(h, d, x, t, c); }
    case _ => OtherStepFollows(h, s, t, c);
  }

  // ---------------------------------------------------------------------------------------------
  // Turns
  // ---------------------------------------------------------------------------------------------

  /** The state before step `n` of a stretch. */
  ghost function At(steps: seq<Step>, more: seq<Step>, n: nat): Hub
    requires n <= |more|
  {
    Run(steps + more[..n])
  }

  /**
   A stretch of a run that holds one turn of `t`: it begins with the turn's start and holds no other, the session's
   status leaves the turn once, and that comes before the turn's end, or a rotation that came up idle, is announced.
   */
  ghost predicate OneTurn(steps: seq<Step>, more: seq<Step>, t: Id) {
    && more != [] && more[0] == Start(t)
    && (forall n {:trigger more[n]} :: 0 < n < |more| ==> more[n] != Start(t))
    && (forall m, n {:trigger more[m], more[n]} :: 0 < m <= n < |more| && InTurn(At(steps, more, n), t) ==> InTurn(At(steps, more, m), t))
    && (forall n {:trigger more[n]} :: 0 < n < |more| && EndsTurn(more[n], t) ==> !InTurn(At(steps, more, n), t))
  }

  lemma AtStep(steps: seq<Step>, more: seq<Step>, n: nat)
    requires n < |more|
    ensures At(steps, more, n + 1) == Next(Fresh(At(steps, more, n)), more[n])
    ensures Books(At(steps, more, n)) && Books(Fresh(At(steps, more, n)))
  {
    var front := steps + more[..n + 1];
    assert front[..|front| - 1] == steps + more[..n];
    LedgerHolds(steps + more[..n]);
    SameBooksKeep(At(steps, more, n), Fresh(At(steps, more, n)));
  }

  /** How far the claims of one turn can have got: none used up while it runs, and one in all. */
  predicate WithinTurn(h: Hub, t: Id, c: Id, before: nat) {
    Claims(h, t, c) <= before + 1 && (InTurn(h, t) ==> t !in h.holding && Consumed(h, t, c) == before)
  }

  lemma StepWithin(h: Hub, s: Step, t: Id, c: Id, before: nat)
    requires Books(h) && WithinTurn(h, t, c, before) && s != Start(t) && (EndsTurn(s, t) ==> !InTurn(h, t))
    ensures Claims(Next(h, s), t, c) <= before + 1
    ensures InTurn(h, t) ==> t !in Next(h, s).holding && Consumed(Next(h, s), t, c) == before
  {
    if InTurn(h, t) {
      NoClaimUsed(h, s, t, c);
    } else {
      NoNewClaim(h, s, t, c);
    }
  }

  lemma Inside(steps: seq<Step>, more: seq<Step>, t: Id, n: nat)
    requires OneTurn(steps, more, t) && 0 < n < |more|
    ensures more[n] != Start(t) && (EndsTurn(more[n], t) ==> !InTurn(At(steps, more, n), t))
    ensures n > 1 && InTurn(At(steps, more, n), t) ==> InTurn(At(steps, more, n - 1), t)
  {
    assert n > 1 ==> more[n - 1] == more[n - 1];
  }

  lemma FirstWithin(h: Hub, t: Id, c: Id)
    ensures WithinTurn(TurnStart(h, t), t, c, Consumed(h, t, c))
  {
    StartClaims(h, t, t, c);
  }

  lemma {:induction false} TurnUpTo(steps: seq<Step>, more: seq<Step>, t: Id, c: Id, n: nat)
    requires OneTurn(steps, more, t) && 0 < n < |more|
    ensures WithinTurn(At(steps, more, n), t, c, Consumed(Run(steps), t, c))
  {
    if n == 1 {
      AfterStart(steps, more, t, c);
    } else {
      TurnUpTo(steps, more, t, c, n - 1);
      OneOn(steps, more, t, c, n - 1);
      Inside(steps, more, t, n);
    }
  }

  lemma AfterStart(steps: seq<Step>, more: seq<Step>, t: Id, c: Id)
    requires more != [] && more[0] == Start(t)
    ensures WithinTurn(At(steps, more, 1), t, c, Consumed(Run(steps), t, c))
  {
    AtStep(steps, more, 0);
    assert steps + more[..0] == steps;
    FirstWithin(Fresh(Run(steps)), t, c);
  }

  /** One more step of the stretch. */
  lemma OneOn(steps: seq<Step>, more: seq<Step>, t: Id, c: Id, n: nat)
    requires OneTurn(steps, more, t) && 0 < n < |more|
    requires WithinTurn(At(steps, more, n), t, c, Consumed(Run(steps), t, c))
    ensures var h, before := At(steps, more, n + 1), Consumed(Run(steps), t, c);
            && Claims(h, t, c) <= before + 1
            && (InTurn(At(steps, more, n), t) ==> t !in h.holding && Consumed(h, t, c) == before)
  {
    AtStep(steps, more, n);
    Inside(steps, more, t, n);
    StepWithin(Fresh(At(steps, more, n)), more[n], t, c, Consumed(Run(steps), t, c));
  }

  /** One turn reaches each caller through at most one consumed wake. */
  lemma {:induction false} OneWakePerTurn(steps: seq<Step>, more: seq<Step>, t: Id, c: Id)
    requires OneTurn(steps, more, t)
    ensures Consumed(Run(steps + more), t, c) <= Consumed(Run(steps), t, c) + 1
  {
    var n := |more| - 1;
    assert more[..n + 1] == more;
    if n == 0 {
      AfterStart(steps, more, t, c);
    } else {
      TurnUpTo(steps, more, t, c, n);
      OneOn(steps, more, t, c, n);
    }
  }
}
