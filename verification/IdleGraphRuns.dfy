/** Two more accounts of every run of the idle-wake graph: the human prompts, and the hold decisions a step skips. */
module IdleGraphRuns {
  import opened Text
  import opened IdleGraph
  import opened IdleGraphTheorems
  import opened IdleGraphLedger

  /** A quiet session no wake can reach: delivery is suspended, or its process is down. */
  predicate Unreachable(h: Hub, y: Id) {
    Quiet(h, y) && (h.suspended || h.byId[y].proc.None?)
  }

  /** A change that keeps the prompt account and skips a hold decision only for unreachable sessions. */
  ghost predicate Tame(h: Hub, h': Hub) {
    && h'.byId == h.byId && h'.suspended == h.suspended
    && (Prompts(h) ==> Prompts(h'))
    && (forall y :: y in h'.history.skipped ==> y in h.history.skipped || Unreachable(h, y))
  }

  lemma TameTrans(h: Hub, h1: Hub, h2: Hub)
    requires Tame(h, h1) && Tame(h1, h2)
    ensures Tame(h, h2)
  {
    assert forall y :: Unreachable(h1, y) == Unreachable(h, y);
  }

  lemma SamePrompts(h: Hub, h': Hub)
    requires Prompts(h) && h'.prompts == h.prompts
    requires h'.history.echoed == h.history.echoed && h'.history.batches == h.history.batches
    ensures Prompts(h')
  {
    forall t ensures PromptsKept(h', t) {
      assert PromptsKept(h, t);
    }
  }

  /** Changes that touch neither the prompts nor the skips are tame. */
  lemma PlainTame(h: Hub, h': Hub)
    requires h'.byId == h.byId && h'.suspended == h.suspended && h'.prompts == h.prompts
    requires h'.history.echoed == h.history.echoed && h'.history.batches == h.history.batches
    requires h'.history.skipped <= h.history.skipped
    ensures Tame(h, h')
  {
    if Prompts(h) {
      SamePrompts(h, h');
    }
  }

  lemma SkipTame(h: Hub, x: Id)
    requires !CanReceive(h, x)
    ensures Tame(h, Skip(h, x))
  {
    SkipAdds(h, x);
    if Prompts(h) {
      SamePrompts(h, Skip(h, x));
    }
  }

  lemma SkipAdds(h: Hub, x: Id)
    requires !CanReceive(h, x)
    ensures Skip(h, x).byId == h.byId && Skip(h, x).suspended == h.suspended && Skip(h, x).prompts == h.prompts
    ensures Skip(h, x).history.echoed == h.history.echoed && Skip(h, x).history.batches == h.history.batches
    ensures forall y :: y in Skip(h, x).history.skipped ==> y in h.history.skipped || Unreachable(h, y)
  {
    if HeldQuiet(h, x) {
      assert Unreachable(h, x);
      assert Skip(h, x) == h.(history := h.history.(skipped := h.history.skipped + {x}));
    }
  }

  lemma DeliverTame(h: Hub, c: Id, w: Wake)
    ensures Tame(h, Deliver(h, c, w))
  {
    if !CanReceive(h, c) {
      var h1 := DropWake(h, c, w);
      PlainTame(h, h1);
      SkipTame(h1, c);
      TameTrans(h, h1, Skip(h1, c));
    } else if h.byId[c].status == Turn && !h.byId[c].steerable {
      PlainTame(h, HoldBehindTurn(h, c, w));
    } else {
      PlainTame(h, PutInFlight(h, c, w));
    }
  }

  lemma DeliverAllTame(h: Hub, callers: seq<Id>, w: Wake)
    ensures Tame(h, DeliverAll(h, callers, w))
    decreases |callers|
  {
    if callers == [] {
      PlainTame(h, h);
    } else {
      var h1 := Log(h, Ended(w.target, callers[0], Consumed));
      var h2 := Deliver(h1, callers[0], w);
      PlainTame(h, h1);
      DeliverTame(h1, callers[0], w);
      TameTrans(h, h1, h2);
      DeliverAllTame(h2, callers[1..], w);
      TameTrans(h, h2, DeliverAll(h2, callers[1..], w));
    }
  }

  lemma TextsSnoc(bs: seq<Batch>, b: Batch)
    ensures Texts(bs + [b]) == Texts(bs) + b.texts
  {
    if bs != [] {
      TextsSnoc(bs[1..], b);
      assert (bs + [b])[1..] == bs[1..] + [b];
    }
  }

  lemma TakeTame(h: Hub, t: Id, reported: bool)
    ensures Tame(h, TakePrompts(h, t, reported))
  {
    var h' := TakePrompts(h, t, reported);
    if Prompts(h) {
      forall u ensures PromptsKept(h', u) {
        assert PromptsKept(h, u);
        if u == t && t in h.prompts {
          TextsSnoc(Get(h.history.batches, t), Batch(reported, h.prompts[t]));
        }
      }
    }
  }

  lemma ConsumeTame(h: Hub, t: Id)
    ensures Tame(h, Consume(h, t))
  {
    var callers := Get(h.subscribers, t);
    if callers == [] {
      PlainTame(h, h);
    } else {
      var h0 := Unhold(h.(subscribers := h.subscribers - {t}, settles := h.settles - {t}), t);
      var h1 := TakePrompts(h0, t, true);
      PlainTame(h, h0);
      TakeTame(h0, t, true);
      TameTrans(h, h0, h1);
      DeliverAllTame(h1, callers, ReportOf(h, t));
      TameTrans(h, h1, Consume(h, t));
    }
  }

  lemma DecideTame(h: Hub, x: Id)
    requires x in h.byId
    ensures Tame(h, Decide(h, x))
  {
    if HoldsNow(h, x) {
      PlainTame(h, MarkHeld(h, x));
    } else {
      ConsumeTame(h, x);
    }
  }

  lemma ReleaseTame(h: Hub, x: Id)
    ensures Tame(h, ReleaseHeld(h, x))
  {
    if x !in h.holding {
      PlainTame(h, h);
    } else if !CanReceive(h, x) {
      SkipTame(h, x);
    } else if h.byId[x].status != Idle || Get(h.subscribers, x) == [] || Defers(h.byId[x]) {
      PlainTame(h, h);
    } else {
      DecideTame(h, x);
    }
  }

  lemma RedecideTame(h: Hub, x: Id)
    ensures Tame(h, RedecideHold(h, x))
  {
    PlainTame(h, h);
    MarkTame(h, x);
  }

  lemma MarkTame(h: Hub, x: Id)
    ensures Tame(h, MarkHeld(h, x)) && Tame(h, Unhold(h, x))
  {
    PlainTame(h, MarkHeld(h, x));
    PlainTame(h, Unhold(h, x));
  }

  lemma ReleaseOneTame(h: Hub, w: Id, release: bool, removing: set<Id>)
    requires w !in removing
    ensures Tame(h, ReleaseOne(h, w, release, removing))
  {
    if release {
      ReleaseTame(h, w);
    } else {
      RedecideTame(h, w);
    }
  }

  lemma ReleaseAllTame(h: Hub, waiters: seq<Id>, release: bool, removing: set<Id>)
    requires forall w :: w in waiters ==> w !in removing
    ensures Tame(h, ReleaseAll(h, waiters, release, removing))
    decreases |waiters|
  {
    if waiters == [] {
      PlainTame(h, h);
    } else {
      var h1 := ReleaseOne(h, waiters[0], release, removing);
      ReleaseOneTame(h, waiters[0], release, removing);
      ReleaseAllTame(h1, waiters[1..], release, removing);
      TameTrans(h, h1, ReleaseAll(h1, waiters[1..], release, removing));
    }
  }

  lemma EraseTame(h: Hub, x: Id)
    ensures Tame(h, Erase(h, x))
  {
    var h1 := TakePrompts(h, x, false);
    TakeTame(h, x, false);
    PlainTame(h1, Erase(h, x));
    TameTrans(h, h1, Erase(h, x));
  }

  lemma DropTame(h: Hub, t: Id, c: Id, why: Why)
    ensures Tame(h, DropArmed(h, t, c, why))
  {
    if IsArmed(h, t, c) {
      var h1 := Log(h.(subscribers := DropEdge(h.subscribers, t, c)), Ended(t, c, why));
      PlainTame(h, h1);
      PlainTame(h, Unhold(h1.(settles := h1.settles - {t}), t));
    } else {
      PlainTame(h, h);
    }
  }

  lemma ExitAllTame(h: Hub, t: Id, callers: seq<Id>, w: Wake)
    ensures Tame(h, ExitAll(h, t, callers, w))
    decreases |callers|
  {
    if callers == [] {
      PlainTame(h, h);
    } else {
      var h1 := DropArmed(h, t, callers[0], Exited);
      var h2 := Deliver(h1, callers[0], w);
      DropTame(h, t, callers[0], Exited);
      DeliverTame(h1, callers[0], w);
      TameTrans(h, h1, h2);
      ExitAllTame(h2, t, callers[1..], w);
      TameTrans(h, h2, ExitAll(h2, t, callers[1..], w));
    }
  }

  lemma RedeliverTame(h: Hub, c: Id, wakes: seq<Wake>)
    ensures Tame(h, Redeliver(h, c, wakes))
    decreases |wakes|
  {
    if wakes == [] {
      PlainTame(h, h);
    } else {
      var stale := wakes[0].target in h.byId && h.byId[wakes[0].target].status == Turn;
      var h1 := Deliver(h, c, wakes[0].(stale := stale));
      DeliverTame(h, c, wakes[0].(stale := stale));
      RedeliverTame(h1, c, wakes[1..]);
      TameTrans(h, h1, Redeliver(h1, c, wakes[1..]));
    }
  }

  lemma FlushTame(h: Hub, c: Id)
    ensures Tame(h, Flush(h, c))
  {
    var h1 := h.(deferred := h.deferred - {c});
    PlainTame(h, h);
    if c !in h.deferred {
    } else if c !in h.byId || h.byId[c].proc.None? {
      DropDeferredTame(h, c);
    } else if !h.byId[c].steerPending {
      PlainTame(h, h1);
      RedeliverTame(h1, c, h.deferred[c]);
      TameTrans(h, h1, Flush(h, c));
    }
  }

  lemma DropDeferredTame(h: Hub, c: Id)
    requires !CanReceive(h, c)
    ensures Tame(h, Skip(DropDeferred(h, c), c))
  {
    var h1 := DropDeferred(h, c);
    PlainTame(h, h1);
    SkipTame(h1, c);
    TameTrans(h, h1, Skip(h1, c));
  }

  lemma OnTurnEndTame(h: Hub, x: Id)
    ensures Tame(h, OnTurnEnd(h, x))
  {
    var h2 := h.(settles := h.settles - {x});
    PlainTame(h, h);
    PlainTame(h, h2);
    TakeTame(h, x, false);
    TakeTame(h2, x, false);
    if x in h.byId && !h.byId[x].stopInterrupted {
      if Get(h.subscribers, x) == [] {
        TameTrans(h, h2, TakePrompts(h2, x, false));
      } else if !Defers(h.byId[x]) {
        DecideTame(h2, x);
        TameTrans(h, h2, Decide(h2, x));
      }
    }
  }

  lemma TurnEndTame(h: Hub, x: Id)
    ensures Tame(h, TurnEnd(h, x))
  {
    OnTurnEndTame(h, x);
    FlushTame(OnTurnEnd(h, x), x);
    TameTrans(h, OnTurnEnd(h, x), TurnEnd(h, x));
  }

  lemma SettleTame(h: Hub, x: Id)
    ensures Tame(h, FireSettle(h, x))
  {
    var h1 := h.(settles := h.settles - {x});
    PlainTame(h, h1);
    if SettleHolds(h, x) {
      DecideTame(h1, x);
      TameTrans(h, h1, Decide(h1, x));
    }
  }

  lemma RotatedTame(h: Hub, x: Id, up: bool)
    ensures Tame(h, RotationComplete(h, x, up))
  {
    PlainTame(h, h);
    if up && x in h.byId {
      DecideTame(h, x);
    } else if up {
      ConsumeTame(h, x);
    }
  }

  lemma ExitTame(h: Hub, t: Id)
    ensures Tame(h, TargetExit(h, t))
  {
    var callers := Get(h.subscribers, t);
    var h1 := TakePrompts(h, t, callers != []);
    TakeTame(h, t, callers != []);
    ExitAllTame(h1, t, callers, Wake(t, false, true, false, false, Get(h.prompts, t)));
    TameTrans(h, h1, TargetExit(h, t));
  }

  lemma DisarmTame(h: Hub, t: Id, c: Id)
    ensures Tame(h, DisarmSilently(h, t, c))
  {
    PlainTame(h, h);
    if IsArmed(h, t, c) {
      var h1 := DropArmed(h, t, c, Disarmed);
      DropTame(h, t, c, Disarmed);
      ReleaseTame(h1, c);
      TameTrans(h, h1, ReleaseHeld(h1, c));
    }
  }

  lemma BeatTame(h: Hub, t: Id, c: Id)
    ensures Tame(h, Heartbeat(h, t, c))
  {
    PlainTame(h, h);
    if IsArmed(h, t, c) {
      var h1 := if Gone(h, t) then DropArmed(h, t, c, Retired) else h;
      DropTame(h, t, c, Retired);
      DeliverTame(h1, c, Wake(t, true, false, false, false, []));
      TameTrans(h, h1, Heartbeat(h, t, c));
    }
  }

  lemma SendDoneTame(h: Hub, c: Id)
    ensures Tame(h, EndInFlight(h, c))
  {
    var h1 := OneLanded(h, c);
    PlainTame(h, h1);
    ReleaseTame(h1, c);
    TameTrans(h, h1, ReleaseHeld(h1, c));
  }

  lemma PurgeTame(h: Hub, x: Id, release: bool, removing: set<Id>)
    requires forall w :: w in Get(h.subscribers, x) ==> w !in removing
    ensures Tame(h, Purge(h, x, release, removing))
  {
    EraseTame(h, x);
    ReleaseAllTame(Erase(h, x), Get(h.subscribers, x), release, removing);
    TameTrans(h, Erase(h, x), Purge(h, x, release, removing));
  }

  lemma RearmTame(h: Hub, t: Id, c: Id)
    requires t in h.subscribers
    ensures Tame(h, Rearm(h, t, c))
  {
    PlainTame(h, Rearm(h, t, c));
  }

  lemma ArmTame(h: Hub, t: Id, c: Id)
    ensures Tame(h, Arm(h, t, c))
  {
    PlainTame(h, Arm(h, t, c));
  }

  lemma DispatchTame(h: Hub, c: Id, t: Id)
    requires c in h.byId && t in h.byId && c != t
    ensures Tame(h, NoteDispatch(h, c, t)) && Tame(h, SetIdleTimeout(h, c, t))
  {
    var h1 := RecordOwner(h, t, c);
    PlainTame(h, h1);
    if IsArmed(h1, t, c) {
      RearmTame(h1, t, c);
      TameTrans(h, h1, Rearm(h1, t, c));
    } else if h.byId[t].status == Turn {
      ArmTame(h1, t, c);
      TameTrans(h, h1, Arm(h1, t, c));
    }
  }

  lemma TaskTame(h: Hub, x: Id)
    ensures Tame(h, TaskEvent(h, x))
  {
    TaskEventSame(h, x);
    PlainTame(h, TaskEvent(h, x));
  }

  predicate ChangesFacts(s: Step) {
    s.Facts? || s.Start? || s.Echo? || s.Suspend? || s.Resume?
  }

  lemma StepTame(h: Hub, s: Step)
    requires !ChangesFacts(s)
    requires s.Removal? ==> forall w :: w in Get(h.subscribers, s.x) ==> w !in s.removing
    ensures Tame(h, Next(h, s))
  {
    match s
    case Disarm(t, c) => DisarmTame(h, t, c);
    case Beat(t, c) => BeatTame(h, t, c);
    case SendDone(x) => SendDoneTame(h, x);
    case Removal(x, release, removing) => PurgeTame(h, x, release, removing);
    case Ask(x) => PlainTame(h, AskUser(h, x));
    case Task(x) => TaskTame(h, x);
    case _ => if s.Dispatch? || s.Timeout? { DispatchStepTame(h, s); } else { TurnStepTame(h, s); }
  }

  lemma TurnStepTame(h: Hub, s: Step)
    requires s.End? || s.SteerSettled? || s.SettleFires? || s.Rotated? || s.Exit?
    ensures Tame(h, Next(h, s))
  {
    match s
    case End(x) => TurnEndTame(h, x);
    case SteerSettled(x) => FlushTame(h, x);
    case SettleFires(x) => SettleTame(h, x);
    case Rotated(x, up) => RotatedTame(h, x, up);
    case Exit(x) => ExitTame(h, x);
  }

  lemma DispatchStepTame(h: Hub, s: Step)
    requires s.Dispatch? || s.Timeout?
    ensures Tame(h, Next(h, s))
  {
    PlainTame(h, h);
    if s.caller in h.byId && s.target in h.byId && s.caller != s.target {
      DispatchTame(h, s.caller, s.target);
    }
  }

  // ---------------------------------------------------------------------------------------------
  // Human prompts
  // ---------------------------------------------------------------------------------------------

  lemma ArmAllPrompts(h: Hub, t: Id, callers: seq<Id>)
    ensures var h' := ArmAll(h, t, callers);
            h'.prompts == h.prompts && h'.history.echoed == h.history.echoed && h'.history.batches == h.history.batches
    decreases |callers|
  {
    if callers != [] {
      ArmAllPrompts(Arm(h, t, callers[0]), t, callers[1..]);
    }
  }

  lemma ReleaseOnePrompts(h: Hub, w: Id, release: bool, removing: set<Id>)
    requires Prompts(h)
    ensures Prompts(ReleaseOne(h, w, release, removing))
  {
    if w in removing {
      SkipPrompts(h, w);
    } else {
      ReleaseOneTame(h, w, release, removing);
    }
  }

  lemma ReleaseAllPrompts(h: Hub, waiters: seq<Id>, release: bool, removing: set<Id>)
    requires Prompts(h)
    ensures Prompts(ReleaseAll(h, waiters, release, removing))
    decreases |waiters|
  {
    if waiters != [] {
      ReleaseOnePrompts(h, waiters[0], release, removing);
      ReleaseAllPrompts(ReleaseOne(h, waiters[0], release, removing), waiters[1..], release, removing);
    }
  }

  lemma EchoPrompts(h: Hub, x: Id, text: string)
    requires Prompts(h)
    ensures Prompts(HumanEcho(h, x, text))
  {
    var h' := HumanEcho(h, x, text);
    forall t ensures PromptsKept(h', t) {
      assert PromptsKept(h, t);
      if t == x {
        var before := Texts(Get(h.history.batches, x));
        assert before + (Get(h.prompts, x) + [text]) == before + Get(h.prompts, x) + [text];
      }
    }
  }

  lemma FactsPrompts(h: Hub, x: Id, i: Option<Instance>)
    requires Prompts(h)
    ensures Prompts(SetFacts(h, x, i))
  {
    var h1 := WithFacts(h, x, i);
    SamePrompts(h, h1);
    SkipPrompts(h1, x);
  }

  lemma SkipPrompts(h: Hub, x: Id)
    requires Prompts(h)
    ensures Prompts(Skip(h, x))
  {
    SamePrompts(h, Skip(h, x));
  }

  lemma StartPrompts(h: Hub, x: Id)
    requires Prompts(h)
    ensures Prompts(TurnStart(h, x))
  {
    ArmAllPrompts(Unhold(h, x), x, OwnersOf(h, x));
    SamePrompts(h, TurnStart(h, x));
  }

  lemma PurgePrompts(h: Hub, x: Id, release: bool, removing: set<Id>)
    requires Prompts(h)
    ensures Prompts(Purge(h, x, release, removing))
  {
    EraseTame(h, x);
    ReleaseAllPrompts(Erase(h, x), Get(h.subscribers, x), release, removing);
  }

  lemma StepPrompts(h: Hub, s: Step)
    requires Prompts(h)
    ensures Prompts(Next(h, s))
  {
    match s
    case Facts(x, i) => FactsPrompts(h, x, i);
    case Start(x) => StartPrompts(h, x);
    case Echo(x, text) => EchoPrompts(h, x, text);
    case Suspend => SamePrompts(h, Next(h, s));
    case Resume => SamePrompts(h, Next(h, s));
    case Removal(x, release, removing) => PurgePrompts(h, x, release, removing);
    case _ => StepTame(h, s);
  }

  lemma {:induction false} PromptsHold(steps: seq<Step>)
    ensures Prompts(Run(steps))
    decreases |steps|
  {
    if steps != [] {
      var h := Run(steps[..|steps| - 1]);
      PromptsHold(steps[..|steps| - 1]);
      SamePrompts(h, Fresh(h));
      StepPrompts(Fresh(h), steps[|steps| - 1]);
    }
  }

  /**
   Every human prompt typed into a session is accounted for once, in order: taken by one report, dropped with
   nobody to tell, or still pending.
   */
  lemma {:induction false} HumanPromptsConserved(steps: seq<Step>, t: Id)
    ensures PromptsKept(Run(steps), t)
  {
    PromptsHold(steps);
  }
}
