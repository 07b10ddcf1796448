/**
 The delivery account of the idle-wake graph: every report an armed wake ends in is sent, is dropped with nobody to
 prompt, or waits behind its recipient's turn, once.
 */
module IdleGraphReports {
  import opened Text
  import opened IdleGraph
  import opened IdleGraphTheorems
  import opened IdleGraphLedger

  /** The reports of one kind that one target owes one caller. */
  datatype Line = Line(target: Id, caller: Id, why: Why)

  function Fits(w: Wake, q: Line): nat {
    if w.target == q.target && WhyOf(w) == q.why then 1 else 0
  }

  function Waiting(wakes: seq<Wake>, q: Line): nat {
    if wakes == [] then 0 else Fits(wakes[0], q) + Waiting(wakes[1..], q)
  }

  function Count(h: Hub, q: Line, sent: bool): nat {
    h.history.posts[Post(q.caller, q.target, q.why, sent)]
  }

  function Deferred(h: Hub, q: Line): nat {
    Waiting(Get(h.deferred, q.caller), q)
  }

  /** The wakes of a line handed to delivery, less the armed wakes of that line that ended. */
  function Excess(h: Hub, q: Line): int {
    Count(h, q, true) + Count(h, q, false) + Deferred(h, q) - h.history.ledger[Ended(q.target, q.caller, q.why)]
  }

  /** What one delivery adds to a line. */
  function Adds(c: Id, w: Wake, q: Line): nat {
    if c == q.caller then Fits(w, q) else 0
  }

  predicate Reports(q: Line) {
    q.why == Consumed || q.why == Exited
  }

  /** Nothing the account of a line reads changed. */
  predicate SameAccount(h: Hub, h': Hub, q: Line) {
    && h'.deferred == h.deferred && h'.history.posts == h.history.posts
    && h'.history.ledger[Ended(q.target, q.caller, q.why)] == h.history.ledger[Ended(q.target, q.caller, q.why)]
  }

  lemma Same(h: Hub, h': Hub, q: Line)
    requires SameAccount(h, h', q)
    ensures Excess(h', q) == Excess(h, q)
  {
  }

  lemma {:induction false} WaitingSnoc(wakes: seq<Wake>, w: Wake, q: Line)
    ensures Waiting(wakes + [w], q) == Waiting(wakes, q) + Fits(w, q)
  {
    if wakes != [] {
      WaitingSnoc(wakes[1..], w, q);
      assert (wakes + [w])[1..] == wakes[1..] + [w];
    }
  }

  lemma {:induction false} DropsCount(c: Id, wakes: seq<Wake>, q: Line)
    ensures DropsOf(c, wakes)[Post(q.caller, q.target, q.why, false)] == if c == q.caller then Waiting(wakes, q) else 0
    ensures DropsOf(c, wakes)[Post(q.caller, q.target, q.why, true)] == 0
  {
    if wakes != [] {
      DropsCount(c, wakes[1..], q);
    }
  }

  // ---------------------------------------------------------------------------------------------
  // Delivering
  // ---------------------------------------------------------------------------------------------

  lemma SkipSameAccount(h: Hub, x: Id, q: Line)
    ensures SameAccount(h, Skip(h, x), q)
  {
  }

  lemma DropWakeAdds(h: Hub, c: Id, w: Wake, q: Line)
    ensures Excess(DropWake(h, c, w), q) == Excess(h, q) + Adds(c, w, q)
  {
  }

  lemma InFlightAdds(h: Hub, c: Id, w: Wake, q: Line)
    ensures Excess(PutInFlight(h, c, w), q) == Excess(h, q) + Adds(c, w, q)
  {
  }

  lemma BehindTurnAdds(h: Hub, c: Id, w: Wake, q: Line)
    ensures Excess(HoldBehindTurn(h, c, w), q) == Excess(h, q) + Adds(c, w, q)
  {
    WaitingSnoc(Get(h.deferred, c), w, q);
    assert Get(HoldBehindTurn(h, c, w).deferred, c) == Get(h.deferred, c) + [w];
  }

  /** A delivery adds its wake to exactly one of the three places. */
  lemma DeliverAdds(h: Hub, c: Id, w: Wake, q: Line)
    ensures Excess(Deliver(h, c, w), q) == Excess(h, q) + Adds(c, w, q)
  {
    if !CanReceive(h, c) {
      DropWakeAdds(h, c, w, q);
      SkipSameAccount(DropWake(h, c, w), c, q);
      Same(DropWake(h, c, w), Deliver(h, c, w), q);
    } else if h.byId[c].status == Turn && !h.byId[c].steerable {
      BehindTurnAdds(h, c, w, q);
    } else {
      InFlightAdds(h, c, w, q);
    }
  }

  lemma LogTakes(h: Hub, e: Event, q: Line)
    ensures Excess(Log(h, e), q) == Excess(h, q) - if e == Ended(q.target, q.caller, q.why) then 1 else 0
  {
  }

  lemma {:induction false} DeliverAllKeeps(h: Hub, callers: seq<Id>, w: Wake, q: Line)
    requires WhyOf(w) == Consumed
    ensures Excess(DeliverAll(h, callers, w), q) == Excess(h, q)
    decreases |callers|
  {
    if callers != [] {
      var h1 := Log(h, Ended(w.target, callers[0], Consumed));
      LogTakes(h, Ended(w.target, callers[0], Consumed), q);
      DeliverAdds(h1, callers[0], w, q);
      DeliverAllKeeps(Deliver(h1, callers[0], w), callers[1..], w, q);
    }
  }

  lemma {:induction false} RedeliverAdds(h: Hub, c: Id, wakes: seq<Wake>, q: Line)
    ensures Excess(Redeliver(h, c, wakes), q) == Excess(h, q) + if c == q.caller then Waiting(wakes, q) else 0
    decreases |wakes|
  {
    if wakes != [] {
      var stale := wakes[0].target in h.byId && h.byId[wakes[0].target].status == Turn;
      var w := wakes[0].(stale := stale);
      DeliverAdds(h, c, w, q);
      RedeliverAdds(Deliver(h, c, w), c, wakes[1..], q);
    }
  }

  lemma UndeferTakes(h: Hub, c: Id, q: Line)
    ensures Excess(h.(deferred := h.deferred - {c}), q)
            == Excess(h, q) - if c == q.caller then Waiting(Get(h.deferred, c), q) else 0
  {
  }

  lemma DropDeferredKeeps(h: Hub, c: Id, q: Line)
    ensures Excess(DropDeferred(h, c), q) == Excess(h, q)
  {
    DropsCount(c, Get(h.deferred, c), q);
    UndeferTakes(h, c, q);
  }

  lemma FlushKeeps(h: Hub, c: Id, q: Line)
    ensures Excess(Flush(h, c), q) == Excess(h, q)
  {
    if c in h.deferred {
      if c !in h.byId || h.byId[c].proc.None? {
        DropDeferredKeeps(h, c, q);
        SkipSameAccount(DropDeferred(h, c), c, q);
        Same(DropDeferred(h, c), Skip(DropDeferred(h, c), c), q);
      } else if !h.byId[c].steerPending {
        UndeferTakes(h, c, q);
        RedeliverAdds(h.(deferred := h.deferred - {c}), c, h.deferred[c], q);
      }
    }
  }

  // ---------------------------------------------------------------------------------------------
  // Deciding
  // ---------------------------------------------------------------------------------------------

  lemma ConsumeKeeps(h: Hub, t: Id, q: Line)
    ensures Excess(Consume(h, t), q) == Excess(h, q)
  {
    var callers := Get(h.subscribers, t);
    if callers != [] {
      var h0 := Unhold(h.(subscribers := h.subscribers - {t}, settles := h.settles - {t}), t);
      Same(h, h0, q);
      Same(h0, TakePrompts(h0, t, true), q);
      DeliverAllKeeps(TakePrompts(h0, t, true), callers, ReportOf(h, t), q);
    }
  }

  lemma DecideKeeps(h: Hub, x: Id, q: Line)
    requires x in h.byId
    ensures Excess(Decide(h, x), q) == Excess(h, q)
  {
    if HoldsNow(h, x) {
      MarkKeeps(h, x, q);
    } else {
      ConsumeKeeps(h, x, q);
    }
  }

  lemma ReleaseKeeps(h: Hub, x: Id, q: Line)
    ensures Excess(ReleaseHeld(h, x), q) == Excess(h, q)
  {
    if x in h.holding {
      if !CanReceive(h, x) {
        SkipSameAccount(h, x, q);
        Same(h, Skip(h, x), q);
      } else if !(h.byId[x].status != Idle || Get(h.subscribers, x) == [] || Defers(h.byId[x])) {
        DecideKeeps(h, x, q);
      }
    }
  }

  lemma MarkKeeps(h: Hub, x: Id, q: Line)
    ensures Excess(MarkHeld(h, x), q) == Excess(h, q) && Excess(Unhold(h, x), q) == Excess(h, q)
  {
    Same(h, MarkHeld(h, x), q);
    Same(h, Unhold(h, x), q);
  }

  lemma RedecideKeeps(h: Hub, x: Id, q: Line)
    ensures Excess(RedecideHold(h, x), q) == Excess(h, q)
  {
    MarkKeeps(h, x, q);
  }

  lemma ReleaseOneKeeps(h: Hub, w: Id, release: bool, removing: set<Id>, q: Line)
    ensures Excess(ReleaseOne(h, w, release, removing), q) == Excess(h, q)
  {
    if w in removing {
      SkipSameAccount(h, w, q);
      Same(h, Skip(h, w), q);
    } else if release {
      ReleaseKeeps(h, w, q);
    } else {
      RedecideKeeps(h, w, q);
    }
  }

  lemma {:induction false} ReleaseAllKeeps(h: Hub, waiters: seq<Id>, release: bool, removing: set<Id>, q: Line)
    ensures Excess(ReleaseAll(h, waiters, release, removing), q) == Excess(h, q)
    decreases |waiters|
  {
    if waiters != [] {
      ReleaseOneKeeps(h, waiters[0], release, removing, q);
      ReleaseAllKeeps(ReleaseOne(h, waiters[0], release, removing), waiters[1..], release, removing, q);
    }
  }

  lemma EraseKeeps(h: Hub, x: Id, q: Line)
    requires Reports(q) && Distinct(Get(h.subscribers, x))
    ensures Excess(Erase(h, x), q) == Excess(h, q)
  {
    Same(h, TakePrompts(h, x, false), q);
    DropDeferredKeeps(TakePrompts(h, x, false), x, q);
    EraseSame(h, x, q);
    Same(DropDeferred(TakePrompts(h, x, false), x), Erase(h, x), q);
  }

  lemma EraseSame(h: Hub, x: Id, q: Line)
    requires Reports(q) && Distinct(Get(h.subscribers, x))
    ensures SameAccount(DropDeferred(TakePrompts(h, x, false), x), Erase(h, x), q)
  {
    ErasedLedger(h, x, Ended(q.target, q.caller, q.why));
    ErasedMail(h, x);
  }

  lemma ErasedMail(h: Hub, x: Id)
    ensures var h1 := DropDeferred(TakePrompts(h, x, false), x);
            && Erase(h, x).deferred == h1.deferred && Erase(h, x).history.posts == h1.history.posts
            && h1.history.ledger == h.history.ledger
  {
  }

  // ---------------------------------------------------------------------------------------------
  // Steps
  // ---------------------------------------------------------------------------------------------

  lemma {:induction false} ArmAllSame(h: Hub, t: Id, callers: seq<Id>, q: Line)
    ensures SameAccount(h, ArmAll(h, t, callers), q)
    decreases |callers|
  {
    if callers != [] {
      ArmAllSame(Arm(h, t, callers[0]), t, callers[1..], q);
    }
  }

  lemma DropOtherSame(h: Hub, t: Id, c: Id, why: Why, q: Line)
    requires why != q.why
    ensures SameAccount(h, DropArmed(h, t, c, why), q)
  {
  }

  lemma DropExitedTakes(h: Hub, t: Id, c: Id, q: Line)
    requires IsArmed(h, t, c)
    ensures Excess(DropArmed(h, t, c, Exited), q) == Excess(h, q) - if q == Line(t, c, Exited) then 1 else 0
  {
    var h1 := h.(subscribers := DropEdge(h.subscribers, t, c));
    Same(h, h1, q);
    LogTakes(h1, Ended(t, c, Exited), q);
    var h2 := Log(h1, Ended(t, c, Exited));
    Same(h2, DropArmed(h, t, c, Exited), q);
  }

  lemma DropLeavesOthers(h: Hub, t: Id, c: Id, why: Why, d: Id)
    requires IsArmed(h, t, d) && d != c
    ensures IsArmed(DropArmed(h, t, c, why), t, d)
  {
    if IsArmed(h, t, c) {
      assert d in Remove(h.subscribers[t], c);
    }
  }

  lemma {:induction false} ExitAllKeeps(h: Hub, t: Id, callers: seq<Id>, w: Wake, q: Line)
    requires Distinct(callers) && WhyOf(w) == Exited && w.target == t && forall c :: c in callers ==> IsArmed(h, t, c)
    ensures Excess(ExitAll(h, t, callers, w), q) == Excess(h, q)
    decreases |callers|
  {
    if callers != [] {
      var h1 := DropArmed(h, t, callers[0], Exited);
      var h2 := Deliver(h1, callers[0], w);
      DropExitedTakes(h, t, callers[0], q);
      DeliverAdds(h1, callers[0], w, q);
      forall c | c in callers[1..] ensures IsArmed(h2, t, c) {
        DropLeavesOthers(h, t, callers[0], Exited, c);
        DeliverKeepsGraph(h1, callers[0], w);
      }
      ExitAllKeeps(h2, t, callers[1..], w, q);
    }
  }

  lemma ExitKeeps(h: Hub, t: Id, q: Line)
    requires Books(h)
    ensures Excess(TargetExit(h, t), q) == Excess(h, q)
  {
    var callers := Get(h.subscribers, t);
    var h1 := TakePrompts(h, t, callers != []);
    TakeSameBooks(h, t, callers != []);
    Same(h, h1, q);
    assert Distinct(callers);
    ExitAllKeeps(h1, t, callers, Wake(t, false, true, false, false, Get(h.prompts, t)), q);
  }

  lemma OnTurnEndKeeps(h: Hub, x: Id, q: Line)
    ensures Excess(OnTurnEnd(h, x), q) == Excess(h, q)
  {
    var h1 := h.(settles := h.settles - {x});
    TakeSame(h, x, q);
    Same(h, h1, q);
    TakeSame(h1, x, q);
    if x in h.byId && !h.byId[x].stopInterrupted && Get(h.subscribers, x) != [] && !Defers(h.byId[x]) {
      DecideKeeps(h1, x, q);
    }
  }

  lemma TakeSame(h: Hub, x: Id, q: Line)
    ensures Excess(TakePrompts(h, x, false), q) == Excess(h, q)
  {
    Same(h, TakePrompts(h, x, false), q);
  }

  lemma SettleKeeps(h: Hub, x: Id, q: Line)
    ensures Excess(FireSettle(h, x), q) == Excess(h, q)
  {
    var h1 := h.(settles := h.settles - {x});
    Same(h, h1, q);
    if SettleHolds(h, x) {
      DecideKeeps(h1, x, q);
    }
  }

  lemma BeatKeeps(h: Hub, t: Id, c: Id, q: Line)
    requires Reports(q)
    ensures Excess(Heartbeat(h, t, c), q) == Excess(h, q)
  {
    if IsArmed(h, t, c) {
      var h1 := if Gone(h, t) then DropArmed(h, t, c, Retired) else h;
      DropOtherSame(h, t, c, Retired, q);
      Same(h, h1, q);
      DeliverAdds(h1, c, Wake(t, true, false, false, false, []), q);
    }
  }

  lemma DisarmKeeps(h: Hub, t: Id, c: Id, q: Line)
    requires Reports(q)
    ensures Excess(DisarmSilently(h, t, c), q) == Excess(h, q)
  {
    if IsArmed(h, t, c) {
      DropOtherSame(h, t, c, Disarmed, q);
      Same(h, DropArmed(h, t, c, Disarmed), q);
      ReleaseKeeps(DropArmed(h, t, c, Disarmed), c, q);
    }
  }

  lemma DispatchSame(h: Hub, c: Id, t: Id, q: Line)
    requires c in h.byId && t in h.byId && c != t
    ensures SameAccount(h, NoteDispatch(h, c, t), q)
  {
    var h1 := RecordOwner(h, t, c);
    assert SameAccount(h, h1, q);
    ArmSame(h1, t, c, q);
    if IsArmed(h1, t, c) {
      assert SameAccount(h1, Rearm(h1, t, c), q);
    }
  }

  lemma ArmSame(h: Hub, t: Id, c: Id, q: Line)
    ensures SameAccount(h, Arm(h, t, c), q)
  {
  }

  lemma TimeoutSame(h: Hub, c: Id, t: Id, q: Line)
    requires c in h.byId && t in h.byId && c != t
    ensures SameAccount(h, SetIdleTimeout(h, c, t), q)
  {
  }

  lemma StartSame(h: Hub, x: Id, q: Line)
    ensures SameAccount(h, TurnStart(h, x), q)
  {
    ArmAllSame(Unhold(h, x), x, OwnersOf(h, x), q);
  }

  lemma FactsSame(h: Hub, x: Id, i: Option<Instance>, q: Line)
    ensures SameAccount(h, SetFacts(h, x, i), q)
  {
    SkipSameAccount(WithFacts(h, x, i), x, q);
  }

  lemma PlainStepSame(h: Hub, s: Step, q: Line)
    requires s.Echo? || s.Ask? || s.Task? || s.Suspend? || s.Resume?
    ensures SameAccount(h, Next(h, s), q)
  {
    if s.Task? {
      TaskEventSame(h, s.x);
    }
  }

  lemma EdgeStepSame(h: Hub, s: Step, q: Line)
    requires s.Facts? || s.Start? || s.Dispatch? || s.Timeout?
    ensures SameAccount(h, Next(h, s), q)
  {
    match s
    case Facts(x, i) => FactsSame(h, x, i, q);
    case Start(x) => StartSame(h, x, q);
    case Dispatch(c, t) => if c in h.byId && t in h.byId && c != t { DispatchSame(h, c, t, q); }
    case Timeout(c, t) => if c in h.byId && t in h.byId && c != t { TimeoutSame(h, c, t, q); }
  }

  lemma TurnStepKeeps(h: Hub, s: Step, q: Line)
    requires Books(h) && (s.End? || s.SteerSettled? || s.SettleFires? || s.Rotated? || s.Exit?)
    ensures Excess(Next(h, s), q) == Excess(h, q)
  {
    match s
    case End(x) => TurnEndKeeps(h, x, q);
    case SteerSettled(x) => FlushKeeps(h, x, q);
    case SettleFires(x) => SettleKeeps(h, x, q);
    case Rotated(x, up) => RotatedKeeps(h, x, up, q);
    case Exit(x) => ExitKeeps(h, x, q);
  }

  lemma TurnEndKeeps(h: Hub, x: Id, q: Line)
    ensures Excess(TurnEnd(h, x), q) == Excess(h, q)
  {
    OnTurnEndKeeps(h, x, q);
    FlushKeeps(OnTurnEnd(h, x), x, q);
  }

  lemma RotatedKeeps(h: Hub, x: Id, up: bool, q: Line)
    ensures Excess(RotationComplete(h, x, up), q) == Excess(h, q)
  {
    ConsumeKeeps(h, x, q);
    if x in h.byId {
      DecideKeeps(h, x, q);
    }
  }

  lemma StepKeeps(h: Hub, s: Step, q: Line)
    requires Books(h) && Reports(q)
    ensures Excess(Next(h, s), q) == Excess(h, q)
  {
    if s.Facts? || s.Start? || s.Dispatch? || s.Timeout? {
      EdgeStepSame(h, s, q);
      Same(h, Next(h, s), q);
    } else if s.Echo? || s.Ask? || s.Task? || s.Suspend? || s.Resume? {
      PlainStepSame(h, s, q);
      Same(h, Next(h, s), q);
    } else if s.Removal? {
      RemovalKeeps(h, s.x, s.release, s.removing, q);
    } else if s.Disarm? {
      DisarmKeeps(h, s.target, s.caller, q);
    } else if s.Beat? {
      BeatKeeps(h, s.target, s.caller, q);
    } else if s.SendDone? {
      SendDoneKeeps(h, s.x, q);
    } else {
      TurnStepKeeps(h, s, q);
    }
  }

  lemma SendDoneKeeps(h: Hub, x: Id, q: Line)
    ensures Excess(EndInFlight(h, x), q) == Excess(h, q)
  {
    Same(h, OneLanded(h, x), q);
    ReleaseKeeps(OneLanded(h, x), x, q);
  }

  lemma RemovalKeeps(h: Hub, x: Id, release: bool, removing: set<Id>, q: Line)
    requires Books(h) && Reports(q)
    ensures Excess(Purge(h, x, release, removing), q) == Excess(h, q)
  {
    assert Distinct(Get(h.subscribers, x));
    EraseKeeps(h, x, q);
    ReleaseAllKeeps(Erase(h, x), Get(h.subscribers, x), release, removing, q);
  }

  lemma {:induction false} NoExcess(steps: seq<Step>, q: Line)
    requires Reports(q)
    ensures Excess(Run(steps), q) == 0
    decreases |steps|
  {
    if steps != [] {
      var h := Run(steps[..|steps| - 1]);
      NoExcess(steps[..|steps| - 1], q);
      LedgerHolds(steps[..|steps| - 1]);
      Same(h, Fresh(h), q);
      SameBooksKeep(h, Fresh(h));
      StepKeeps(Fresh(h), steps[|steps| - 1], q);
    }
  }

  /**
   Every report is accounted for once: the armed wakes of a pair that ended in a turn's end, and those that ended in an
   exit, are the wakes of that kind sent, plus those dropped with nobody to prompt, plus those waiting behind the
   caller's turn.
   */
  lemma {:induction false} ReportsConserved(steps: seq<Step>, t: Id, c: Id, why: Why)
    requires why == Consumed || why == Exited
    ensures var h := Run(steps); var q := Line(t, c, why);
            h.history.ledger[Ended(t, c, why)] == Count(h, q, true) + Count(h, q, false) + Deferred(h, q)
  {
    NoExcess(steps, Line(t, c, why));
  }
}
