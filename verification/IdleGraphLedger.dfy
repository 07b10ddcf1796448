/** The accounts every run of the idle-wake graph balances: armed wakes, and human prompts. */
module IdleGraphLedger {
  import opened Text
  import opened IdleGraph
  import opened IdleGraphTheorems

  ghost predicate Distinct(s: seq<Id>) {
    forall i, j :: 0 <= i < j < |s| ==> s[i] != s[j]
  }

  function Ends(h: Hub, t: Id, c: Id): nat {
    var l := h.history.ledger;
    l[Ended(t, c, Consumed)] + l[Ended(t, c, Exited)] + l[Ended(t, c, Retired)]
    + l[Ended(t, c, Disarmed)] + l[Ended(t, c, Purged)]
  }

  /** Every successful arm of the pair has ended once, except the one that is armed now. */
  ghost predicate Balanced(h: Hub, t: Id, c: Id) {
    h.history.ledger[Armed(t, c)] == Ends(h, t, c) + (if IsArmed(h, t, c) then 1 else 0)
  }

  function Texts(bs: seq<Batch>): seq<string> {
    if bs == [] then [] else bs[0].texts + Texts(bs[1..])
  }

  /** The prompts typed into `t`, in order, are those already reported or dropped followed by those pending. */
  ghost predicate PromptsKept(h: Hub, t: Id) {
    Get(h.history.echoed, t) == Texts(Get(h.history.batches, t)) + Get(h.prompts, t)
  }

  ghost predicate Books(h: Hub) {
    && (forall t :: Distinct(Get(h.subscribers, t)))
    && (forall t, c :: Balanced(h, t, c))
  }

  ghost predicate Prompts(h: Hub) {
    forall t :: PromptsKept(h, t)
  }

  // --- sequences of callers ---

  lemma {:induction false} RemoveDistinct(s: seq<Id>, x: Id)
    requires Distinct(s)
    ensures Distinct(Remove(s, x))
  {
    if s != [] {
      var rest := s[1..];
      assert forall i, j :: 0 <= i < j < |rest| ==> rest[i] == s[i + 1] && rest[j] == s[j + 1];
      RemoveDistinct(rest, x);
      assert s[0] !in rest;
    }
  }

  lemma {:induction false} EndsOfCount(t: Id, callers: seq<Id>, why: Why, e: Event)
    requires Distinct(callers)
    ensures EndsOf(t, callers, why)[e] ==
            if e.Ended? && e.target == t && e.why == why && e.caller in callers then 1 else 0
  {
    if callers != [] {
      EndsOfCount(t, callers[1..], why, e);
    }
  }

  // --- armed wakes ---

  /** Nothing the wake ledger reads changed. */
  ghost predicate SameBooks(h: Hub, h': Hub) {
    h'.subscribers == h.subscribers && h'.history.ledger == h.history.ledger
  }

  lemma SameBooksKeep(h: Hub, h': Hub)
    requires Books(h) && SameBooks(h, h')
    ensures Books(h')
  {
    forall t, c ensures Balanced(h', t, c) {
      assert Balanced(h, t, c);
      assert Ends(h', t, c) == Ends(h, t, c);
    }
  }

  lemma DeliverSameBooks(h: Hub, c: Id, w: Wake)
    ensures SameBooks(h, Deliver(h, c, w))
  {
    DeliverKeepsGraph(h, c, w);
    if !CanReceive(h, c) {
      assert DropWake(h, c, w).history.ledger == h.history.ledger;
      SkipSameBooks(DropWake(h, c, w), c);
    }
  }

  lemma DeliverAllLedger(h: Hub, callers: seq<Id>, w: Wake)
    ensures DeliverAll(h, callers, w).subscribers == h.subscribers
    ensures DeliverAll(h, callers, w).history.ledger == h.history.ledger + EndsOf(w.target, callers, Consumed)
    decreases |callers|
  {
    if callers != [] {
      var h1 := Log(h, Ended(w.target, callers[0], Consumed));
      DeliverSameBooks(h1, callers[0], w);
      DeliverAllLedger(Deliver(h1, callers[0], w), callers[1..], w);
    }
  }

  lemma ArmBooks(h: Hub, t: Id, c: Id)
    requires Books(h)
    ensures Books(Arm(h, t, c))
  {
    if !IsArmed(h, t, c) {
      var h' := Arm(h, t, c);
      var s := Get(h.subscribers, t);
      assert Distinct(s);
      assert Distinct(s + [c]);
      forall u ensures Distinct(Get(h'.subscribers, u)) {
        assert Distinct(Get(h.subscribers, u));
      }
      forall u, d ensures Balanced(h', u, d) {
        assert Balanced(h, u, d);
        assert Ends(h', u, d) == Ends(h, u, d);
        assert h'.history.ledger[Armed(u, d)] == h.history.ledger[Armed(u, d)] + if u == t && d == c then 1 else 0;
      }
    }
  }

  lemma ArmAllBooks(h: Hub, t: Id, callers: seq<Id>)
    requires Books(h)
    ensures Books(ArmAll(h, t, callers))
    decreases |callers|
  {
    if callers != [] {
      ArmBooks(h, t, callers[0]);
      ArmAllBooks(Arm(h, t, callers[0]), t, callers[1..]);
    }
  }

  lemma RearmBooks(h: Hub, t: Id, c: Id)
    requires Books(h) && IsArmed(h, t, c)
    ensures Books(Rearm(h, t, c))
  {
    var h' := Rearm(h, t, c);
    assert Distinct(Get(h.subscribers, t));
    RemoveDistinct(h.subscribers[t], c);
    forall u ensures Distinct(Get(h'.subscribers, u)) {
      assert Distinct(Get(h.subscribers, u));
    }
    forall u, d ensures Balanced(h', u, d) {
      assert Balanced(h, u, d);
      assert IsArmed(h', u, d) == IsArmed(h, u, d);
      assert Ends(h', u, d) == Ends(h, u, d);
    }
  }

  /** `h'` is `h` with one armed pair ended. */
  lemma EndedBooks(h: Hub, h': Hub, t: Id, c: Id, why: Why)
    requires Books(h) && IsArmed(h, t, c)
    requires h'.subscribers == DropEdge(h.subscribers, t, c)
    requires h'.history.ledger == h.history.ledger + multiset{Ended(t, c, why)}
    ensures Books(h')
  {
    assert Distinct(Get(h.subscribers, t));
    RemoveDistinct(h.subscribers[t], c);
    forall u ensures Distinct(Get(h'.subscribers, u)) {
      assert Distinct(Get(h.subscribers, u));
    }
    forall u, d ensures Balanced(h', u, d) {
      assert Balanced(h, u, d);
      var rest := Remove(h.subscribers[t], c);
      assert d in rest <==> d in h.subscribers[t] && d != c;
      assert IsArmed(h', u, d) <==> IsArmed(h, u, d) && !(u == t && d == c);
      assert Ends(h', u, d) == Ends(h, u, d) + if u == t && d == c then 1 else 0;
    }
  }

  lemma DropBooks(h: Hub, t: Id, c: Id, why: Why)
    requires Books(h)
    ensures Books(DropArmed(h, t, c, why))
  {
    if IsArmed(h, t, c) {
      EndedBooks(h, DropArmed(h, t, c, why), t, c, why);
    }
  }

  lemma TakeSameBooks(h: Hub, t: Id, reported: bool)
    ensures SameBooks(h, TakePrompts(h, t, reported))
  {
  }

  lemma ConsumeBooks(h: Hub, t: Id)
    requires Books(h)
    ensures Books(Consume(h, t))
  {
    var callers := Get(h.subscribers, t);
    if callers != [] {
      var h0 := Unhold(h.(subscribers := h.subscribers - {t}, settles := h.settles - {t}), t);
      TakeSameBooks(h0, t, true);
      var h1 := TakePrompts(h0, t, true);
      DeliverAllLedger(h1, callers, ReportOf(h, t));
      var h' := Consume(h, t);
      assert h'.subscribers == h.subscribers - {t};
      assert h'.history.ledger == h.history.ledger + EndsOf(t, callers, Consumed);
      AllEndedBooks(h, h', t);
    }
  }

  lemma AllEndedBooks(h: Hub, h': Hub, t: Id)
    requires Books(h)
    requires h'.subscribers == h.subscribers - {t}
    requires h'.history.ledger == h.history.ledger + EndsOf(t, Get(h.subscribers, t), Consumed)
    ensures Books(h')
  {
    forall u ensures Distinct(Get(h'.subscribers, u)) {
      assert Distinct(Get(h.subscribers, u));
    }
    forall u, d ensures Balanced(h', u, d) {
      assert Balanced(h, u, d);
      assert Distinct(Get(h.subscribers, t));
      forall e ensures EndsOf(t, Get(h.subscribers, t), Consumed)[e] ==
                       if e.Ended? && e.target == t && e.why == Consumed && e.caller in Get(h.subscribers, t) then 1 else 0 {
        EndsOfCount(t, Get(h.subscribers, t), Consumed, e);
      }
      assert Ends(h', u, d) == Ends(h, u, d) + if u == t && IsArmed(h, t, d) then 1 else 0;
    }
  }

  lemma DecideBooks(h: Hub, x: Id)
    requires x in h.byId && Books(h)
    ensures Books(Decide(h, x))
  {
    if HoldsNow(h, x) {
      SameBooksKeep(h, MarkHeld(h, x));
    } else {
      ConsumeBooks(h, x);
    }
  }

  lemma SkipSameBooks(h: Hub, x: Id)
    ensures SameBooks(h, Skip(h, x))
  {
  }

  lemma ReleaseBooks(h: Hub, x: Id)
    requires Books(h)
    ensures Books(ReleaseHeld(h, x))
  {
    if x !in h.holding {
    } else if !CanReceive(h, x) {
      SkipSameBooks(h, x);
      SameBooksKeep(h, Skip(h, x));
    } else if h.byId[x].status != Idle || Get(h.subscribers, x) == [] || Defers(h.byId[x]) {
    } else {
      DecideBooks(h, x);
    }
  }

  lemma RedecideSameBooks(h: Hub, x: Id)
    ensures SameBooks(h, RedecideHold(h, x))
  {
    MarkSameBooks(h, x);
  }

  lemma MarkSameBooks(h: Hub, x: Id)
    ensures SameBooks(h, MarkHeld(h, x)) && SameBooks(h, Unhold(h, x))
  {
  }

  lemma ReleaseOneBooks(h: Hub, w: Id, release: bool, removing: set<Id>)
    requires Books(h)
    ensures Books(ReleaseOne(h, w, release, removing))
  {
    if w in removing {
      SkipSameBooks(h, w);
      SameBooksKeep(h, Skip(h, w));
    } else if release {
      ReleaseBooks(h, w);
    } else {
      RedecideSameBooks(h, w);
      SameBooksKeep(h, RedecideHold(h, w));
    }
  }

  lemma ReleaseAllBooks(h: Hub, waiters: seq<Id>, release: bool, removing: set<Id>)
    requires Books(h)
    ensures Books(ReleaseAll(h, waiters, release, removing))
    decreases |waiters|
  {
    if waiters != [] {
      ReleaseOneBooks(h, waiters[0], release, removing);
      ReleaseAllBooks(ReleaseOne(h, waiters[0], release, removing), waiters[1..], release, removing);
    }
  }

  lemma EraseBooks(h: Hub, x: Id)
    requires Books(h)
    ensures Books(Erase(h, x))
  {
    var h' := Erase(h, x);
    forall u ensures Distinct(Get(h'.subscribers, u)) {
      assert Distinct(Get(h.subscribers, u));
      if u in h'.subscribers {
        RemoveDistinct(h.subscribers[u], x);
      }
    }
    forall u, d ensures Balanced(h', u, d) {
      EraseBalanced(h, x, u, d);
    }
  }

  lemma ErasedLedger(h: Hub, x: Id, e: Event)
    requires Distinct(Get(h.subscribers, x))
    ensures Erase(h, x).history.ledger[e] == h.history.ledger[e]
            + if e.Ended? && e.why == Purged && (e.target == x || e.caller == x) && IsArmed(h, e.target, e.caller) then 1 else 0
  {
    EndsOfCount(x, Get(h.subscribers, x), Purged, e);
    var others := h.subscribers - {x};
    if e.Ended? && e.why == Purged {
      PurgedCount(h, x, e.target, e.caller);
    } else {
      assert CallerEvents(others, x)[e] == 0;
    }
  }

  lemma EraseBalanced(h: Hub, x: Id, u: Id, d: Id)
    requires Balanced(h, u, d) && Distinct(Get(h.subscribers, x))
    ensures Balanced(Erase(h, x), u, d)
  {
    ErasedLedger(h, x, Armed(u, d));
    ErasedLedger(h, x, Ended(u, d, Consumed));
    ErasedLedger(h, x, Ended(u, d, Exited));
    ErasedLedger(h, x, Ended(u, d, Retired));
    ErasedLedger(h, x, Ended(u, d, Disarmed));
    ErasedLedger(h, x, Ended(u, d, Purged));
    ErasedEdge(h.subscribers - {x}, x, u, d);
  }

  lemma PurgedCount(h: Hub, x: Id, u: Id, d: Id)
    ensures var others := h.subscribers - {x};
            CallerEvents(others, x)[Ended(u, d, Purged)] == if u != x && d == x && IsArmed(h, u, d) then 1 else 0
  {
    var others := h.subscribers - {x};
    var es := set t | t in others && x in others[t] :: Ended(t, x, Purged);
    assert Ended(u, d, Purged) in es <==> u in others && d == x && x in others[u];
  }

  lemma ErasedEdge(others: map<Id, seq<Id>>, x: Id, u: Id, d: Id)
    ensures d in Get(DropCaller(others, x), u) <==> d in Get(others, u) && d != x
  {
    if u in others {
      assert d in Remove(others[u], x) <==> d in others[u] && d != x;
    }
  }

  lemma ExitAllBooks(h: Hub, t: Id, callers: seq<Id>, w: Wake)
    requires Books(h)
    ensures Books(ExitAll(h, t, callers, w))
    decreases |callers|
  {
    if callers != [] {
      var h1 := DropArmed(h, t, callers[0], Exited);
      DropBooks(h, t, callers[0], Exited);
      DeliverSameBooks(h1, callers[0], w);
      SameBooksKeep(h1, Deliver(h1, callers[0], w));
      ExitAllBooks(Deliver(h1, callers[0], w), t, callers[1..], w);
    }
  }

  lemma RedeliverSameBooks(h: Hub, c: Id, wakes: seq<Wake>)
    ensures SameBooks(h, Redeliver(h, c, wakes))
    decreases |wakes|
  {
    if wakes != [] {
      var stale := wakes[0].target in h.byId && h.byId[wakes[0].target].status == Turn;
      var h1 := Deliver(h, c, wakes[0].(stale := stale));
      DeliverSameBooks(h, c, wakes[0].(stale := stale));
      RedeliverSameBooks(h1, c, wakes[1..]);
    }
  }

  lemma FlushSameBooks(h: Hub, c: Id)
    ensures SameBooks(h, Flush(h, c))
  {
    if c in h.deferred {
      var h1 := h.(deferred := h.deferred - {c});
      if c !in h.byId || h.byId[c].proc.None? {
        SkipSameBooks(DropDeferred(h, c), c);
      } else {
        RedeliverSameBooks(h1, c, h.deferred[c]);
      }
    }
  }

  lemma TurnEndBooks(h: Hub, x: Id)
    requires Books(h)
    ensures Books(TurnEnd(h, x))
  {
    OnTurnEndBooks(h, x);
    FlushSameBooks(OnTurnEnd(h, x), x);
    SameBooksKeep(OnTurnEnd(h, x), TurnEnd(h, x));
  }

  lemma OnTurnEndBooks(h: Hub, x: Id)
    requires Books(h)
    ensures Books(OnTurnEnd(h, x))
  {
    var h2 := h.(settles := h.settles - {x});
    SameBooksKeep(h, h2);
    if x in h.byId && !h.byId[x].stopInterrupted && Get(h.subscribers, x) != [] && !Defers(h.byId[x]) {
      DecideBooks(h2, x);
    } else {
      TakeSameBooks(h, x, false);
      TakeSameBooks(h2, x, false);
      SameBooksKeep(h, OnTurnEnd(h, x));
    }
  }

  lemma TurnStartBooks(h: Hub, x: Id)
    requires Books(h)
    ensures Books(TurnStart(h, x))
  {
    SameBooksKeep(h, Unhold(h, x));
    ArmAllBooks(Unhold(h, x), x, OwnersOf(h, x));
    SameBooksKeep(ArmAll(Unhold(h, x), x, OwnersOf(h, x)), TurnStart(h, x));
  }

  lemma DispatchBooks(h: Hub, c: Id, t: Id, timeoutOnly: bool)
    requires c in h.byId && t in h.byId && c != t && Books(h)
    ensures Books(if timeoutOnly then SetIdleTimeout(h, c, t) else NoteDispatch(h, c, t))
  {
    var h1 := RecordOwner(h, t, c);
    SameBooksKeep(h, h1);
    if IsArmed(h1, t, c) {
      RearmBooks(h1, t, c);
    } else {
      ArmBooks(h1, t, c);
    }
  }

  lemma BeatBooks(h: Hub, t: Id, c: Id)
    requires Books(h)
    ensures Books(Heartbeat(h, t, c))
  {
    if IsArmed(h, t, c) {
      var h1 := if Gone(h, t) then DropArmed(h, t, c, Retired) else h;
      DropBooks(h, t, c, Retired);
      DeliverSameBooks(h1, c, Wake(t, true, false, false, false, []));
      SameBooksKeep(h1, Heartbeat(h, t, c));
    }
  }

  lemma SendDoneBooks(h: Hub, c: Id)
    requires Books(h)
    ensures Books(EndInFlight(h, c))
  {
    var h1 := OneLanded(h, c);
    SameBooksKeep(h, h1);
    ReleaseBooks(h1, c);
  }

  lemma SettleBooks(h: Hub, x: Id)
    requires Books(h)
    ensures Books(FireSettle(h, x))
  {
    var h1 := h.(settles := h.settles - {x});
    SameBooksKeep(h, h1);
    if SettleHolds(h, x) {
      DecideBooks(h1, x);
    }
  }

  lemma ExitBooks(h: Hub, t: Id)
    requires Books(h)
    ensures Books(TargetExit(h, t))
  {
    var h1 := TakePrompts(h, t, Get(h.subscribers, t) != []);
    TakeSameBooks(h, t, Get(h.subscribers, t) != []);
    SameBooksKeep(h, h1);
    ExitAllBooks(h1, t, Get(h.subscribers, t), Wake(t, false, true, false, false, Get(h.prompts, t)));
  }

  lemma FactsSameBooks(h: Hub, x: Id, i: Option<Instance>)
    ensures SameBooks(h, SetFacts(h, x, i))
  {
  }

  lemma QuietStepBooks(h: Hub, s: Step)
    requires s.Echo? || s.Ask? || s.Task? || s.Suspend? || s.Resume?
    ensures SameBooks(h, Next(h, s))
  {
    if s.Task? {
      TaskEventSame(h, s.x);
    }
  }

  lemma StepBooks(h: Hub, s: Step)
    requires Books(h)
    ensures Books(Next(h, s))
  {
    match s
    case Facts(x, i) => FactsSameBooks(h, x, i); SameBooksKeep(h, Next(h, s));
    case Start(x) => TurnStartBooks(h, x);
    case SteerSettled(x) => FlushSameBooks(h, x); SameBooksKeep(h, Next(h, s));
    case Beat(t, c) => BeatBooks(h, t, c);
    case SendDone(x) => SendDoneBooks(h, x);
    case Removal(x, release, removing) =>
      EraseBooks(h, x); ReleaseAllBooks(Erase(h, x), Get(h.subscribers, x), release, removing);
    case _ =>
      if s.End? || s.SettleFires? || s.Rotated? || s.Exit? {
        TurnStepBooks(h, s);
      } else if s.Dispatch? || s.Timeout? || s.Disarm? {
        EdgeStepBooks(h, s);
      } else {
        QuietStepBooks(h, s);
        SameBooksKeep(h, Next(h, s));
      }
  }

  lemma TurnStepBooks(h: Hub, s: Step)
    requires (s.End? || s.SettleFires? || s.Rotated? || s.Exit?) && Books(h)
    ensures Books(Next(h, s))
  {
    match s
    case End(x) => TurnEndBooks(h, x);
    case SettleFires(x) => SettleBooks(h, x);
    case Rotated(x, up) =>
      if up && x in h.byId { DecideBooks(h, x); } else if up { ConsumeBooks(h, x); }
    case Exit(x) => ExitBooks(h, x);
  }

  lemma EdgeStepBooks(h: Hub, s: Step)
    requires (s.Dispatch? || s.Timeout? || s.Disarm?) && Books(h)
    ensures Books(Next(h, s))
  {
    match s
    case Dispatch(c, t) =>
      if c in h.byId && t in h.byId && c != t { DispatchBooks(h, c, t, false); }
    case Timeout(c, t) =>
      if c in h.byId && t in h.byId && c != t { DispatchBooks(h, c, t, true); }
    case Disarm(t, c) =>
      if IsArmed(h, t, c) { DropBooks(h, t, c, Disarmed); ReleaseBooks(DropArmed(h, t, c, Disarmed), c); }
  }

  /**
   The wake ledger of every run: for each caller/target pair, the successful arms are the deliveries that
   consumed one, plus the drops, plus one if the pair is armed now.
   */
  lemma {:induction false} WakeLedger(steps: seq<Step>, t: Id, c: Id)
    ensures Balanced(Run(steps), t, c)
  {
    LedgerHolds(steps);
  }

  lemma {:induction false} LedgerHolds(steps: seq<Step>)
    ensures Books(Run(steps))
    decreases |steps|
  {
    if steps == [] {
      forall t, c ensures Balanced(EMPTY, t, c) {
        assert !IsArmed(EMPTY, t, c);
      }
    } else {
      var h := Run(steps[..|steps| - 1]);
      LedgerHolds(steps[..|steps| - 1]);
      SameBooksKeep(h, Fresh(h));
      StepBooks(Fresh(h), steps[|steps| - 1]);
    }
  }

  /** Over any stretch of a run in which the pair is not armed anew, at most one of its wakes ends. */
  lemma {:induction false} OneWakePerArm(steps: seq<Step>, more: seq<Step>, t: Id, c: Id)
    requires Run(steps + more).history.ledger[Armed(t, c)] == Run(steps).history.ledger[Armed(t, c)]
    ensures Ends(Run(steps + more), t, c) <= Ends(Run(steps), t, c) + (if IsArmed(Run(steps), t, c) then 1 else 0)
  {
    WakeLedger(steps, t, c);
    WakeLedger(steps + more, t, c);
  }

  /** The heartbeat of a live target reports and ends nothing: every pair stays armed as it was. */
  lemma LiveHeartbeatKeeps(h: Hub, t: Id, c: Id)
    requires !Gone(h, t)
    ensures SameBooks(h, Heartbeat(h, t, c)) && Heartbeat(h, t, c).prompts == h.prompts
  {
    if IsArmed(h, t, c) {
      DeliverSameBooks(h, c, Wake(t, true, false, false, false, []));
      DeliverKeepsPrompts(h, c, Wake(t, true, false, false, false, []));
    }
  }

  lemma DeliverKeepsPrompts(h: Hub, c: Id, w: Wake)
    ensures Deliver(h, c, w).prompts == h.prompts
  {
    SkipKeepsPrompts(h, c);
    assert HoldBehindTurn(h, c, w).prompts == h.prompts;
    assert PutInFlight(h, c, w).prompts == h.prompts;
  }

  lemma SkipKeepsPrompts(h: Hub, x: Id)
    ensures Skip(h, x).prompts == h.prompts
  {
  }
}
