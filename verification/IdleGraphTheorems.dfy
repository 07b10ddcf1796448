/** One step of the idle-wake graph, read backwards: what group of held sessions it can leave waiting only on itself. */
module IdleGraphTheorems {
  import opened Text
  import opened IdleGraph

  predicate Owned(h: Hub, x: Id) {
    Get(h.subscribers, x) != []
  }

  // ---------------------------------------------------------------------------------------------
  // No stranded hold
  // ---------------------------------------------------------------------------------------------

  /**
   A set of held sessions that only wait on each other: quiet, owned, no wake on the way, no decision skipped in
   this step, and armed on nothing outside the set. Nothing would ever release them.
   */
  ghost predicate Stranded(h: Hub, C: set<Id>) {
    && C != {}
    && (forall s :: s in C ==> HeldQuiet(h, s) && Owned(h, s) && !HasWake(h, s) && s !in h.history.skipped)
    && (forall s, t :: s in C && IsArmed(h, t, s) ==> t in C)
  }

  lemma DeliverKeepsGraph(h: Hub, c: Id, w: Wake)
    ensures Deliver(h, c, w).byId == h.byId
    ensures Deliver(h, c, w).subscribers == h.subscribers
  {
    if !CanReceive(h, c) {
      DropSame(h, c, w);
    } else if h.byId[c].status == Turn && !h.byId[c].steerable {
      assert Deliver(h, c, w) == HoldBehindTurn(h, c, w);
    } else {
      assert Deliver(h, c, w) == PutInFlight(h, c, w);
    }
  }

  lemma SkipSame(h: Hub, x: Id)
    ensures Skip(h, x).byId == h.byId && Skip(h, x).subscribers == h.subscribers && Skip(h, x).holding == h.holding
    ensures Skip(h, x).deferred == h.deferred && Skip(h, x).inFlight == h.inFlight
    ensures h.history.skipped <= Skip(h, x).history.skipped
  {
  }

  /** A wake dropped on delivery leaves the graph alone. */
  lemma DropSame(h: Hub, c: Id, w: Wake)
    ensures var h' := Skip(DropWake(h, c, w), c);
            && h'.byId == h.byId && h'.subscribers == h.subscribers && h'.holding == h.holding
            && h'.deferred == h.deferred && h'.inFlight == h.inFlight && h.history.skipped <= h'.history.skipped
  {
    SkipSame(DropWake(h, c, w), c);
  }

  lemma DeliverKeepsHolds(h: Hub, c: Id, w: Wake)
    ensures Deliver(h, c, w).holding == h.holding
    ensures h.history.skipped <= Deliver(h, c, w).history.skipped
  {
    if !CanReceive(h, c) {
      DropSame(h, c, w);
    } else if h.byId[c].status == Turn && !h.byId[c].steerable {
      assert Deliver(h, c, w) == HoldBehindTurn(h, c, w);
    } else {
      assert Deliver(h, c, w) == PutInFlight(h, c, w);
    }
  }

  lemma DeliverAnswers(h: Hub, c: Id, w: Wake)
    ensures HeldQuiet(h, c) ==> HasWake(Deliver(h, c, w), c) || c in Deliver(h, c, w).history.skipped
  {
    if !CanReceive(h, c) {
      assert HeldQuiet(DropWake(h, c, w), c) == HeldQuiet(h, c);
    } else if h.byId[c].status == Turn && !h.byId[c].steerable {
    } else {
      assert c in PutInFlight(h, c, w).inFlight;
    }
  }

  lemma DeliverKeepsWakes(h: Hub, c: Id, w: Wake, s: Id)
    ensures HasWake(h, s) ==> HasWake(Deliver(h, c, w), s)
  {
    if !CanReceive(h, c) {
      DropSame(h, c, w);
    } else if h.byId[c].status == Turn && !h.byId[c].steerable {
      assert HasWake(h, s) ==> HasWake(HoldBehindTurn(h, c, w), s);
    } else {
      assert HasWake(h, s) ==> HasWake(PutInFlight(h, c, w), s);
    }
  }

  lemma DeliverBack(h: Hub, c: Id, w: Wake, C: set<Id>)
    requires Stranded(Deliver(h, c, w), C)
    ensures c !in C && Stranded(h, C)
  {
    DeliverKeepsGraph(h, c, w);
    DeliverKeepsHolds(h, c, w);
    DeliverAnswers(h, c, w);
    assert HeldQuiet(Deliver(h, c, w), c) == HeldQuiet(h, c);
    forall s ensures HasWake(h, s) ==> HasWake(Deliver(h, c, w), s) {
      DeliverKeepsWakes(h, c, w, s);
    }
    MoreWakesBack(h, Deliver(h, c, w), C);
  }

  lemma {:induction false} DeliverAllBack(h: Hub, callers: seq<Id>, w: Wake, C: set<Id>)
    requires Stranded(DeliverAll(h, callers, w), C)
    ensures Stranded(h, C) && forall c :: c in callers ==> c !in C
    decreases |callers|
  {
    if callers != [] {
      var h1 := Log(h, Ended(w.target, callers[0], Consumed));
      DeliverAllBack(Deliver(h1, callers[0], w), callers[1..], w, C);
      DeliverBack(h1, callers[0], w, C);
      assert Stranded(h, C) by { SameWaits(h, h1, C); }
    }
  }

  lemma MoreWakesBack(h: Hub, h': Hub, C: set<Id>)
    requires Stranded(h', C)
    requires h'.byId == h.byId && h'.subscribers == h.subscribers && h'.holding == h.holding
    requires h.history.skipped <= h'.history.skipped
    requires forall s :: HasWake(h, s) ==> HasWake(h', s)
    ensures Stranded(h, C)
  {
    assert forall s :: HeldQuiet(h', s) == HeldQuiet(h, s);
    assert forall s, t :: IsArmed(h', t, s) == IsArmed(h, t, s);
    assert forall s :: Owned(h', s) == Owned(h, s);
  }

  /** Only the fields a stranded set reads matter. */
  lemma SameWaits(h: Hub, h': Hub, C: set<Id>)
    requires Stranded(h', C)
    requires h.byId == h'.byId && h.subscribers == h'.subscribers && h.holding == h'.holding
    requires h.deferred == h'.deferred && h.inFlight == h'.inFlight && h.history.skipped == h'.history.skipped
    ensures Stranded(h, C)
  {
    MoreWakesBack(h, h', C);
  }

  lemma ConsumeBack(h: Hub, t: Id, C: set<Id>)
    requires Stranded(Consume(h, t), C)
    ensures Stranded(h, C) && t !in C
  {
    var callers := Get(h.subscribers, t);
    if callers == [] {
      assert !Owned(h, t);
    } else {
      var h0 := Unhold(h.(subscribers := h.subscribers - {t}, settles := h.settles - {t}), t);
      var h1 := TakePrompts(h0, t, true);
      DeliverAllBack(h1, callers, ReportOf(h, t), C);
      SameWaits(h0, h1, C);
      CutTargetBack(h, t, C);
    }
  }

  /** Clearing a target's whole entry is harmless to every set none of its callers is in. */
  lemma CutTargetBack(h: Hub, t: Id, C: set<Id>)
    requires Stranded(Unhold(h.(subscribers := h.subscribers - {t}, settles := h.settles - {t}), t), C)
    requires forall c :: c in Get(h.subscribers, t) ==> c !in C
    ensures Stranded(h, C) && t !in C
  {
    var h' := Unhold(h.(subscribers := h.subscribers - {t}, settles := h.settles - {t}), t);
    assert !HeldQuiet(h', t);
    forall s | s in C
      ensures HeldQuiet(h, s) && Owned(h, s) && !HasWake(h, s) && s !in h.history.skipped
    {
      assert HeldQuiet(h', s) && Owned(h', s) && !HasWake(h', s) && s !in h'.history.skipped;
    }
    forall s, u | s in C && IsArmed(h, u, s) ensures u in C {
      assert u != t;
      assert IsArmed(h', u, s);
    }
  }

  /** A session a true hold decision marks is on a chain to work, so it is in no stranded set. */
  lemma ChainStays(h: Hub, h': Hub, x: Id, p: seq<Id>, i: nat, C: set<Id>)
    requires Stranded(h', C) && h'.subscribers == h.subscribers
    requires WaitPath(h, x, p) && p[0] in C && i < |p|
    ensures p[i] in C
  {
    if i > 0 {
      ChainStays(h, h', x, p, i - 1, C);
      assert Hop(h, p, i);
      assert IsArmed(h', p[i], p[i - 1]);
    }
  }

  lemma WaitsNotStranded(h: Hub, x: Id, C: set<Id>)
    requires Waits(h, x) && x in C
    ensures !Stranded(MarkHeld(h, x), C)
  {
    var h' := MarkHeld(h, x);
    assert forall s :: HasWake(h', s) == HasWake(h, s);
    assert forall s, t :: IsArmed(h', t, s) == IsArmed(h, t, s);
    assert forall s :: s != x ==> HeldQuiet(h', s) == HeldQuiet(h, s);
    if Stranded(h', C) {
      var p :| WaitPath(h, x, p) && p[0] == x && HasWork(h, x, p[|p| - 1]);
      ChainStays(h, h', x, p, |p| - 1, C);
      assert false;
    }
  }

  lemma MarkHeldBack(h: Hub, x: Id, C: set<Id>)
    requires Waits(h, x) && Stranded(MarkHeld(h, x), C)
    ensures Stranded(h, C) && x !in C
  {
    var h' := MarkHeld(h, x);
    if x in C {
      WaitsNotStranded(h, x, C);
    }
    assert forall s :: s in C ==> HeldQuiet(h', s) ==> HeldQuiet(h, s);
    assert forall s, t :: IsArmed(h', t, s) == IsArmed(h, t, s);
    assert forall s :: HasWake(h', s) == HasWake(h, s);
    assert forall s :: Owned(h', s) == Owned(h, s);
  }

  lemma UnholdBack(h: Hub, x: Id, C: set<Id>)
    requires Stranded(Unhold(h, x), C)
    ensures Stranded(h, C) && x !in C
  {
    var h' := Unhold(h, x);
    assert !HeldQuiet(h', x);
    assert forall s :: HeldQuiet(h', s) ==> HeldQuiet(h, s);
    assert forall s, t :: IsArmed(h', t, s) == IsArmed(h, t, s);
    assert forall s :: HasWake(h', s) == HasWake(h, s);
    assert forall s :: Owned(h', s) == Owned(h, s);
  }

  lemma SkipBack(h: Hub, x: Id, C: set<Id>)
    requires Stranded(Skip(h, x), C)
    ensures Stranded(h, C) && x !in C
  {
    var h' := Skip(h, x);
    assert x in C ==> HeldQuiet(h', x) && x !in h'.history.skipped;
    assert HeldQuiet(h', x) == HeldQuiet(h, x);
    assert forall s :: HeldQuiet(h', s) ==> HeldQuiet(h, s);
    assert forall s, t :: IsArmed(h', t, s) == IsArmed(h, t, s);
    assert forall s :: HasWake(h', s) == HasWake(h, s);
    assert forall s :: Owned(h', s) == Owned(h, s);
  }

  lemma DecideBack(h: Hub, x: Id, C: set<Id>)
    requires x in h.byId && Stranded(Decide(h, x), C)
    ensures Stranded(h, C) && x !in C
  {
    if HoldsNow(h, x) {
      MarkHeldBack(h, x, C);
    } else {
      ConsumeBack(h, x, C);
    }
  }

  /** The release is a decision: whatever it does, the session it was called for ends in no stranded set. */
  lemma ReleaseBack(h: Hub, x: Id, C: set<Id>)
    requires Stranded(ReleaseHeld(h, x), C)
    ensures Stranded(h, C) && x !in C
  {
    if x !in h.holding {
      assert !HeldQuiet(h, x);
    } else if !CanReceive(h, x) {
      SkipBack(h, x, C);
    } else if h.byId[x].status != Idle || Get(h.subscribers, x) == [] || Defers(h.byId[x]) {
      assert !(HeldQuiet(h, x) && Owned(h, x));
    } else {
      DecideBack(h, x, C);
    }
  }

  lemma RedecideBack(h: Hub, x: Id, C: set<Id>)
    requires Stranded(RedecideHold(h, x), C)
    ensures Stranded(h, C) && x !in C
  {
    if x !in h.holding {
      assert !HeldQuiet(h, x);
    } else if x in h.byId && HoldsNow(h, x) {
      MarkHeldBack(h, x, C);
    } else {
      UnholdBack(h, x, C);
    }
  }

  lemma ReleaseOneBack(h: Hub, w: Id, release: bool, removing: set<Id>, C: set<Id>)
    requires Stranded(ReleaseOne(h, w, release, removing), C)
    ensures Stranded(h, C) && w !in C
  {
    if w in removing {
      SkipBack(h, w, C);
    } else if release {
      ReleaseBack(h, w, C);
    } else {
      RedecideBack(h, w, C);
    }
  }

  lemma {:induction false} ReleaseAllBack(h: Hub, waiters: seq<Id>, release: bool, removing: set<Id>, C: set<Id>)
    requires Stranded(ReleaseAll(h, waiters, release, removing), C)
    ensures Stranded(h, C) && forall w :: w in waiters ==> w !in C
    decreases |waiters|
  {
    if waiters != [] {
      ReleaseAllBack(ReleaseOne(h, waiters[0], release, removing), waiters[1..], release, removing, C);
      ReleaseOneBack(h, waiters[0], release, removing, C);
    }
  }

  lemma EraseBack(h: Hub, x: Id, C: set<Id>)
    requires Stranded(Erase(h, x), C)
    requires forall w :: w in Get(h.subscribers, x) ==> w !in C
    ensures Stranded(h, C)
  {
    var h' := Erase(h, x);
    var others := h.subscribers - {x};
    forall s | s in C
      ensures s != x && HeldQuiet(h, s) && Owned(h, s) && !HasWake(h, s) && s !in h.history.skipped
    {
      assert HeldQuiet(h', s) && Owned(h', s) && !HasWake(h', s) && s !in h'.history.skipped;
      assert s in h'.subscribers && s in others;
    }
    forall s, t | s in C && IsArmed(h, t, s) ensures t in C {
      assert t != x;
      assert s in others[t] && s in Remove(others[t], x);
      assert IsArmed(h', t, s);
    }
  }

  lemma PurgeBack(h: Hub, x: Id, release: bool, removing: set<Id>, C: set<Id>)
    requires Stranded(Purge(h, x, release, removing), C)
    ensures Stranded(h, C)
  {
    ReleaseAllBack(Erase(h, x), Get(h.subscribers, x), release, removing, C);
    EraseBack(h, x, C);
  }

  lemma SetFactsBack(h: Hub, x: Id, i: Option<Instance>, C: set<Id>)
    requires Stranded(SetFacts(h, x, i), C)
    ensures Stranded(h, C)
  {
    var h1 := WithFacts(h, x, i);
    if !Quiet(h, x) && Quiet(h1, x) {
      SkipBack(h1, x, C);
    }
    assert forall s :: s != x ==> HeldQuiet(h1, s) == HeldQuiet(h, s);
    assert forall s, t :: IsArmed(h1, t, s) == IsArmed(h, t, s);
    assert forall s :: HasWake(h1, s) == HasWake(h, s);
    assert forall s :: Owned(h1, s) == Owned(h, s);
    assert forall s :: s in C ==> HeldQuiet(h1, s);
  }

  lemma ArmKeepsHolds(h: Hub, t: Id, c: Id)
    ensures var h' := Arm(h, t, c);
            && h'.byId == h.byId && h'.holding == h.holding && h'.history.skipped == h.history.skipped
            && h'.deferred == h.deferred && h'.inFlight == h.inFlight
  {
  }

  lemma ArmAddsEdge(h: Hub, t: Id, c: Id, u: Id)
    ensures forall s :: IsArmed(h, u, s) ==> IsArmed(Arm(h, t, c), u, s)
    ensures u != t ==> Get(Arm(h, t, c).subscribers, u) == Get(h.subscribers, u)
  {
  }

  lemma ArmBack(h: Hub, t: Id, c: Id, C: set<Id>)
    requires !HeldQuiet(h, t) && Stranded(Arm(h, t, c), C)
    ensures Stranded(h, C)
  {
    var h' := Arm(h, t, c);
    ArmKeepsHolds(h, t, c);
    forall u, s | IsArmed(h, u, s) ensures IsArmed(h', u, s) {
      ArmAddsEdge(h, t, c, u);
    }
    forall u | u != t ensures Get(h'.subscribers, u) == Get(h.subscribers, u) {
      ArmAddsEdge(h, t, c, u);
    }
    FewerEdgesBack(h, h', t, C);
  }

  /** New edges onto a session that is not quietly held cannot free, or strand, anything. */
  lemma FewerEdgesBack(h: Hub, h': Hub, t: Id, C: set<Id>)
    requires !HeldQuiet(h, t) && Stranded(h', C)
    requires h'.byId == h.byId && h'.holding == h.holding && h'.history.skipped == h.history.skipped
    requires h'.deferred == h.deferred && h'.inFlight == h.inFlight
    requires forall u, s :: IsArmed(h, u, s) ==> IsArmed(h', u, s)
    requires forall u :: u != t ==> Get(h'.subscribers, u) == Get(h.subscribers, u)
    ensures Stranded(h, C)
  {
    assert forall s :: HeldQuiet(h', s) == HeldQuiet(h, s);
    assert forall s :: HasWake(h', s) == HasWake(h, s);
    assert forall s :: s != t ==> Owned(h', s) == Owned(h, s);
  }

  lemma {:induction false} ArmAllBack(h: Hub, t: Id, callers: seq<Id>, C: set<Id>)
    requires !HeldQuiet(h, t) && Stranded(ArmAll(h, t, callers), C)
    ensures Stranded(h, C)
    decreases |callers|
  {
    if callers != [] {
      var h1 := Arm(h, t, callers[0]);
      assert HeldQuiet(h1, t) == HeldQuiet(h, t);
      ArmAllBack(h1, t, callers[1..], C);
      ArmBack(h, t, callers[0], C);
    }
  }

  lemma RearmBack(h: Hub, t: Id, c: Id, C: set<Id>)
    requires IsArmed(h, t, c) && Stranded(Rearm(h, t, c), C)
    ensures Stranded(h, C)
  {
    var h' := Rearm(h, t, c);
    assert forall s :: HeldQuiet(h', s) == HeldQuiet(h, s);
    assert forall s, u :: IsArmed(h', u, s) == IsArmed(h, u, s);
    assert forall s :: HasWake(h', s) == HasWake(h, s);
    assert forall s :: Owned(h', s) == Owned(h, s);
  }

  /** Dropping an edge is harmless to every set its caller is not in. */
  lemma DropKeepsWakes(h: Hub, t: Id, c: Id, why: Why)
    ensures DropArmed(h, t, c, why).byId == h.byId
    ensures DropArmed(h, t, c, why).deferred == h.deferred
    ensures DropArmed(h, t, c, why).inFlight == h.inFlight
  {
  }

  lemma DropKeepsHolds(h: Hub, t: Id, c: Id, why: Why)
    ensures var h' := DropArmed(h, t, c, why);
            h'.holding <= h.holding && h.history.skipped * h'.holding <= h'.history.skipped
  {
  }

  lemma DropEdgeMembers(m: map<Id, seq<Id>>, t: Id, c: Id, u: Id, s: Id)
    requires t in m
    ensures s in Get(DropEdge(m, t, c), u) <==> s in Get(m, u) && !(u == t && s == c)
  {
    var rest := Remove(m[t], c);
    assert s in rest <==> s in m[t] && s != c;
  }

  lemma DropLosesEdge(h: Hub, t: Id, c: Id, why: Why, u: Id, s: Id)
    requires IsArmed(h, t, c)
    ensures IsArmed(DropArmed(h, t, c, why), u, s) <==> IsArmed(h, u, s) && !(u == t && s == c)
  {
    assert DropArmed(h, t, c, why).subscribers == DropEdge(h.subscribers, t, c);
    DropEdgeMembers(h.subscribers, t, c, u, s);
  }

  lemma DropBack(h: Hub, t: Id, c: Id, why: Why, C: set<Id>)
    requires Stranded(DropArmed(h, t, c, why), C) && c !in C
    ensures Stranded(h, C)
  {
    if IsArmed(h, t, c) {
      var h' := DropArmed(h, t, c, why);
      DropKeepsWakes(h, t, c, why);
      DropKeepsHolds(h, t, c, why);
      forall u, s ensures IsArmed(h', u, s) <==> IsArmed(h, u, s) && !(u == t && s == c) {
        DropLosesEdge(h, t, c, why, u, s);
      }
      OtherEdgesBack(h, h', t, c, C);
    }
  }

  lemma OtherEdgesBack(h: Hub, h': Hub, t: Id, c: Id, C: set<Id>)
    requires Stranded(h', C) && c !in C
    requires h'.byId == h.byId && h'.deferred == h.deferred && h'.inFlight == h.inFlight
    requires h'.holding <= h.holding && h.history.skipped * h'.holding <= h'.history.skipped
    requires forall u, s :: IsArmed(h', u, s) <==> IsArmed(h, u, s) && !(u == t && s == c)
    ensures Stranded(h, C)
  {
    forall s | s in C
      ensures HeldQuiet(h, s) && Owned(h, s) && !HasWake(h, s) && s !in h.history.skipped
    {
      assert HeldQuiet(h', s) && Owned(h', s) && !HasWake(h', s) && s !in h'.history.skipped;
      assert IsArmed(h', s, Get(h'.subscribers, s)[0]);
    }
  }

  lemma {:induction false} ExitAllBack(h: Hub, t: Id, callers: seq<Id>, w: Wake, C: set<Id>)
    requires Stranded(ExitAll(h, t, callers, w), C)
    ensures Stranded(h, C)
    decreases |callers|
  {
    if callers != [] {
      var h1 := DropArmed(h, t, callers[0], Exited);
      ExitAllBack(Deliver(h1, callers[0], w), t, callers[1..], w, C);
      DeliverBack(h1, callers[0], w, C);
      DropBack(h, t, callers[0], Exited, C);
    }
  }

  lemma {:induction false} RedeliverBack(h: Hub, c: Id, wakes: seq<Wake>, C: set<Id>)
    requires Stranded(Redeliver(h, c, wakes), C)
    ensures Stranded(h, C) && (wakes != [] ==> c !in C)
    decreases |wakes|
  {
    if wakes != [] {
      var stale := wakes[0].target in h.byId && h.byId[wakes[0].target].status == Turn;
      var w := wakes[0].(stale := stale);
      RedeliverBack(Deliver(h, c, w), c, wakes[1..], C);
      DeliverBack(h, c, w, C);
    }
  }

  /** A wake taken out of a queue is harmless to every set its recipient is not in. */
  lemma UndeferBack(h: Hub, h': Hub, c: Id, C: set<Id>)
    requires Stranded(h', C) && (c !in C || Get(h.deferred, c) == [])
    requires h'.byId == h.byId && h'.subscribers == h.subscribers && h'.holding == h.holding
    requires h'.deferred == h.deferred - {c} && h'.inFlight == h.inFlight && h'.history.skipped == h.history.skipped
    ensures Stranded(h, C)
  {
    assert forall s :: HeldQuiet(h', s) == HeldQuiet(h, s);
    assert forall s, t :: IsArmed(h', t, s) == IsArmed(h, t, s);
    assert forall s :: s in C ==> HasWake(h', s) == HasWake(h, s);
    assert forall s :: Owned(h', s) == Owned(h, s);
  }

  lemma FlushBack(h: Hub, c: Id, C: set<Id>)
    requires Stranded(Flush(h, c), C)
    ensures Stranded(h, C)
  {
    if c in h.deferred {
      var h1 := h.(deferred := h.deferred - {c});
      if c !in h.byId || h.byId[c].proc.None? {
        DropDeferredBack(h, c, C);
      } else if !h.byId[c].steerPending {
        RedeliverBack(h1, c, h.deferred[c], C);
        UndeferBack(h, h1, c, C);
      }
    }
  }

  lemma DropDeferredBack(h: Hub, c: Id, C: set<Id>)
    requires Stranded(Skip(DropDeferred(h, c), c), C)
    ensures Stranded(h, C)
  {
    SkipBack(DropDeferred(h, c), c, C);
    UndeferBack(h, DropDeferred(h, c), c, C);
  }

  /** The abort qualifier and the pending ask are no part of a wait. */
  lemma CleanSlateBack(h: Hub, h': Hub, x: Id, C: set<Id>)
    requires Stranded(h', C)
    requires h'.byId == (if x in h.byId then h.byId[x := h.byId[x].(forceAborted := false)] else h.byId)
    requires h'.subscribers == h.subscribers && h'.holding == h.holding
    requires h'.deferred == h.deferred && h'.inFlight == h.inFlight && h'.history.skipped == h.history.skipped
    ensures Stranded(h, C)
  {
    forall s | s in C
      ensures HeldQuiet(h, s) && Owned(h, s) && !HasWake(h, s) && s !in h.history.skipped
    {
      assert HeldQuiet(h', s) && Owned(h', s) && !HasWake(h', s) && s !in h'.history.skipped;
    }
    forall s, t | s in C && IsArmed(h, t, s) ensures t in C {
      assert IsArmed(h', t, s);
    }
  }

  lemma TurnStartBack(h: Hub, x: Id, C: set<Id>)
    requires Stranded(TurnStart(h, x), C)
    ensures Stranded(h, C)
  {
    var h0 := Unhold(h, x);
    var h1 := ArmAll(h0, x, OwnersOf(h, x));
    if Get(h.subscribers, x) == [] {
      CleanSlateBack(h1, TurnStart(h, x), x, C);
    }
    ArmAllBack(h0, x, OwnersOf(h, x), C);
    UnholdBack(h, x, C);
  }

  lemma OnTurnEndBack(h: Hub, x: Id, C: set<Id>)
    requires Stranded(OnTurnEnd(h, x), C)
    ensures Stranded(h, C)
  {
    if x in h.byId {
      var h2 := h.(settles := h.settles - {x});
      if h.byId[x].stopInterrupted || Get(h.subscribers, x) == [] || Defers(h.byId[x]) {
        SameWaits(h, OnTurnEnd(h, x), C);
      } else {
        DecideBack(h2, x, C);
        SameWaits(h, h2, C);
      }
    }
  }

  lemma TurnEndBack(h: Hub, x: Id, C: set<Id>)
    requires Stranded(TurnEnd(h, x), C)
    ensures Stranded(h, C)
  {
    FlushBack(OnTurnEnd(h, x), x, C);
    OnTurnEndBack(h, x, C);
  }

  lemma RotatedBack(h: Hub, x: Id, up: bool, C: set<Id>)
    requires Stranded(RotationComplete(h, x, up), C)
    ensures Stranded(h, C)
  {
    if up {
      if x in h.byId {
        DecideBack(h, x, C);
      } else {
        ConsumeBack(h, x, C);
      }
    }
  }

  lemma ExitBack(h: Hub, x: Id, C: set<Id>)
    requires Stranded(TargetExit(h, x), C)
    ensures Stranded(h, C)
  {
    var callers := Get(h.subscribers, x);
    var h1 := TakePrompts(h, x, callers != []);
    ExitAllBack(h1, x, callers, Wake(x, false, true, false, false, Get(h.prompts, x)), C);
    SameWaits(h, h1, C);
  }

  lemma DisarmBack(h: Hub, t: Id, c: Id, C: set<Id>)
    requires Stranded(DisarmSilently(h, t, c), C)
    ensures Stranded(h, C)
  {
    if IsArmed(h, t, c) {
      ReleaseBack(DropArmed(h, t, c, Disarmed), c, C);
      DropBack(h, t, c, Disarmed, C);
    }
  }

  lemma SettleBack(h: Hub, x: Id, C: set<Id>)
    requires Stranded(FireSettle(h, x), C)
    ensures Stranded(h, C)
  {
    var h1 := h.(settles := h.settles - {x});
    if SettleHolds(h, x) {
      DecideBack(h1, x, C);
    }
    SameWaits(h, h1, C);
  }

  lemma DispatchBack(h: Hub, c: Id, t: Id, timeoutOnly: bool, C: set<Id>)
    requires c in h.byId && t in h.byId && c != t
    requires Stranded(if timeoutOnly then SetIdleTimeout(h, c, t) else NoteDispatch(h, c, t), C)
    ensures Stranded(h, C)
  {
    var h1 := RecordOwner(h, t, c);
    assert IsArmed(h1, t, c) == IsArmed(h, t, c);
    if IsArmed(h1, t, c) {
      RearmBack(h1, t, c, C);
    } else if !timeoutOnly && h.byId[t].status == Turn {
      assert !HeldQuiet(h1, t);
      ArmBack(h1, t, c, C);
    }
    SameWaits(h, h1, C);
  }

  lemma BeatBack(h: Hub, t: Id, c: Id, C: set<Id>)
    requires Stranded(Heartbeat(h, t, c), C)
    ensures Stranded(h, C)
  {
    if IsArmed(h, t, c) {
      var h1 := if Gone(h, t) then DropArmed(h, t, c, Retired) else h;
      DeliverBack(h1, c, Wake(t, true, false, false, false, []), C);
      if Gone(h, t) {
        DropBack(h, t, c, Retired, C);
      }
    }
  }

  lemma SendDoneBack(h: Hub, c: Id, C: set<Id>)
    requires Stranded(EndInFlight(h, c), C)
    ensures Stranded(h, C)
  {
    ReleaseBack(OneLanded(h, c), c, C);
    FewerInFlightBack(h, OneLanded(h, c), c, C);
  }

  lemma FewerInFlightBack(h: Hub, h': Hub, c: Id, C: set<Id>)
    requires Stranded(h', C) && c !in C
    requires h'.byId == h.byId && h'.subscribers == h.subscribers && h'.holding == h.holding && h'.deferred == h.deferred
    requires h'.history == h.history && forall s :: s != c ==> (s in h'.inFlight <==> s in h.inFlight)
    ensures Stranded(h, C)
  {
    assert forall s :: HeldQuiet(h', s) == HeldQuiet(h, s);
    assert forall s, t :: IsArmed(h', t, s) == IsArmed(h, t, s);
    assert forall s :: s in C ==> HasWake(h', s) == HasWake(h, s);
    assert forall s :: Owned(h', s) == Owned(h, s);
  }

  /** Every step, read backwards: a set stranded after it, none of its decisions skipped by it, was stranded before it. */
  lemma StepBack(h: Hub, s: Step, C: set<Id>)
    requires Stranded(Next(h, s), C)
    ensures Stranded(h, C)
  {
    if s.Facts? || s.Start? || s.SteerSettled? {
      EarlyStepBack(h, s, C);
    } else if s.End? || s.SettleFires? || s.Rotated? || s.Exit? {
      TurnStepBack(h, s, C);
    } else if s.Dispatch? || s.Timeout? {
      DispatchStepBack(h, s, C);
    } else if s.Removal? {
      PurgeBack(h, s.x, s.release, s.removing, C);
    } else if s.Disarm? {
      DisarmBack(h, s.target, s.caller, C);
    } else if s.Beat? {
      BeatBack(h, s.target, s.caller, C);
    } else if s.SendDone? {
      SendDoneBack(h, s.x, C);
    } else {
      QuietStepBack(h, s, C);
    }
  }

  lemma EarlyStepBack(h: Hub, s: Step, C: set<Id>)
    requires (s.Facts? || s.Start? || s.SteerSettled?) && Stranded(Next(h, s), C)
    ensures Stranded(h, C)
  {
    match s
    case Facts(x, i) => SetFactsBack(h, x, i, C);
    case Start(x) => TurnStartBack(h, x, C);
    case SteerSettled(x) => FlushBack(h, x, C);
  }

  lemma TurnStepBack(h: Hub, s: Step, C: set<Id>)
    requires (s.End? || s.SettleFires? || s.Rotated? || s.Exit?) && Stranded(Next(h, s), C)
    ensures Stranded(h, C)
  {
    match s
    case End(x) => TurnEndBack(h, x, C);
    case SettleFires(x) => SettleBack(h, x, C);
    case Rotated(x, up) => RotatedBack(h, x, up, C);
    case Exit(x) => ExitBack(h, x, C);
  }

  lemma DispatchStepBack(h: Hub, s: Step, C: set<Id>)
    requires (s.Dispatch? || s.Timeout?) && Stranded(Next(h, s), C)
    ensures Stranded(h, C)
  {
    if s.caller in h.byId && s.target in h.byId && s.caller != s.target {
      DispatchBack(h, s.caller, s.target, s.Timeout?, C);
    }
  }

  /** The steps that touch nothing a wait depends on. */
  lemma TaskEventSame(h: Hub, x: Id)
    ensures TaskEvent(h, x) == h.(settles := TaskEvent(h, x).settles)
  {
  }

  lemma QuietStepSame(h: Hub, s: Step)
    requires s.Echo? || s.Ask? || s.Task? || s.Suspend? || s.Resume?
    ensures var h' := Next(h, s);
            && h.byId == h'.byId && h.subscribers == h'.subscribers && h.holding == h'.holding
            && h.deferred == h'.deferred && h.inFlight == h'.inFlight && h.history.skipped == h'.history.skipped
  {
    if s.Task? {
      TaskEventSame(h, s.x);
    } else if s.Echo? {
      assert Next(h, s) == HumanEcho(h, s.x, s.text);
    }
  }

  lemma QuietStepBack(h: Hub, s: Step, C: set<Id>)
    requires s.Echo? || s.Ask? || s.Task? || s.Suspend? || s.Resume?
    requires Stranded(Next(h, s), C)
    ensures Stranded(h, C)
  {
    QuietStepSame(h, s);
    SameWaits(h, Next(h, s), C);
  }

  lemma Member<T>(C: set<T>) returns (s: T)
    requires C != {}
    ensures s in C
  {
    s :| s in C;
  }

  lemma EmptyNotStranded(C: set<Id>)
    ensures !Stranded(EMPTY, C)
  {
    assert forall s :: !HeldQuiet(EMPTY, s);
    if Stranded(EMPTY, C) {
      var s := Member(C);
      assert false;
    }
  }
}
