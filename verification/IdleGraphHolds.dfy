/**
 Which held sessions a run of the idle-wake graph can leave behind: none, but where a step skips a decision that would
 have been a release.
 */
module IdleGraphHolds {
  import opened Text
  import opened IdleGraph
  import opened IdleGraphTheorems
  import opened IdleGraphRuns

  // ---------------------------------------------------------------------------------------------
  // Lost holds
  // ---------------------------------------------------------------------------------------------

  /**
   Something outside the held sessions will still end `s`'s wait: a wake on its way, a target still owing it a wake,
   or the heartbeat of a target that is gone for good, which retires with a last report.
   */
  ghost predicate Rescued(h: Hub, s: Id) {
    HasWake(h, s) || exists t :: IsArmed(h, t, s) && (Working(h, t) || Gone(h, t))
  }

  ghost predicate LeadsTo(h: Hub, x: Id, s: Id) {
    exists p :: HeldChain(h, p) && p[0] == x && p[|p| - 1] == s
  }

  /** Some chain of waits from `x` ends at a session that will be woken. */
  ghost predicate WayOut(h: Hub, x: Id) {
    exists s :: LeadsTo(h, x, s) && Rescued(h, s)
  }

  /** A quiet session whose owners' wakes are held for nothing. */
  ghost predicate Lost(h: Hub, x: Id) {
    HeldQuiet(h, x) && Owned(h, x) && !WayOut(h, x)
  }

  ghost predicate NoneLost(h: Hub) {
    forall x :: !Lost(h, x)
  }

  /** A group of held sessions that wait on nothing but each other. */
  ghost predicate Closed(h: Hub, C: set<Id>) {
    && C != {}
    && (forall s :: s in C ==> HeldQuiet(h, s) && Owned(h, s) && !HasWake(h, s))
    && (forall s, t :: s in C && IsArmed(h, t, s) ==> t in C)
  }

  /** Where the chains of held waits from `x` lead. */
  ghost function ChainEnds(h: Hub, x: Id): set<Id> {
    set s | s in h.byId && LeadsTo(h, x, s)
  }

  lemma StartsAtItself(h: Hub, x: Id)
    ensures LeadsTo(h, x, x)
  {
    assert HeldChain(h, [x]) && [x][0] == x && [x][|[x]| - 1] == x;
  }

  lemma EndIsHeld(h: Hub, x: Id, s: Id)
    requires Lost(h, x) && LeadsTo(h, x, s)
    ensures HeldQuiet(h, s) && Owned(h, s) && !Rescued(h, s)
  {
    var p :| HeldChain(h, p) && p[0] == x && p[|p| - 1] == s;
    if |p| > 1 {
      assert Hop(h, p, |p| - 1);
      ArmedIsOwned(h, s, p[|p| - 2]);
    }
  }

  lemma ArmedIsOwned(h: Hub, s: Id, c: Id)
    requires IsArmed(h, s, c)
    ensures Owned(h, s)
  {
  }

  lemma LeadsOn(h: Hub, x: Id, s: Id, t: Id)
    requires LeadsTo(h, x, s) && IsArmed(h, t, s) && HeldQuiet(h, t)
    ensures LeadsTo(h, x, t)
  {
    var p :| HeldChain(h, p) && p[0] == x && p[|p| - 1] == s;
    var q := p + [t];
    forall i | 0 < i < |q| ensures Hop(h, q, i) {
      assert i < |p| ==> Hop(h, p, i);
    }
    assert HeldChain(h, q) && q[0] == x && q[|q| - 1] == t;
  }

  /** A lost session's chains stay in a closed group around it. */
  lemma LostIsClosed(h: Hub, x: Id)
    requires Lost(h, x)
    ensures x in ChainEnds(h, x) && Closed(h, ChainEnds(h, x))
  {
    var C := ChainEnds(h, x);
    StartsAtItself(h, x);
    forall s | s in C ensures HeldQuiet(h, s) && Owned(h, s) && !HasWake(h, s) {
      EndIsHeld(h, x, s);
    }
    forall s, t | s in C && IsArmed(h, t, s) ensures t in C {
      EndIsHeld(h, x, s);
      LeadsOn(h, x, s, t);
    }
  }

  lemma {:induction false} ChainInside(h: Hub, C: set<Id>, p: seq<Id>, i: nat)
    requires Closed(h, C) && HeldChain(h, p) && p[0] in C && i < |p|
    ensures p[i] in C
  {
    if i > 0 {
      ChainInside(h, C, p, i - 1);
      assert Hop(h, p, i);
    }
  }

  /** And everything in a closed group is lost. */
  lemma ClosedIsLost(h: Hub, C: set<Id>, x: Id)
    requires Closed(h, C) && x in C
    ensures Lost(h, x)
  {
    forall s | LeadsTo(h, x, s) ensures !Rescued(h, s) {
      LeadsInside(h, C, x, s);
      ClosedUnrescued(h, C, s);
    }
  }

  lemma LeadsInside(h: Hub, C: set<Id>, x: Id, s: Id)
    requires Closed(h, C) && x in C && LeadsTo(h, x, s)
    ensures s in C
  {
    var p :| HeldChain(h, p) && p[0] == x && p[|p| - 1] == s;
    ChainInside(h, C, p, |p| - 1);
  }

  lemma ClosedUnrescued(h: Hub, C: set<Id>, s: Id)
    requires Closed(h, C) && s in C
    ensures !Rescued(h, s)
  {
    forall t | IsArmed(h, t, s) ensures !Working(h, t) && !Gone(h, t) {
      assert t in C && HeldQuiet(h, t);
    }
  }

  // ---------------------------------------------------------------------------------------------
  // What the hub would decide about it
  // ---------------------------------------------------------------------------------------------

  /** Some chain of waits from `x` ends at a session armed on a target that is gone for good. */
  ghost predicate AwaitsGone(h: Hub, x: Id) {
    exists s, t :: LeadsTo(h, x, s) && IsArmed(h, t, s) && Gone(h, t)
  }

  /** Asked now, the hub would find nothing to hold for, and no heartbeat will report either. */
  ghost predicate Releasable(h: Hub, x: Id) {
    HeldQuiet(h, x) && Owned(h, x) && !Waits(h, x) && !AwaitsGone(h, x)
  }

  /** The last visit of `x` on a path that starts there. */
  lemma {:induction false} LastVisit(p: seq<Id>, x: Id, n: nat) returns (k: nat)
    requires 0 < n <= |p| && p[0] == x
    ensures k < n && p[k] == x && forall i :: k < i < n ==> p[i] != x
    decreases n
  {
    if p[n - 1] == x {
      k := n - 1;
    } else {
      k := LastVisit(p, x, n - 1);
    }
  }

  /** A chain to work, cut at its last visit to `x`, is one the wait search follows. */
  lemma WorkIsWaitedOn(h: Hub, x: Id, p: seq<Id>)
    requires HeldChain(h, p) && p[0] == x && HasWork(h, x, p[|p| - 1])
    ensures Waits(h, x)
  {
    var k := LastVisit(p, x, |p|);
    SuffixPath(h, x, p, k);
    PathWaits(h, x, p[k..]);
  }

  lemma PathWaits(h: Hub, x: Id, p: seq<Id>)
    requires WaitPath(h, x, p) && p[0] == x && HasWork(h, x, p[|p| - 1])
    ensures Waits(h, x)
  {
  }

  lemma SuffixPath(h: Hub, x: Id, p: seq<Id>, k: nat)
    requires HeldChain(h, p) && k < |p| && forall i :: k < i < |p| ==> p[i] != x
    ensures WaitPath(h, x, p[k..]) && p[k..][0] == p[k] && p[k..][|p| - k - 1] == p[|p| - 1]
  {
    var q := p[k..];
    forall i | 0 < i < |q| ensures q[i] != x && Hop(h, q, i) {
      assert Hop(h, p, k + i);
    }
  }

  lemma WorkIsWayOut(h: Hub, x: Id)
    requires Waits(h, x)
    ensures WayOut(h, x)
  {
    var p :| WaitPath(h, x, p) && p[0] == x && HasWork(h, x, p[|p| - 1]);
    assert HeldChain(h, p) && LeadsTo(h, x, p[|p| - 1]) && Rescued(h, p[|p| - 1]);
  }

  /** Lost is what the wait search says, next to the heartbeats: exactly the held sessions that would be released. */
  lemma LostIffReleasable(h: Hub, x: Id)
    ensures Lost(h, x) <==> Releasable(h, x)
  {
    if HeldQuiet(h, x) && Waits(h, x) {
      WorkIsWayOut(h, x);
    } else if HeldQuiet(h, x) && WayOut(h, x) && !AwaitsGone(h, x) {
      var s :| LeadsTo(h, x, s) && Rescued(h, s);
      var p :| HeldChain(h, p) && p[0] == x && p[|p| - 1] == s;
      assert !Working(h, x);
      assert HasWork(h, x, s);
      WorkIsWaitedOn(h, x, p);
    }
  }

  // ---------------------------------------------------------------------------------------------
  // The guards
  // ---------------------------------------------------------------------------------------------

  /** A change of facts that makes a held session quiet again: no decision comes with it. */
  predicate Returns(h: Hub, s: Step, y: Id) {
    s.Facts? && y == s.x && y in h.holding && !Quiet(h, y) && Quiet(WithFacts(h, s.x, s.instance), y)
  }

  /** A caller of the session being removed, itself being swept. */
  predicate Swept(h: Hub, s: Step, y: Id) {
    s.Removal? && IsArmed(h, s.x, y) && y in s.removing
  }

  /** The guards at which the hub skips a decision about `y`, as they stand before the step. */
  predicate SkipGuard(h: Hub, s: Step, y: Id) {
    Returns(h, s, y) || Swept(h, s, y) || Unreachable(h, y)
  }

  /** Decisions are skipped for the sessions of `S` and unreachable ones only. */
  ghost predicate SkipsOnly(h: Hub, h': Hub, S: set<Id>) {
    && h'.byId == h.byId && h'.suspended == h.suspended
    && forall y :: y in h'.history.skipped ==> y in h.history.skipped || Unreachable(h, y) || y in S
  }

  lemma ReleaseOneSkips(h: Hub, w: Id, release: bool, removing: set<Id>)
    ensures SkipsOnly(h, ReleaseOne(h, w, release, removing), {w} * removing)
  {
    if w !in removing {
      ReleaseOneTame(h, w, release, removing);
    }
  }

  lemma SkipsTrans(h: Hub, h1: Hub, h2: Hub, S: set<Id>, T: set<Id>)
    requires SkipsOnly(h, h1, S) && SkipsOnly(h1, h2, T)
    ensures SkipsOnly(h, h2, S + T)
  {
    assert forall y :: Unreachable(h1, y) == Unreachable(h, y);
  }

  lemma {:induction false} ReleaseAllSkips(h: Hub, waiters: seq<Id>, release: bool, removing: set<Id>)
    ensures SkipsOnly(h, ReleaseAll(h, waiters, release, removing), (set w | w in waiters) * removing)
    decreases |waiters|
  {
    if waiters != [] {
      var h1 := ReleaseOne(h, waiters[0], release, removing);
      ReleaseOneSkips(h, waiters[0], release, removing);
      ReleaseAllSkips(h1, waiters[1..], release, removing);
      SkipsTrans(h, h1, ReleaseAll(h1, waiters[1..], release, removing), {waiters[0]} * removing,
                 (set w | w in waiters[1..]) * removing);
    }
  }

  lemma {:induction false} ArmAllSkips(h: Hub, t: Id, callers: seq<Id>)
    ensures ArmAll(h, t, callers).history.skipped == h.history.skipped
    decreases |callers|
  {
    if callers != [] {
      ArmAllSkips(Arm(h, t, callers[0]), t, callers[1..]);
    }
  }

  lemma FactsSkips(h: Hub, x: Id, i: Option<Instance>, y: Id)
    requires h.history.skipped == {} && y in SetFacts(h, x, i).history.skipped
    ensures Returns(h, Facts(x, i), y)
  {
  }

  lemma RemovalSkips(h: Hub, s: Step, y: Id)
    requires s.Removal? && h.history.skipped == {} && y in Next(h, s).history.skipped
    ensures SkipGuard(h, s, y)
  {
    var h1 := Erase(h, s.x);
    EraseTame(h, s.x);
    ReleaseAllSkips(h1, Get(h.subscribers, s.x), s.release, s.removing);
    assert Unreachable(h1, y) == Unreachable(h, y);
  }

  /** A step skips decisions at its guards only. */
  lemma SkippedIsGuarded(h: Hub, s: Step, y: Id)
    requires y in After(h, s).history.skipped
    ensures SkipGuard(h, s, y)
  {
    NextSkips(Fresh(h), s, y);
    SameGuards(h, s, y);
  }

  lemma NextSkips(h: Hub, s: Step, y: Id)
    requires h.history.skipped == {} && y in Next(h, s).history.skipped
    ensures SkipGuard(h, s, y)
  {
    if s.Facts? {
      FactsSkips(h, s.x, s.instance, y);
    } else if s.Removal? {
      RemovalSkips(h, s, y);
    } else if ChangesFacts(s) {
      SkipsNothing(h, s);
    } else {
      StepTame(h, s);
    }
  }

  lemma SkipsNothing(h: Hub, s: Step)
    requires h.history.skipped == {} && ChangesFacts(s) && !s.Facts?
    ensures Next(h, s).history.skipped == {}
  {
    if s.Start? {
      ArmAllSkips(Unhold(h, s.x), s.x, OwnersOf(h, s.x));
    }
  }

  lemma SameGuards(h: Hub, s: Step, y: Id)
    ensures SkipGuard(Fresh(h), s, y) == SkipGuard(h, s, y)
  {
    if s.Facts? {
      FreshFacts(h, s.x, s.instance, y);
    }
  }

  lemma FreshFacts(h: Hub, x: Id, i: Option<Instance>, y: Id)
    ensures Returns(Fresh(h), Facts(x, i), y) == Returns(h, Facts(x, i), y)
  {
    assert WithFacts(Fresh(h), x, i).byId == WithFacts(h, x, i).byId;
  }

  // ---------------------------------------------------------------------------------------------
  // No stranded hold
  // ---------------------------------------------------------------------------------------------

  /** A closed group none of whose decisions the step skipped was closed before it. */
  lemma ClosedBefore(h: Hub, s: Step, C: set<Id>)
    requires Closed(After(h, s), C) && forall y :: y in C ==> y !in After(h, s).history.skipped
    ensures Closed(h, C)
  {
    StepBack(Fresh(h), s, C);
    assert Stranded(Fresh(h), C);
    assert forall x :: HeldQuiet(Fresh(h), x) == HeldQuiet(h, x);
    assert forall x, t :: IsArmed(Fresh(h), t, x) == IsArmed(h, t, x);
    assert forall x :: HasWake(Fresh(h), x) == HasWake(h, x);
    assert forall x :: Owned(Fresh(h), x) == Owned(h, x);
  }

  /** The step skips, at a guard, a decision that would have been a release. */
  ghost predicate Loses(h: Hub, s: Step) {
    exists y :: SkipGuard(h, s, y) && Releasable(After(h, s), y)
  }

  /** Exactly when a step of the hub loses a hold. */
  lemma StepLosesIff(h: Hub, s: Step)
    requires NoneLost(h)
    ensures !NoneLost(After(h, s)) <==> Loses(h, s)
  {
    var h' := After(h, s);
    if x :| Lost(h', x) {
      var y := SkippedAmong(h, s, x);
      SkippedIsGuarded(h, s, y);
      LostIffReleasable(h', y);
    }
    if y :| SkipGuard(h, s, y) && Releasable(h', y) {
      LostIffReleasable(h', y);
    }
  }

  /** Of a newly lost session's closed group, one had its decision skipped. */
  lemma SkippedAmong(h: Hub, s: Step, x: Id) returns (y: Id)
    requires NoneLost(h) && Lost(After(h, s), x)
    ensures y in After(h, s).history.skipped && Lost(After(h, s), y)
  {
    var C := ChainEnds(After(h, s), x);
    LostIsClosed(After(h, s), x);
    if forall z :: z in C ==> z !in After(h, s).history.skipped {
      ClosedBefore(h, s, C);
      ClosedIsLost(h, C, x);
      assert false;
    }
    y :| y in C && y in After(h, s).history.skipped;
    ClosedIsLost(After(h, s), C, y);
  }

  /** A hold is lost somewhere in a run if and only if some step of it loses one. */
  lemma RunLosesIff(steps: seq<Step>)
    ensures (forall n :: 0 <= n <= |steps| ==> NoneLost(Run(steps[..n])))
            <==> forall n {:trigger steps[n]} :: 0 <= n < |steps| ==> !Loses(Run(steps[..n]), steps[n])
  {
    if forall n :: 0 <= n <= |steps| ==> NoneLost(Run(steps[..n])) {
      forall n {:trigger steps[n]} | 0 <= n < |steps| ensures !Loses(Run(steps[..n]), steps[n]) {
        RunStep(steps, n);
        StepLosesIff(Run(steps[..n]), steps[n]);
        assert NoneLost(Run(steps[..n + 1]));
      }
    } else if forall n {:trigger steps[n]} :: 0 <= n < |steps| ==> !Loses(Run(steps[..n]), steps[n]) {
      forall n | 0 <= n <= |steps| ensures NoneLost(Run(steps[..n])) {
        NoneLostUpTo(steps, n);
      }
    }
  }

  lemma RunStep(steps: seq<Step>, n: nat)
    requires n < |steps|
    ensures Run(steps[..n + 1]) == After(Run(steps[..n]), steps[n])
  {
    assert steps[..n + 1][..n] == steps[..n];
  }

  lemma {:induction false} NoneLostUpTo(steps: seq<Step>, n: nat)
    requires n <= |steps|
    requires forall m {:trigger steps[m]} :: 0 <= m < n ==> !Loses(Run(steps[..m]), steps[m])
    ensures NoneLost(Run(steps[..n]))
  {
    if n == 0 {
      assert forall x :: !HeldQuiet(EMPTY, x);
    } else {
      NoneLostUpTo(steps, n - 1);
      RunStep(steps, n - 1);
      StepLosesIff(Run(steps[..n - 1]), steps[n - 1]);
    }
  }

  /** `y`'s decision was skipped at step `n`, and it has been lost ever since. */
  ghost predicate LostSince(steps: seq<Step>, y: Id, n: nat) {
    && n < |steps| && SkipGuard(Run(steps[..n]), steps[n], y)
    && forall m :: n < m <= |steps| ==> Lost(Run(steps[..m]), y)
  }

  /** A closed group goes back to a skipped decision about one of its own. */
  lemma {:induction false} Origin(steps: seq<Step>, C: set<Id>) returns (y: Id, n: nat)
    requires Closed(Run(steps), C)
    ensures y in C && LostSince(steps, y, n)
    decreases |steps|
  {
    if steps == [] {
      EmptyNotStranded(C);
      assert false;
    }
    var k := |steps| - 1;
    var h' := After(Run(steps[..k]), steps[k]);
    if z :| z in C && z in h'.history.skipped {
      y, n := z, k;
      SkippedNow(steps, C, y);
    } else {
      ClosedBefore(Run(steps[..k]), steps[k], C);
      y, n := Origin(steps[..k], C);
      ClosedIsLost(Run(steps), C, y);
      LostLonger(steps, y, n);
    }
  }

  lemma SkippedNow(steps: seq<Step>, C: set<Id>, y: Id)
    requires steps != [] && Closed(Run(steps), C) && y in C && y in Run(steps).history.skipped
    ensures LostSince(steps, y, |steps| - 1)
  {
    var k := |steps| - 1;
    SkippedIsGuarded(Run(steps[..k]), steps[k], y);
    ClosedIsLost(Run(steps), C, y);
    assert steps[..|steps|] == steps;
  }

  lemma LostLonger(steps: seq<Step>, y: Id, n: nat)
    requires steps != [] && LostSince(steps[..|steps| - 1], y, n) && Lost(Run(steps), y)
    ensures LostSince(steps, y, n)
  {
    var front := steps[..|steps| - 1];
    forall m: nat | m <= |front| ensures front[..m] == steps[..m] {
    }
    forall m | n < m <= |steps| ensures Lost(Run(steps[..m]), y) {
      if m == |steps| {
        assert steps[..m] == steps;
      } else {
        assert Lost(Run(front[..m]), y);
      }
    }
  }

  /**
   No stranded hold, in every interleaving of the hub's entry points with arbitrary changes of the instances' facts: a
   quiet session whose owners' wakes are held has a way out, or waits on one whose decision a guard skipped and which
   has been lost ever since.
   */
  lemma {:induction false} NoStrandedHold(steps: seq<Step>, x: Id)
    requires HeldQuiet(Run(steps), x) && Owned(Run(steps), x)
    ensures WayOut(Run(steps), x) || exists y, n :: LeadsTo(Run(steps), x, y) && LostSince(steps, y, n)
  {
    if !WayOut(Run(steps), x) {
      LostIsClosed(Run(steps), x);
      var y, n := Origin(steps, ChainEnds(Run(steps), x));
      assert LeadsTo(Run(steps), x, y);
    }
  }

  /** In a run none of whose steps loses a hold, every quiet held session has a way out. */
  lemma {:induction false} HoldsEnd(steps: seq<Step>, x: Id)
    requires forall n {:trigger steps[n]} :: 0 <= n < |steps| ==> !Loses(Run(steps[..n]), steps[n])
    requires HeldQuiet(Run(steps), x) && Owned(Run(steps), x)
    ensures WayOut(Run(steps), x)
  {
    NoneLostUpTo(steps, |steps|);
    assert steps[..|steps|] == steps;
    assert !Lost(Run(steps), x);
  }
}
