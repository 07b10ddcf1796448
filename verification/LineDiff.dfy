/**
 Myers' greedy line diff (shared/diff.ts): a forward search that keeps, per diagonal, the furthest
 point reached, snapshots that map once a round, and walks the snapshots back from the far corner.

 `Reach(a, b, d, x, y)` is the reference definition the search is measured against: (x, y) is
 reachable from the origin by exactly `d` insertions and deletions. Like the code, it lets the
 furthest points step outside the |a| x |b| grid, where no diagonal exists.
 */
module LineDiff {
  import opened Text

  datatype Op = Keep | Delete | Insert
  datatype DiffOp = DiffOp(op: Op, text: string)

  /** The lines `ops` consumes from the old text: dropping the insertions spells the old side. */
  function OldSide(ops: seq<DiffOp>): (lines: seq<string>) {
    if ops == [] then []
    else (if ops[0].op == Insert then [] else [ops[0].text]) + OldSide(ops[1..])
  }

  function NewSide(ops: seq<DiffOp>): (lines: seq<string>) {
    if ops == [] then []
    else (if ops[0].op == Delete then [] else [ops[0].text]) + NewSide(ops[1..])
  }

  function Count(ops: seq<DiffOp>, op: Op): nat {
    if ops == [] then 0 else (if ops[0].op == op then 1 else 0) + Count(ops[1..], op)
  }

  function Cost(ops: seq<DiffOp>): nat {
    Count(ops, Insert) + Count(ops, Delete)
  }

  ghost predicate IsScript(ops: seq<DiffOp>, a: seq<string>, b: seq<string>) {
    OldSide(ops) == a && NewSide(ops) == b
  }

  /** The lines a text contributes: a missing text is empty and one trailing empty line is dropped. */
  function Lines(text: Option<string>): (lines: seq<string>) {
    var ls := Split(if text.Some? then text.value else "", '\n');
    if ls[|ls| - 1] == "" then ls[..|ls| - 1] else ls
  }

  // ---------------------------------------------------------------------------------------------
  // The edit graph
  // ---------------------------------------------------------------------------------------------

  /** A diagonal move leads from (x, y) to (x + 1, y + 1); only inside the grid, on equal lines. */
  ghost predicate Diagonal(a: seq<string>, b: seq<string>, x: int, y: int) {
    0 <= x < |a| && 0 <= y < |b| && a[x] == b[y]
  }

  ghost predicate Reach(a: seq<string>, b: seq<string>, d: int, x: int, y: int)
    decreases x + y
  {
    x >= 0 && y >= 0 && d >= 0 &&
    ((x == 0 && y == 0 && d == 0)
     || (x > 0 && Reach(a, b, d - 1, x - 1, y))
     || (y > 0 && Reach(a, b, d - 1, x, y - 1))
     || (Diagonal(a, b, x - 1, y - 1) && Reach(a, b, d, x - 1, y - 1)))
  }

  /** `Reach` in diagonal coordinates: diagonal `k` holds the points (x, x - k). */
  ghost predicate ReachOn(a: seq<string>, b: seq<string>, d: int, k: int, x: int) {
    Reach(a, b, d, x, x - k)
  }

  /** (x, x - k) is the furthest point of diagonal `k` at distance `d`. */
  ghost predicate Furthest(a: seq<string>, b: seq<string>, d: int, k: int, x: int) {
    ReachOn(a, b, d, k, x) && forall x' :: x' > x ==> !ReachOn(a, b, d, k, x')
  }

  ghost predicate Match(a: seq<string>, b: seq<string>, k: int, x: int) {
    Diagonal(a, b, x, x - k)
  }

  /** No point at or beyond the far corner is at distance `d`: what "not done yet" means for a round. */
  ghost predicate CornerClear(a: seq<string>, b: seq<string>, d: int) {
    forall x, y :: x >= |a| && y >= |b| ==> !Reach(a, b, d, x, y)
  }

  /** Distance `d` only reaches diagonals of `d`'s parity within [-d, d]. */
  lemma {:induction false} ReachDiagonals(a: seq<string>, b: seq<string>, d: int, x: int, y: int)
    requires Reach(a, b, d, x, y)
    ensures -d <= x - y <= d && (x - y - d) % 2 == 0
    decreases x + y
  {
    if x == 0 && y == 0 && d == 0 {
    } else if x > 0 && Reach(a, b, d - 1, x - 1, y) {
      ReachDiagonals(a, b, d - 1, x - 1, y);
    } else if y > 0 && Reach(a, b, d - 1, x, y - 1) {
      ReachDiagonals(a, b, d - 1, x, y - 1);
    } else {
      ReachDiagonals(a, b, d, x - 1, y - 1);
    }
  }

  /** Off the right edge a point can only have been reached through the point left of it, one step cheaper. */
  lemma {:induction false} StepBackFromRight(a: seq<string>, b: seq<string>, d: int, x: int, y: int)
    requires Reach(a, b, d, x, y) && x > |a|
    ensures Reach(a, b, d - 1, x - 1, y)
    decreases x + y
  {
    if !Reach(a, b, d - 1, x - 1, y) {
      assert y > 0 && Reach(a, b, d - 1, x, y - 1);
      StepBackFromRight(a, b, d - 1, x, y - 1);
    }
  }

  lemma {:induction false} StepBackFromBottom(a: seq<string>, b: seq<string>, d: int, x: int, y: int)
    requires Reach(a, b, d, x, y) && y > |b|
    ensures Reach(a, b, d - 1, x, y - 1)
    decreases x + y
  {
    if !Reach(a, b, d - 1, x, y - 1) {
      assert x > 0 && Reach(a, b, d - 1, x - 1, y);
      StepBackFromBottom(a, b, d - 1, x - 1, y);
    }
  }

  /**
   The stop test is `x >= N && y >= M`, yet the search stops exactly at the corner: a point strictly
   beyond it at distance `d` has a predecessor, also at or beyond the corner, at distance `d - 1`.
   */
  lemma StopsAtCorner(a: seq<string>, b: seq<string>, d: int, x: int, y: int)
    requires Reach(a, b, d, x, y) && x >= |a| && y >= |b|
    requires d > 0 ==> CornerClear(a, b, d - 1)
    ensures x == |a| && y == |b|
  {
    if x > |a| {
      StepBackFromRight(a, b, d, x, y);
    } else if y > |b| {
      StepBackFromBottom(a, b, d, x, y);
    }
  }

  /** The end of the snake that starts at (x, x - k). */
  function Slide(a: seq<string>, b: seq<string>, k: int, x: int): (x': int)
    requires 0 <= x && 0 <= x - k
    ensures x <= x'
    ensures forall i :: x <= i < x' ==> Match(a, b, k, i)
    ensures !Match(a, b, k, x')
    decreases |a| - x
  {
    if x < |a| && x - k < |b| && a[x] == b[x - k] then Slide(a, b, k, x + 1) else x
  }

  lemma {:induction false} SlideReach(a: seq<string>, b: seq<string>, d: int, k: int, x: int, i: int)
    requires 0 <= x && 0 <= x - k && ReachOn(a, b, d, k, x)
    requires x <= i <= Slide(a, b, k, x)
    ensures ReachOn(a, b, d, k, i)
    decreases i
  {
    if i > x {
      SlideReach(a, b, d, k, x, i - 1);
      assert Match(a, b, k, i - 1);
    }
  }

  /** Where round `d` starts its snake on diagonal `k`, given the furthest points of round `d - 1`. */
  function Down(v: map<int, int>, k: int): bool {
    k - 1 !in v || (k + 1 in v && v[k - 1] < v[k + 1])
  }

  function SnakeStart(v: map<int, int>, k: int): int {
    if Down(v, k) then (if k + 1 in v then v[k + 1] else 0)
    else (if k - 1 in v then v[k - 1] else 0) + 1
  }

  /** `v` is what the map holds when round `d` begins. */
  ghost predicate Snapshot(a: seq<string>, b: seq<string>, v: map<int, int>, d: int) {
    && (d == 0 ==> v == map[1 := 0])
    && (forall k :: k in v ==> -d < k < d || (k == 1 && d <= 1))
    && (d > 0 ==> forall k :: -d < k < d && (k - d) % 2 != 0 ==> k in v && Furthest(a, b, d - 1, k, v[k]))
  }

  lemma StartReached(a: seq<string>, b: seq<string>, v: map<int, int>, d: int, k: int)
    requires d >= 0 && Snapshot(a, b, v, d) && -d <= k <= d && (k - d) % 2 == 0
    ensures var x := SnakeStart(v, k); x >= 0 && x - k >= 0 && ReachOn(a, b, d, k, x)
    ensures d > 0 ==> (Down(v, k) ==> k + 1 in v && k + 1 < d) && (!Down(v, k) ==> k - 1 in v && k - 1 > -d)
  {
    if d > 0 {
      if Down(v, k) {
        assert k - 1 !in v ==> k == -d;
        assert Furthest(a, b, d - 1, k + 1, v[k + 1]);
      } else {
        assert Furthest(a, b, d - 1, k - 1, v[k - 1]);
      }
    }
  }

  /** The furthest-reaching lemma: every point of diagonal `k` at distance `d` is at or before the snake's end. */
  lemma {:induction false} GreedyBound(a: seq<string>, b: seq<string>, v: map<int, int>, d: int, k: int, x: int)
    requires d >= 0 && Snapshot(a, b, v, d) && -d <= k <= d && (k - d) % 2 == 0
    requires SnakeStart(v, k) >= 0 && SnakeStart(v, k) - k >= 0
    requires ReachOn(a, b, d, k, x)
    ensures x <= Slide(a, b, k, SnakeStart(v, k))
    decreases x
  {
    var y := x - k;
    if x == 0 && y == 0 && d == 0 {
    } else if x > 0 && Reach(a, b, d - 1, x - 1, y) {
      ReachDiagonals(a, b, d - 1, x - 1, y);
      assert ReachOn(a, b, d - 1, k - 1, x - 1);
      assert Furthest(a, b, d - 1, k - 1, v[k - 1]);
    } else if y > 0 && Reach(a, b, d - 1, x, y - 1) {
      ReachDiagonals(a, b, d - 1, x, y - 1);
      assert ReachOn(a, b, d - 1, k + 1, x);
      assert Furthest(a, b, d - 1, k + 1, v[k + 1]);
    } else {
      assert Match(a, b, k, x - 1) && ReachOn(a, b, d, k, x - 1);
      GreedyBound(a, b, v, d, k, x - 1);
    }
  }

  lemma GreedyStep(a: seq<string>, b: seq<string>, v: map<int, int>, d: int, k: int)
    requires d >= 0 && Snapshot(a, b, v, d) && -d <= k <= d && (k - d) % 2 == 0
    ensures SnakeStart(v, k) >= 0 && SnakeStart(v, k) - k >= 0
    ensures Furthest(a, b, d, k, Slide(a, b, k, SnakeStart(v, k)))
  {
    StartReached(a, b, v, d, k);
    var s := SnakeStart(v, k);
    var e := Slide(a, b, k, s);
    SlideReach(a, b, d, k, s, e);
    forall x | x > e ensures !ReachOn(a, b, d, k, x) {
      if ReachOn(a, b, d, k, x) {
        GreedyBound(a, b, v, d, k, x);
      }
    }
  }

  // ---------------------------------------------------------------------------------------------
  // Scripts and distances
  // ---------------------------------------------------------------------------------------------

  /** Deleting everything and inserting everything: the corner is within |a| + |b| moves. */
  lemma {:induction false} ReachEverything(a: seq<string>, b: seq<string>, x: nat, y: nat)
    ensures Reach(a, b, x + y, x, y)
    decreases x + y
  {
    if x > 0 {
      ReachEverything(a, b, x - 1, y);
    } else if y > 0 {
      ReachEverything(a, b, x, y - 1);
    }
  }

  lemma SnocSides(ops: seq<DiffOp>, o: DiffOp)
    ensures OldSide(ops + [o]) == OldSide(ops) + (if o.op == Insert then [] else [o.text])
    ensures NewSide(ops + [o]) == NewSide(ops) + (if o.op == Delete then [] else [o.text])
    ensures Cost(ops + [o]) == Cost(ops) + (if o.op == Keep then 0 else 1)
  {
    if ops != [] {
      SnocSides(ops[1..], o);
      assert (ops + [o])[1..] == ops[1..] + [o];
    }
  }

  lemma Unsnoc(a: seq<string>, x: int, front: seq<string>, last: string)
    requires 0 <= x <= |a| && front + [last] == a[..x]
    ensures x > 0 && front == a[..x - 1] && last == a[x - 1]
  {
    assert |front + [last]| == x;
    assert (front + [last])[..x - 1] == front;
    assert (front + [last])[x - 1] == last;
  }

  /** Any script for prefixes of the two texts reaches the matching point at its own cost. */
  lemma {:induction false} ScriptReaches(a: seq<string>, b: seq<string>, ops: seq<DiffOp>, x: int, y: int)
    requires 0 <= x <= |a| && 0 <= y <= |b| && IsScript(ops, a[..x], b[..y])
    ensures Reach(a, b, Cost(ops), x, y)
    decreases |ops|
  {
    if ops != [] {
      var front, last := ops[..|ops| - 1], ops[|ops| - 1];
      assert ops == front + [last];
      SnocSides(front, last);
      match last.op
      case Keep =>
        Unsnoc(a, x, OldSide(front), last.text);
        Unsnoc(b, y, NewSide(front), last.text);
        ScriptReaches(a, b, front, x - 1, y - 1);
      case Delete =>
        Unsnoc(a, x, OldSide(front), last.text);
        ScriptReaches(a, b, front, x - 1, y);
      case Insert =>
        Unsnoc(b, y, NewSide(front), last.text);
        ScriptReaches(a, b, front, x, y - 1);
    }
  }

  ghost predicate IsShortestScript(ops: seq<DiffOp>, a: seq<string>, b: seq<string>) {
    IsScript(ops, a, b) && forall other :: IsScript(other, a, b) ==> Cost(ops) <= Cost(other)
  }

  /** A script as cheap as the first distance at which the corner is reached is a shortest one. */
  lemma CheapestIsShortest(a: seq<string>, b: seq<string>, ops: seq<DiffOp>)
    requires IsScript(ops, a, b)
    requires forall d :: 0 <= d < Cost(ops) ==> CornerClear(a, b, d)
    ensures IsShortestScript(ops, a, b)
  {
    forall other | IsScript(other, a, b) ensures Cost(ops) <= Cost(other) {
      assert a[..|a|] == a && b[..|b|] == b;
      ScriptReaches(a, b, other, |a|, |b|);
      assert Cost(other) < Cost(ops) ==> CornerClear(a, b, Cost(other));
    }
  }

  // ---------------------------------------------------------------------------------------------
  // The search
  // ---------------------------------------------------------------------------------------------

  /** Round `d`, begun with map `v0`, has extended every diagonal of its parity below `k` and met no corner. */
  ghost predicate InRound(a: seq<string>, b: seq<string>, v0: map<int, int>, v: map<int, int>, d: int, k: int) {
    && Snapshot(a, b, v0, d)
    && -d <= k <= d + 2 && (k - d) % 2 == 0
    && (forall j :: j in v ==> j in v0 || (-d <= j < k && (j - d) % 2 == 0))
    && (forall j :: j in v0 && ((j - d) % 2 != 0 || !(-d <= j < k)) ==> j in v && v[j] == v0[j])
    && (forall j :: -d <= j < k && (j - d) % 2 == 0 ==>
          j in v && Furthest(a, b, d, j, v[j]) && !(v[j] >= |a| && v[j] - j >= |b|))
  }

  /** The round writes only diagonals of its own parity, so its reads still see the snapshot. */
  lemma RoundReads(a: seq<string>, b: seq<string>, v0: map<int, int>, v: map<int, int>, d: int, k: int)
    requires d >= 0 && InRound(a, b, v0, v, d, k) && k <= d
    ensures Down(v, k) == Down(v0, k) && SnakeStart(v, k) == SnakeStart(v0, k)
    ensures !Down(v, k) ==> k - 1 in v
  {
    assert (k - 1 - d) % 2 != 0 && (k + 1 - d) % 2 != 0;
  }

  /** The snake the round takes from its own map is the greedy one. */
  lemma RoundExtends(a: seq<string>, b: seq<string>, v0: map<int, int>, v: map<int, int>, d: int, k: int)
    requires d >= 0 && InRound(a, b, v0, v, d, k) && k <= d
    ensures SnakeStart(v, k) >= 0 && SnakeStart(v, k) - k >= 0
    ensures Furthest(a, b, d, k, Slide(a, b, k, SnakeStart(v, k)))
    ensures !Down(v, k) ==> k - 1 in v
  {
    RoundReads(a, b, v0, v, d, k);
    GreedyStep(a, b, v0, d, k);
  }

  lemma RoundStep(a: seq<string>, b: seq<string>, v0: map<int, int>, v: map<int, int>, d: int, k: int, x: int)
    requires d >= 0 && InRound(a, b, v0, v, d, k) && k <= d
    requires Furthest(a, b, d, k, x) && !(x >= |a| && x - k >= |b|)
    ensures InRound(a, b, v0, v[k := x], d, k + 2)
  {
    var v' := v[k := x];
    forall j | -d <= j < k + 2 && (j - d) % 2 == 0
      ensures j in v' && Furthest(a, b, d, j, v'[j]) && !(v'[j] >= |a| && v'[j] - j >= |b|)
    {
      if j != k {
        assert j < k;
      }
    }
  }

  /** Round `d` finished without stopping: the map is the next round's snapshot, the corner still clear. */
  lemma RoundDone(a: seq<string>, b: seq<string>, v0: map<int, int>, v: map<int, int>, d: int)
    requires d >= 0 && InRound(a, b, v0, v, d, d + 2)
    ensures Snapshot(a, b, v, d + 1)
    ensures CornerClear(a, b, d)
  {
    RoundKeys(a, b, v0, v, d);
    forall x, y | x >= |a| && y >= |b| ensures !Reach(a, b, d, x, y) {
      CornerMissed(a, b, v0, v, d, x, y);
    }
    forall k | -(d + 1) < k < d + 1 && (k - (d + 1)) % 2 != 0
      ensures k in v && Furthest(a, b, d, k, v[k])
    {
      OwnParity(a, b, v0, v, d, k);
    }
  }

  lemma RoundKeys(a: seq<string>, b: seq<string>, v0: map<int, int>, v: map<int, int>, d: int)
    requires d >= 0 && InRound(a, b, v0, v, d, d + 2)
    ensures forall k :: k in v ==> -(d + 1) < k < d + 1 || (k == 1 && d == 0)
  {
  }

  lemma OwnParity(a: seq<string>, b: seq<string>, v0: map<int, int>, v: map<int, int>, d: int, k: int)
    requires d >= 0 && InRound(a, b, v0, v, d, d + 2) && -(d + 1) < k < d + 1 && (k - (d + 1)) % 2 != 0
    ensures k in v && Furthest(a, b, d, k, v[k]) && !(v[k] >= |a| && v[k] - k >= |b|)
  {
    assert (k - d) % 2 == 0;
  }

  lemma CornerMissed(a: seq<string>, b: seq<string>, v0: map<int, int>, v: map<int, int>, d: int, x: int, y: int)
    requires d >= 0 && InRound(a, b, v0, v, d, d + 2) && x >= |a| && y >= |b|
    ensures !Reach(a, b, d, x, y)
  {
    if Reach(a, b, d, x, y) {
      ReachDiagonals(a, b, d, x, y);
      OwnParity(a, b, v0, v, d, x - y);
      assert ReachOn(a, b, d, x - y, x);
    }
  }

  lemma Stops(a: seq<string>, b: seq<string>, d: int, k: int, x: int)
    requires Furthest(a, b, d, k, x) && x >= |a| && x - k >= |b|
    requires d > 0 ==> CornerClear(a, b, d - 1)
    ensures x == |a| && k == |a| - |b|
  {
    StopsAtCorner(a, b, d, x, x - k);
  }

  method Snake(a: seq<string>, b: seq<string>, k: int, start: int) returns (x: int)
    requires 0 <= start && 0 <= start - k
    ensures x == Slide(a, b, k, start)
  {
    x := start;
    var y := start - k;
    while x < |a| && y < |b| && a[x] == b[y]
      invariant 0 <= x && 0 <= y == x - k
      invariant Slide(a, b, k, x) == Slide(a, b, k, start)
      decreases |a| - x
    {
      x, y := x + 1, y + 1;
    }
  }

  /** One round: extend every diagonal of `d`'s parity, stopping at the far corner. */
  method Round(a: seq<string>, b: seq<string>, d: int, v0: map<int, int>) returns (v: map<int, int>, done: bool)
    requires d >= 0 && Snapshot(a, b, v0, d)
    requires d > 0 ==> CornerClear(a, b, d - 1)
    ensures done ==> Furthest(a, b, d, |a| - |b|, |a|)
    ensures !done ==> Snapshot(a, b, v, d + 1) && CornerClear(a, b, d)
  {
    v := v0;
    var k := -d;
    while k <= d
      invariant InRound(a, b, v0, v, d, k)
      decreases d - k
    {
      var x;
      var down := k - 1 !in v || (k + 1 in v && v[k - 1] < v[k + 1]);
      if down {
        x := if k + 1 in v then v[k + 1] else 0;
      } else {
        x := v[k - 1] + 1;
      }
      RoundExtends(a, b, v0, v, d, k);
      x := Snake(a, b, k, x);
      if x >= |a| && x - k >= |b| {
        Stops(a, b, d, k, x);
        return v[k := x], true;
      }
      RoundStep(a, b, v0, v, d, k, x);
      v := v[k := x];
      k := k + 2;
    }
    RoundDone(a, b, v0, v, d);
    done := false;
  }

  method Search(a: seq<string>, b: seq<string>) returns (trace: seq<map<int, int>>)
    requires |a| + |b| > 0
    ensures |trace| > 0
    ensures forall d :: 0 <= d < |trace| ==> Snapshot(a, b, trace[d], d)
    ensures Furthest(a, b, |trace| - 1, |a| - |b|, |a|)
    ensures forall d :: 0 <= d < |trace| - 1 ==> CornerClear(a, b, d)
  {
    var max := |a| + |b|;
    var v := map[1 := 0];
    trace := [];
    var done := false;
    var d := 0;
    while d <= max && !done
      invariant 0 <= d == |trace| <= max + 1
      invariant forall e :: 0 <= e < |trace| ==> Snapshot(a, b, trace[e], e)
      invariant !done ==> Snapshot(a, b, v, d)
      invariant forall e :: 0 <= e < (if done then d - 1 else d) ==> CornerClear(a, b, e)
      invariant done ==> d > 0 && Furthest(a, b, d - 1, |a| - |b|, |a|)
      decreases max + 1 - d, !done
    {
      trace := trace + [v];
      v, done := Round(a, b, d, v);
      d := d + 1;
    }
    if !done {
      assert CornerClear(a, b, max);
      ReachEverything(a, b, |a|, |b|);
      assert false;
    }
  }

  // ---------------------------------------------------------------------------------------------
  // The backtrack
  // ---------------------------------------------------------------------------------------------

  function Reverse(ops: seq<DiffOp>): (r: seq<DiffOp>) {
    if ops == [] then [] else Reverse(ops[1..]) + [ops[0]]
  }

  lemma ReverseSnoc(ops: seq<DiffOp>, o: DiffOp)
    ensures Reverse(ops + [o]) == [o] + Reverse(ops)
  {
    if ops != [] {
      ReverseSnoc(ops[1..], o);
      assert (ops + [o])[1..] == ops[1..] + [o];
    }
  }

  /** What pushing one more op onto the (reversed) list does to the script it stands for. */
  lemma PushSides(ops: seq<DiffOp>, o: DiffOp)
    ensures OldSide(Reverse(ops + [o])) == (if o.op == Insert then [] else [o.text]) + OldSide(Reverse(ops))
    ensures NewSide(Reverse(ops + [o])) == (if o.op == Delete then [] else [o.text]) + NewSide(Reverse(ops))
    ensures Cost(Reverse(ops + [o])) == (if o.op == Keep then 0 else 1) + Cost(Reverse(ops))
  {
    ReverseSnoc(ops, o);
    assert ([o] + Reverse(ops))[1..] == Reverse(ops);
  }

  /** `rev`, reversed, is a script of cost `cost` for everything from (x, y) to the far corner. */
  ghost predicate Spells(a: seq<string>, b: seq<string>, rev: seq<DiffOp>, x: int, y: int, cost: int) {
    && 0 <= x <= |a| && 0 <= y <= |b|
    && IsScript(Reverse(rev), a[x..], b[y..])
    && Cost(Reverse(rev)) == cost
  }

  lemma Push(a: seq<string>, b: seq<string>, rev: seq<DiffOp>, x: int, y: int, cost: int, o: DiffOp)
    requires Spells(a, b, rev, x, y, cost)
    requires o.op != Insert ==> x > 0 && a[x - 1] == o.text
    requires o.op != Delete ==> y > 0 && b[y - 1] == o.text
    ensures Spells(a, b, rev + [o], if o.op == Insert then x else x - 1, if o.op == Delete then y else y - 1,
                   if o.op == Keep then cost else cost + 1)
  {
    PushSides(rev, o);
  }

  /** A furthest point is the end of the snake its round took from the snapshot, so the way back is known. */
  lemma WayBack(a: seq<string>, b: seq<string>, v: map<int, int>, d: int, x: int, y: int)
    requires d > 0 && Snapshot(a, b, v, d) && Furthest(a, b, d, x - y, x)
    ensures -d <= x - y <= d
    ensures var k := x - y;
            var s := SnakeStart(v, k);
            && 0 <= s <= x && s - k >= 0
            && Slide(a, b, k, s) == x
            && (Down(v, k) ==> k + 1 in v && s == v[k + 1] && s - (k + 1) >= 0 && Furthest(a, b, d - 1, k + 1, s))
            && (!Down(v, k) ==> k - 1 in v && s == v[k - 1] + 1 > 0 && Furthest(a, b, d - 1, k - 1, s - 1))
  {
    assert ReachOn(a, b, d, x - y, x);
    ReachDiagonals(a, b, d, x, y);
    StartReached(a, b, v, d, x - y);
    GreedyStep(a, b, v, d, x - y);
    var k := x - y;
    if Down(v, k) {
      assert Furthest(a, b, d - 1, k + 1, v[k + 1]);
    } else {
      assert Furthest(a, b, d - 1, k - 1, v[k - 1]);
    }
  }

  /** At distance 0 only the common prefix is reachable. */
  lemma {:induction false} ReachZero(a: seq<string>, b: seq<string>, x: int, y: int)
    requires Reach(a, b, 0, x, y)
    ensures 0 <= x == y <= |a| && y <= |b|
    ensures forall i :: 0 <= i < x ==> a[i] == b[i]
    decreases x + y
  {
    if x > 0 || y > 0 {
      assert !Reach(a, b, -1, x - 1, y) && !Reach(a, b, -1, x, y - 1);
      ReachZero(a, b, x - 1, y - 1);
    }
  }

  /** Undo a snake: matching lines back to (xPrev, y) after a move down, to (x, yPrev) after a move right. */
  method UnwindSnake(a: seq<string>, b: seq<string>, x0: int, y0: int, xPrev: int, yPrev: int, rev0: seq<DiffOp>,
                     ghost k: int, ghost start: int, ghost cost: int)
    returns (x: int, y: int, rev: seq<DiffOp>)
    requires k == x0 - y0
    requires (start == xPrev && start - k == yPrev + 1) || (start == xPrev + 1 && start - k == yPrev)
    requires start <= x0 && forall i :: start <= i < x0 ==> Match(a, b, k, i)
    requires Spells(a, b, rev0, x0, y0, cost)
    ensures x == start && x - y == k
    ensures Spells(a, b, rev, x, y, cost)
  {
    x, y, rev := x0, y0, rev0;
    while x > xPrev && y > yPrev
      invariant start <= x <= x0 && x - y == k
      invariant Spells(a, b, rev, x, y, cost)
      decreases x - xPrev
    {
      assert Match(a, b, k, x - 1);
      Push(a, b, rev, x, y, cost, DiffOp(Keep, a[x - 1]));
      rev := rev + [DiffOp(Keep, a[x - 1])];
      x, y := x - 1, y - 1;
    }
  }

  /** Undo one round: the snake back to its start, then the insertion or deletion before it. */
  method StepBack(a: seq<string>, b: seq<string>, vPrev: map<int, int>, d: int, x0: int, y0: int,
                  rev0: seq<DiffOp>, ghost cost: int)
    returns (x: int, y: int, rev: seq<DiffOp>)
    requires d > 0 && Snapshot(a, b, vPrev, d) && Furthest(a, b, d, x0 - y0, x0)
    requires Spells(a, b, rev0, x0, y0, cost)
    ensures Furthest(a, b, d - 1, x - y, x)
    ensures Spells(a, b, rev, x, y, cost + 1)
  {
    var k := x0 - y0;
    var down := k - 1 !in vPrev || (k + 1 in vPrev && vPrev[k - 1] < vPrev[k + 1]);
    var kPrev := if down then k + 1 else k - 1;
    WayBack(a, b, vPrev, d, x0, y0);
    var xPrev := if kPrev in vPrev then vPrev[kPrev] else 0;
    var yPrev := xPrev - kPrev;
    x, y, rev := UnwindSnake(a, b, x0, y0, xPrev, yPrev, rev0, k, SnakeStart(vPrev, k), cost);
    var o := if down then DiffOp(Insert, b[y - 1]) else DiffOp(Delete, a[x - 1]);
    Push(a, b, rev, x, y, cost, o);
    rev := rev + [o];
    if down {
      y := y - 1;
    } else {
      x := x - 1;
    }
  }

  method Backtrack(a: seq<string>, b: seq<string>, trace: seq<map<int, int>>) returns (ops: seq<DiffOp>)
    requires |trace| > 0
    requires forall d :: 0 <= d < |trace| ==> Snapshot(a, b, trace[d], d)
    requires Furthest(a, b, |trace| - 1, |a| - |b|, |a|)
    ensures IsScript(ops, a, b)
    ensures Cost(ops) == |trace| - 1
  {
    var rev: seq<DiffOp> := [];
    var x, y := |a|, |b|;
    var d := |trace| - 1;
    while d > 0 && (x > 0 || y > 0)
      invariant 0 <= d < |trace|
      invariant Furthest(a, b, d, x - y, x)
      invariant Spells(a, b, rev, x, y, |trace| - 1 - d)
      decreases d
    {
      x, y, rev := StepBack(a, b, trace[d], d, x, y, rev, |trace| - 1 - d);
      d := d - 1;
    }
    assert ReachOn(a, b, d, x - y, x);
    assert d == 0;
    ReachZero(a, b, x, y);
    while x > 0 && y > 0 && a[x - 1] == b[y - 1]
      invariant 0 <= x == y <= |a| && y <= |b|
      invariant Spells(a, b, rev, x, y, |trace| - 1)
      decreases x
    {
      Push(a, b, rev, x, y, |trace| - 1, DiffOp(Keep, a[x - 1]));
      rev := rev + [DiffOp(Keep, a[x - 1])];
      x, y := x - 1, y - 1;
    }
    ops := Reverse(rev);
  }

  /**
   The diff of two texts: it spells both sides line for line, and no script that does so has fewer
   insertions and deletions.
   */
  method LineDiff(oldText: Option<string>, newText: Option<string>) returns (ops: seq<DiffOp>)
    ensures IsShortestScript(ops, Lines(oldText), Lines(newText))
  {
    var a, b := Lines(oldText), Lines(newText);
    if |a| == 0 && |b| == 0 {
      return [];
    }
    var trace := Search(a, b);
    ops := Backtrack(a, b, trace);
    CheapestIsShortest(a, b, ops);
  }

  /** Counts of additions and deletions; equal lines do not count. */
  method DiffStats(ops: seq<DiffOp>) returns (adds: nat, dels: nat)
    ensures adds == Count(ops, Insert) && dels == Count(ops, Delete)
    ensures dels + |NewSide(ops)| == adds + |OldSide(ops)|
  {
    adds, dels := 0, 0;
    for i := 0 to |ops|
      invariant adds == Count(ops[..i], Insert) && dels == Count(ops[..i], Delete)
      invariant dels + |NewSide(ops[..i])| == adds + |OldSide(ops[..i])|
    {
      assert ops[..i + 1] == ops[..i] + [ops[i]];
      SnocCounts(ops[..i], ops[i]);
      SnocSides(ops[..i], ops[i]);
      if ops[i].op == Insert {
        adds := adds + 1;
      } else if ops[i].op == Delete {
        dels := dels + 1;
      }
    }
    assert ops[..|ops|] == ops;
  }

  lemma SnocCounts(ops: seq<DiffOp>, o: DiffOp)
    ensures forall op :: Count(ops + [o], op) == Count(ops, op) + (if o.op == op then 1 else 0)
  {
    if ops != [] {
      SnocCounts(ops[1..], o);
      assert (ops + [o])[1..] == ops[1..] + [o];
    }
  }
}
