/**
 The exact stitch: what the cut of EventArchive means when the ring is a suffix of the live log and the file
 holds the log's persisted events in order.
 */
module EventStitch {
  import opened Text
  import opened EventArchive

  /**
   A live log with the file replayed from it. `written[i]`: the file holds a twin of event `i`. The current
   segment starts at `segment`, its file opens with `prelude` replay-only events, and everything at or above
   `flushed` is not on disk yet. The ring holds the log from `trimmed` on.
   */
  datatype World = World(
    log: seq<Event>, written: seq<bool>, segment: int, trimmed: int, flushed: int,
    flat: seq<Event>, prelude: int)

  /** How many events of the segment below `i` the file holds. */
  function Taken(w: World, i: int): (n: int)
    requires |w.written| == |w.log| && 0 <= w.segment <= i <= |w.log|
    ensures 0 <= n <= i - w.segment
    decreases i
  {
    if i == w.segment then 0 else Taken(w, i - 1) + if w.written[i - 1] then 1 else 0
  }

  /** Where event `i`'s twin is, or would be. */
  function Place(w: World, i: int): int
    requires |w.written| == |w.log| && 0 <= w.segment <= i <= |w.log|
  {
    w.prelude + Taken(w, i)
  }

  /** Same prompt-or-not, same name. */
  predicate Twin(copy: Event, ev: Event) {
    IsOuterUserEcho(copy) == IsOuterUserEcho(ev) && CorrelationKey(copy) == CorrelationKey(ev)
  }

  ghost predicate Shaped(w: World) {
    && |w.written| == |w.log|
    && 0 <= w.segment <= w.flushed <= |w.log| && w.segment <= w.trimmed <= |w.log|
    && 0 <= w.prelude <= |w.flat| == Place(w, |w.log|)
  }

  /** The live side: dense seqs, every outer echo carries its ordinal. */
  ghost predicate LiveLog(log: seq<Event>) {
    forall i :: 0 <= i < |log| ==>
      log[i].seqNo == i && (IsOuterUserEcho(log[i]) ==> log[i].userIndex == Some(Echoes(log, i)))
  }

  /** The file side: the twins of the written events, in order, above the prelude. */
  ghost predicate Mirrors(w: World)
    requires Shaped(w)
  {
    forall i :: w.segment <= i < |w.log| && w.written[i] ==>
      Place(w, i) < |w.flat| && Twin(w.flat[Place(w, i)], w.log[i])
  }

  /** What can be written, and that a flush takes every outer echo below it. */
  ghost predicate Persists(w: World)
    requires Shaped(w)
  {
    forall i :: w.segment <= i < |w.log| ==>
      && (w.written[i] ==> !NeverPersisted(w.log[i]) && i < w.flushed)
      && (IsOuterUserEcho(w.log[i]) && i < w.flushed ==> w.written[i])
  }

  /** Replay can produce it, and its content has a name. */
  predicate Named(ev: Event) {
    !NeverPersisted(ev) && CorrelationKey(ev).Some?
  }

  /** The key of an event replay can produce names that event alone in the segment, and none of the prelude. */
  ghost predicate UniqueKeys(w: World)
    requires Shaped(w)
  {
    && (forall i, j :: w.segment <= i < |w.log| && w.segment <= j < |w.log| && i != j && Named(w.log[i]) ==>
          CorrelationKey(w.log[i]) != CorrelationKey(w.log[j]))
    && (forall i, k :: w.segment <= i < |w.log| && 0 <= k < w.prelude && CorrelationKey(w.log[i]).Some? ==>
          CorrelationKey(w.log[i]) != CorrelationKey(w.flat[k]))
  }

  ghost predicate Valid(w: World) {
    && Shaped(w) && LiveLog(w.log) && Stamped(w.flat)
    && Mirrors(w) && Persists(w) && UniqueKeys(w)
    // a first segment's file opens with no echo of its own
    && (w.segment == 0 ==> Echoes(w.flat, w.prelude) == 0)
  }

  function Ring(w: World): seq<Event>
    requires 0 <= w.trimmed <= |w.log|
  {
    w.log[w.trimmed..]
  }

  /** File ordinal minus live ordinal, as it really is. */
  function TrueOffset(w: World): int
    requires |w.written| == |w.log| && 0 <= w.segment <= |w.log| && 0 <= w.prelude <= |w.flat|
  {
    Echoes(w.flat, w.prelude) - Echoes(w.log, w.segment)
  }

  // ---------------------------------------------------------------------------------------------
  // Counting twins
  // ---------------------------------------------------------------------------------------------

  lemma {:induction false} TakenGrows(w: World, i: int, j: int)
    requires Shaped(w) && w.segment <= i <= j <= |w.log|
    ensures Taken(w, i) <= Taken(w, j)
    ensures i < j && w.written[i] ==> Taken(w, i) < Taken(w, j)
    decreases j
  {
    if i < j {
      TakenGrows(w, i, j - 1);
    }
  }

  /** Nothing written in between: the place does not move. */
  lemma {:induction false} TakenStands(w: World, i: int, j: int)
    requires Shaped(w) && w.segment <= i <= j <= |w.log|
    requires forall k :: i <= k < j ==> !w.written[k]
    ensures Taken(w, i) == Taken(w, j)
    decreases j
  {
    if i < j {
      TakenStands(w, i, j - 1);
    }
  }

  /** Every file event above the prelude is some written event's twin. */
  lemma {:induction false} TwinOf(w: World, k: int, n: int) returns (i: int)
    requires Shaped(w) && w.segment <= n <= |w.log| && w.prelude <= k < Place(w, n)
    ensures w.segment <= i < n && w.written[i] && Place(w, i) == k
    decreases n
  {
    if w.written[n - 1] && Place(w, n - 1) == k {
      i := n - 1;
    } else {
      i := TwinOf(w, k, n - 1);
    }
  }

  /** A key of the segment is found at its event's place, and only if that event was written. */
  lemma KeyPlace(w: World, i: int)
    requires Valid(w) && w.segment <= i < |w.log| && CorrelationKey(w.log[i]).Some?
    ensures var hit := FirstWithKey(w.flat, CorrelationKey(w.log[i]).value, 0);
            hit.Some? ==> w.written[i] && hit.value == Place(w, i)
  {
    var key := CorrelationKey(w.log[i]).value;
    FirstWithKeyFinds(w.flat, key, 0);
    var hit := FirstWithKey(w.flat, key, 0);
    if hit.Some? {
      assert CorrelationKey(w.flat[hit.value]) == CorrelationKey(w.log[i]);
      if hit.value >= w.prelude {
        var j := TwinOf(w, hit.value, |w.log|);
        assert Twin(w.flat[Place(w, j)], w.log[j]);
      }
    }
  }

  // ---------------------------------------------------------------------------------------------
  // Counting echoes
  // ---------------------------------------------------------------------------------------------

  /** The file's echo count at an event's place: the live count, up to the flush. */
  lemma {:induction false} EchoesAt(w: World, i: int)
    requires Shaped(w) && Mirrors(w) && Persists(w) && w.segment <= i <= |w.log|
    ensures w.prelude <= Place(w, i) <= |w.flat|
    ensures Echoes(w.flat, Place(w, i)) == Echoes(w.log, Min(i, w.flushed)) + TrueOffset(w)
    decreases i
  {
    PlaceInFile(w, i);
    if i > w.segment {
      PlaceInFile(w, i - 1);
      EchoesAt(w, i - 1);
      EchoStep(w, i - 1);
    }
  }

  lemma PlaceInFile(w: World, i: int)
    requires Shaped(w) && w.segment <= i <= |w.log|
    ensures w.prelude <= Place(w, i) <= |w.flat|
  {
    TakenGrows(w, i, |w.log|);
  }

  /** One event further: both counts step together, below the flush. */
  lemma EchoStep(w: World, i: int)
    requires Shaped(w) && Mirrors(w) && Persists(w) && w.segment <= i < |w.log|
    requires Place(w, i + 1) <= |w.flat|
    ensures Echoes(w.flat, Place(w, i + 1)) - Echoes(w.flat, Place(w, i))
            == Echoes(w.log, Min(i + 1, w.flushed)) - Echoes(w.log, Min(i, w.flushed))
  {
    if w.written[i] {
      assert Twin(w.flat[Place(w, i)], w.log[i]);
    }
  }

  /** With no echo in between the live count stands. */
  lemma {:induction false} EchoesStand(log: seq<Event>, i: int, j: int)
    requires 0 <= i <= j <= |log| && forall k :: i <= k < j ==> !IsOuterUserEcho(log[k])
    ensures Echoes(log, i) == Echoes(log, j)
    decreases j
  {
    if i < j {
      EchoesStand(log, i, j - 1);
    }
  }

  /** The `anchor`-th echo is where the count steps over `anchor`, and nowhere else. */
  lemma {:induction false} EchoAt(flat: seq<Event>, anchor: int, i: int)
    requires 0 <= i <= |flat| && 0 <= anchor
    ensures anchor < Echoes(flat, i) ==> EchoIndex(flat, anchor, 0) < i
    ensures Echoes(flat, i) <= anchor ==> i <= EchoIndex(flat, anchor, 0)
    decreases i
  {
    EchoIndexFinds(flat, anchor, 0);
    var r := EchoIndex(flat, anchor, 0);
    if Echoes(flat, i) <= anchor && r < i {
      EchoesMonotone(flat, r + 1, i);
      assert false;
    }
    if anchor < Echoes(flat, i) {
      if anchor < Echoes(flat, i - 1) {
        EchoAt(flat, anchor, i - 1);
      } else {
        assert IsOuterUserEcho(flat[i - 1]) && Echoes(flat, i - 1) == anchor;
      }
    }
  }

  // ---------------------------------------------------------------------------------------------
  // Each way of choosing the cut
  // ---------------------------------------------------------------------------------------------

  /** A correlated cut is exactly the head's place. */
  lemma {:induction false} CorrelatedIsExact(w: World, i: int)
    requires Valid(w) && w.trimmed <= i <= |w.log|
    requires CorrelatedCut(w.log[i..], w.flat) != -1
    ensures CorrelatedCut(w.log[i..], w.flat) == Place(w, i)
    decreases |w.log| - i
  {
    var ring := w.log[i..];
    if NeverPersisted(ring[0]) {
      assert ring[1..] == w.log[i + 1..];
      CorrelatedIsExact(w, i + 1);
      assert !w.written[i];
    } else {
      KeyPlace(w, i);
    }
  }

  /** Written events of the segment and the prelude all lie below a place past the flush. */
  lemma PlaceAtEnd(w: World, i: int)
    requires Shaped(w) && Persists(w) && w.segment <= i <= |w.log| && w.flushed <= i
    ensures Place(w, i) == |w.flat|
  {
    TakenStands(w, i, |w.log|);
  }

  /** The ordinal of the prompt at the ring head, in the file. */
  function HeadOrdinal(w: World): (n: int)
    requires |w.written| == |w.log| && 0 <= w.segment <= w.trimmed <= |w.log| && 0 <= w.prelude <= |w.flat|
    ensures 0 <= n
  {
    EchoesMonotone(w.log, w.segment, w.trimmed);
    Echoes(w.log, w.trimmed) + TrueOffset(w)
  }

  /** A cut before the echo with that ordinal is exact, whether or not the echo is on disk yet. */
  lemma EchoCutIsExact(w: World)
    requires Shaped(w) && Mirrors(w) && Persists(w)
    requires w.trimmed < |w.log| ==> IsOuterUserEcho(w.log[w.trimmed])
    ensures EchoCut(w.flat, HeadOrdinal(w), false) == Place(w, w.trimmed)
  {
    var tb := w.trimmed;
    EchoesAt(w, tb);
    EchoesMonotone(w.log, Min(tb, w.flushed), tb);
    EchoAt(w.flat, HeadOrdinal(w), Place(w, tb));
    if tb < w.flushed {
      EchoesAt(w, tb + 1);
      EchoAt(w.flat, HeadOrdinal(w), Place(w, tb + 1));
    } else {
      PlaceAtEnd(w, tb);
    }
  }

  /** A cut just after the echo before it takes too little at most: never an event the ring serves. */
  lemma AfterEchoIsBelow(w: World)
    requires Shaped(w) && Mirrors(w) && Persists(w)
    ensures EchoCut(w.flat, HeadOrdinal(w) - 1, true) <= Place(w, w.trimmed)
  {
    var tb := w.trimmed;
    EchoesAt(w, tb);
    if HeadOrdinal(w) > 0 {
      if tb < w.flushed {
        EchoAt(w.flat, HeadOrdinal(w) - 1, Place(w, tb));
      } else {
        PlaceAtEnd(w, tb);
      }
    }
  }

  /** The first retained echo has the ordinal the count at the ring head says. */
  lemma {:induction false} FirstOrdinal(log: seq<Event>, i: int)
    requires LiveLog(log) && 0 <= i <= |log|
    ensures FirstEchoOrdinal(log[i..], Echoes(log, |log|)) == Echoes(log, i)
    decreases |log| - i
  {
    if i < |log| && !IsOuterUserEcho(log[i]) {
      assert log[i..][1..] == log[i + 1..];
      FirstOrdinal(log, i + 1);
    }
  }

  /** The latest echo the calibration walk remembers at `i`. */
  ghost predicate Remembers(w: World, i: int, echo: Option<int>)
    requires 0 <= i <= |w.log|
  {
    echo.Some? ==> echo.value == Echoes(w.log, i) - 1 && 0 <= w.segment <= i && Echoes(w.log, w.segment) <= echo.value
  }

  /** A measured offset is the true one, however many replay-only echoes the file opens with. */
  lemma {:induction false} OffsetIsTrue(w: World, i: int, echo: Option<int>)
    requires Shaped(w) && LiveLog(w.log) && Stamped(w.flat) && w.trimmed <= i <= |w.log| && Remembers(w, i, echo)
    requires forall k :: w.trimmed <= k < |w.log| ==> KeyHere(w, k)
    requires EchoOffset(w.log[i..], w.flat, echo).Some?
    ensures EchoOffset(w.log[i..], w.flat, echo).value == TrueOffset(w)
    decreases |w.log| - i
  {
    var ev := w.log[i];
    assert w.log[i..][0] == ev && w.log[i..][1..] == w.log[i + 1..];
    if ev.child {
      OffsetIsTrue(w, i + 1, echo);
    } else if IsOuterUserEcho(ev) {
      EchoRemembered(w, i);
      OffsetIsTrue(w, i + 1, ev.userIndex);
    } else if echo.None? || CorrelationKey(ev).None? || FirstWithKey(w.flat, CorrelationKey(ev).value, 0).None? {
      OffsetIsTrue(w, i + 1, echo);
    } else {
      assert KeyHere(w, i);
    }
  }

  lemma EchoRemembered(w: World, i: int)
    requires Shaped(w) && LiveLog(w.log) && w.trimmed <= i < |w.log| && IsOuterUserEcho(w.log[i])
    requires Remembers(w, i, None) && w.segment <= i
    ensures Remembers(w, i + 1, w.log[i].userIndex)
  {
    EchoesMonotone(w.log, w.segment, i);
  }

  /** Where `i`'s content is found in the file, the prompts so far are the live ones, shifted. */
  ghost predicate KeyHere(w: World, i: int)
    requires Shaped(w) && w.segment <= i < |w.log|
  {
    CorrelationKey(w.log[i]).Some? && !IsOuterUserEcho(w.log[i]) ==>
      var hit := FirstWithKey(w.flat, CorrelationKey(w.log[i]).value, 0);
      hit.Some? ==> 0 <= hit.value < |w.flat| && Echoes(w.flat, hit.value + 1) == Echoes(w.log, i) + TrueOffset(w)
  }

  /** At the event that correlates, the last prompt of the file is the last prompt of the log. */
  lemma OffsetHere(w: World, i: int)
    requires Valid(w) && w.segment <= i < |w.log|
    ensures KeyHere(w, i)
  {
    if CorrelationKey(w.log[i]).Some? && !IsOuterUserEcho(w.log[i]) {
      KeyPlace(w, i);
      if FirstWithKey(w.flat, CorrelationKey(w.log[i]).value, 0).Some? {
        EchoesPast(w, i);
      }
    }
  }

  lemma EchoesPast(w: World, i: int)
    requires Shaped(w) && Mirrors(w) && Persists(w) && w.segment <= i < |w.log| && w.written[i]
    requires !IsOuterUserEcho(w.log[i])
    ensures 0 <= Place(w, i) < |w.flat| && Echoes(w.flat, Place(w, i) + 1) == Echoes(w.log, i) + TrueOffset(w)
  {
    EchoesAt(w, i);
    TakenGrows(w, i, |w.log|);
    assert Twin(w.flat[Place(w, i)], w.log[i]);
  }

  lemma MeasuredOffset(w: World)
    requires Valid(w) && OffsetFor(w.flat, Ring(w), w.segment).Some?
    ensures OffsetFor(w.flat, Ring(w), w.segment).value == TrueOffset(w)
  {
    if w.segment > 0 {
      forall k | w.trimmed <= k < |w.log| ensures KeyHere(w, k) {
        OffsetHere(w, k);
      }
      OffsetIsTrue(w, w.trimmed, None);
    }
  }

  // ---------------------------------------------------------------------------------------------
  // The results
  // ---------------------------------------------------------------------------------------------

  function AnchorIn(w: World): Anchor
    requires 0 <= w.trimmed <= |w.log|
  {
    AnchorOf(w.flat, Ring(w), Echoes(w.log, |w.log|), OffsetFor(w.flat, Ring(w), w.segment))
  }

  /** An echo-anchored or correlated cut takes exactly the twins of the evicted prefix; the fallback never more. */
  lemma AnchorIsExact(w: World)
    requires Valid(w)
    ensures AnchorIn(w).AtEcho? || AnchorIn(w).Correlated? ==> AnchorIn(w).cut == Place(w, w.trimmed)
    ensures AnchorIn(w).AfterEcho? ==> AnchorIn(w).cut <= Place(w, w.trimmed)
  {
    var ring := Ring(w);
    var offset := OffsetFor(w.flat, ring, w.segment);
    if offset.Some? {
      MeasuredOffset(w);
    }
    if ring == [] {
      EchoCutIsExact(w);
    } else if IsOuterUserEcho(ring[0]) && ring[0].userIndex.Some? {
      EchoCutIsExact(w);
    } else if CorrelatedCut(ring, w.flat) != -1 {
      CorrelatedIsExact(w, w.trimmed);
    } else {
      FirstOrdinal(w.log, w.trimmed);
      AfterEchoIsBelow(w);
    }
  }

  /** The file position `k` holds the twin of a written event below `bound` (or prelude). */
  ghost predicate Evicted(w: World, k: int, bound: int)
    requires Shaped(w) && 0 <= k < |w.flat|
  {
    k < w.prelude || exists i :: w.segment <= i < bound && i < |w.log| && w.written[i] && Place(w, i) == k
  }

  /** What is served of a file whose replay is the world's file side. */
  function ArchiveIn(w: World, file: seq<seq<Event>>): Archive
    requires 0 <= w.trimmed <= |w.log|
  {
    ArchiveOf(Some(file), Ring(w), w.trimmed, Echoes(w.log, |w.log|), w.segment)
  }

  /**
   What is served below the ring: no event the ring serves too, no seq the ring uses, and -- unless a gap is
   marked -- every evicted event the file holds.
   */
  lemma ExactStitch(w: World, file: seq<seq<Event>>)
    requires Valid(w) && w.flat == StampAll(Concat(file))
    ensures var a := ArchiveIn(w, file);
            && |a.events| == |w.flat|
            && (forall k :: 0 <= k < a.cut ==> Evicted(w, k, w.trimmed) && a.events[k].seqNo == k < w.trimmed)
            && (!a.gap ==> forall i :: w.segment <= i < w.trimmed && w.written[i] ==> Place(w, i) < a.cut)
  {
    CutIsBelow(w, file);
    BelowIsEvicted(w, ArchiveIn(w, file).cut);
    EvictedIsBelow(w);
  }

  lemma CutIsBelow(w: World, file: seq<seq<Event>>)
    requires Valid(w) && w.flat == StampAll(Concat(file))
    ensures ArchiveIn(w, file).cut <= Place(w, w.trimmed) <= |w.flat|
    ensures !ArchiveIn(w, file).gap ==> ArchiveIn(w, file).cut == Place(w, w.trimmed)
  {
    AnchorIsExact(w);
    EchoesAt(w, w.trimmed);
  }

  lemma BelowIsEvicted(w: World, cut: int)
    requires Shaped(w) && w.segment <= w.trimmed <= |w.log| && cut <= Place(w, w.trimmed) <= |w.flat|
    ensures forall k :: 0 <= k < cut ==> Evicted(w, k, w.trimmed)
  {
    forall k | 0 <= k < cut ensures Evicted(w, k, w.trimmed) {
      if k >= w.prelude {
        var i := TwinOf(w, k, w.trimmed);
      }
    }
  }

  lemma EvictedIsBelow(w: World)
    requires Shaped(w) && w.segment <= w.trimmed <= |w.log|
    ensures forall i :: w.segment <= i < w.trimmed && w.written[i] ==> Place(w, i) < Place(w, w.trimmed)
  {
    forall i | w.segment <= i < w.trimmed && w.written[i] ensures Place(w, i) < Place(w, w.trimmed) {
      TakenGrows(w, i, w.trimmed);
    }
  }

  /** What the clamp drops is marked; with no gap marked the served cut is the exact one. */
  lemma ClampMarks(w: World, file: seq<seq<Event>>)
    requires Valid(w) && w.flat == StampAll(Concat(file)) && !AnchorIn(w).Uncalibrated?
    ensures ArchiveIn(w, file).cut != AnchorIn(w).cut ==> ArchiveIn(w, file).gap
    ensures !ArchiveIn(w, file).gap ==> ArchiveIn(w, file).cut == Place(w, w.trimmed)
  {
    AnchorIsExact(w);
  }

  /** A written prompt's ordinal in the file is its live ordinal, shifted by the true offset. */
  lemma FileOrdinal(w: World, i: int)
    requires Shaped(w) && Mirrors(w) && Persists(w) && Stamped(w.flat)
    requires w.segment <= i < |w.log| && w.written[i] && IsOuterUserEcho(w.log[i])
    ensures 0 <= Place(w, i) < |w.flat| && IsOuterUserEcho(w.flat[Place(w, i)])
    ensures w.flat[Place(w, i)].userIndex == Some(Echoes(w.log, i) + TrueOffset(w))
  {
    EchoesAt(w, i);
    assert Twin(w.flat[Place(w, i)], w.log[i]);
  }

  /** A served prompt carries the ordinal the live log gave it. */
  lemma ServedOrdinals(w: World, file: seq<seq<Event>>, i: int)
    requires Valid(w) && w.flat == StampAll(Concat(file)) && !AnchorIn(w).Uncalibrated?
    requires w.segment <= i < |w.log| && w.written[i] && IsOuterUserEcho(w.log[i])
    requires OffsetFor(w.flat, Ring(w), w.segment).Some?
    ensures ServesLive(w, ArchiveIn(w, file).events, i)
  {
    FileOrdinal(w, i);
    MeasuredOffset(w);
    RestampServes(w, i);
    assert ArchiveIn(w, file).events == if w.segment == 0 then w.flat else RestampToLive(w.flat, Some(TrueOffset(w)));
  }

  /** The event served at `i`'s place carries `i`'s live ordinal. */
  ghost predicate ServesLive(w: World, events: seq<Event>, i: int)
    requires Shaped(w) && w.segment <= i < |w.log|
  {
    0 <= Place(w, i) < |events| && events[Place(w, i)].userIndex == w.log[i].userIndex
  }

  lemma RestampServes(w: World, i: int)
    requires Shaped(w) && LiveLog(w.log) && w.segment <= i < |w.log| && IsOuterUserEcho(w.log[i])
    requires 0 <= Place(w, i) < |w.flat| && IsOuterUserEcho(w.flat[Place(w, i)])
    requires w.flat[Place(w, i)].userIndex == Some(Echoes(w.log, i) + TrueOffset(w))
    ensures TrueOffset(w) == 0 ==> ServesLive(w, w.flat, i)
    ensures ServesLive(w, RestampToLive(w.flat, Some(TrueOffset(w))), i)
  {
    var k := Place(w, i);
    assert RestampToLive(w.flat, Some(TrueOffset(w)))[k] == Restamped(w.flat[k], Some(TrueOffset(w)));
  }

  // ---------------------------------------------------------------------------------------------
  // An ordinary log
  // ---------------------------------------------------------------------------------------------

  function Plain(seqNo: int, kind: string, userIndex: Option<int>): Event {
    Event(seqNo, kind, "", false, None, None, None, "", "", false, userIndex)
  }

  function InBlock(seqNo: int, kind: string): Event {
    Event(seqNo, kind, "", false, None, Some("m"), Some(0), "", "", false, None)
  }

  /** A prompt, a tool call whose input streams in two chunks, and the finished call; the ring opens at the first chunk. */
  const STREAMED: World := World(
    [Plain(0, "user_echo", Some(0)), InBlock(1, "tool_use_input_delta"), InBlock(2, "tool_use_input_delta"),
     InBlock(3, "tool_use")],
    [true, false, false, true], 0, 1, 4,
    [Plain(0, "user_echo", Some(0)), InBlock(1, "tool_use")], 0)

  lemma BlockIs(seqNo: int, kind: string)
    requires kind == "tool_use" || kind == "tool_use_input_delta"
    ensures var ev := InBlock(seqNo, kind);
            && CorrelationKey(ev) == Some(Block(kind, "m", 0)) && !IsOuterUserEcho(ev)
            && (NeverPersisted(ev) <==> kind == "tool_use_input_delta")
  {
    assert kind[0] == 't' && "user_echo"[0] == 'u' && "system"[0] == 's';
    assert kind[5] == 'u' && "tool_result"[5] == 'r' && "turn_boundary"[5] == 'b';
    assert |"tool_use"| == 8 && |"turn_end"| == 8 && "turn_end"[1] == 'u' && kind[1] == 'o';
  }

  lemma EchoIs(seqNo: int, index: Option<int>)
    ensures var ev := Plain(seqNo, "user_echo", index);
            CorrelationKey(ev) == None && IsOuterUserEcho(ev) && !NeverPersisted(ev)
  {
    assert "user_echo"[0] == 'u' && "tool_result"[0] == 't' && "system"[0] == 's' && "turn_boundary"[0] == 't';
    assert |"user_echo"| == 9;
  }

  lemma StreamedEvents()
    ensures var log := STREAMED.log;
            && |log| == 4 && IsOuterUserEcho(log[0]) && !NeverPersisted(log[0]) && CorrelationKey(log[0]) == None
            && (forall i :: 1 <= i < 4 ==> !IsOuterUserEcho(log[i]) && CorrelationKey(log[i]) == Some(Block(log[i].kind, "m", 0)))
            && NeverPersisted(log[1]) && NeverPersisted(log[2]) && !NeverPersisted(log[3])
  {
    EchoIs(0, Some(0));
    BlockIs(1, "tool_use_input_delta");
    BlockIs(2, "tool_use_input_delta");
    BlockIs(3, "tool_use");
  }

  lemma StreamedFile()
    ensures var flat := STREAMED.flat;
            && |flat| == 2 && IsOuterUserEcho(flat[0]) && !IsOuterUserEcho(flat[1])
            && CorrelationKey(flat[0]) == None && CorrelationKey(flat[1]) == Some(Block("tool_use", "m", 0))
    ensures Stamped(STREAMED.flat)
  {
    EchoIs(0, Some(0));
    BlockIs(1, "tool_use");
    assert Echoes(STREAMED.flat, 0) == 0;
  }

  /** Four events of one segment, a prompt, two ring-only ones of one key and one more, and the twins of the outer two. */
  ghost predicate FourEvents(w: World, chunk: Key, call: Key) {
    && |w.log| == 4 && w.written == [true, false, false, true] && |w.flat| == 2 && chunk != call
    && w.segment == 0 && w.trimmed == 1 && w.flushed == 4 && w.prelude == 0
    && IsOuterUserEcho(w.log[0]) && !NeverPersisted(w.log[0]) && CorrelationKey(w.log[0]) == None
    && (forall i :: 1 <= i < 4 ==> !IsOuterUserEcho(w.log[i]))
    && NeverPersisted(w.log[1]) && NeverPersisted(w.log[2]) && !NeverPersisted(w.log[3])
    && CorrelationKey(w.log[1]) == CorrelationKey(w.log[2]) == Some(chunk) && CorrelationKey(w.log[3]) == Some(call)
    && Twin(w.flat[0], w.log[0]) && Twin(w.flat[1], w.log[3])
  }

  lemma FourShaped(w: World, chunk: Key, call: Key)
    requires FourEvents(w, chunk, call)
    ensures Shaped(w) && Place(w, 0) == 0 && Place(w, 3) == 1
  {
    assert Taken(w, 0) == 0 && Taken(w, 1) == 1 && Taken(w, 2) == 1 && Taken(w, 3) == 1 && Taken(w, 4) == 2;
  }

  lemma FourValid(w: World, chunk: Key, call: Key)
    requires FourEvents(w, chunk, call) && LiveLog(w.log) && Stamped(w.flat)
    ensures Valid(w)
  {
    FourShaped(w, chunk, call);
    FourUnique(w, chunk, call);
    assert Mirrors(w) && Persists(w);
    assert Echoes(w.flat, w.prelude) == 0;
  }

  lemma FourUnique(w: World, chunk: Key, call: Key)
    requires FourEvents(w, chunk, call) && Shaped(w)
    ensures UniqueKeys(w)
  {
  }

  lemma FourCut(w: World, chunk: Key, call: Key)
    requires FourEvents(w, chunk, call)
    ensures CorrelatedCut(Ring(w), w.flat) == 1
  {
    var ring := Ring(w);
    assert ring[0] == w.log[1] && ring[1..] == w.log[2..] && ring[1..][1..] == w.log[3..];
    assert FirstWithKey(w.flat, call, 0) == FirstWithKey(w.flat, call, 1) == Some(1);
    assert CorrelatedCut(w.log[3..], w.flat) == 1;
  }

  lemma StreamedIsFour()
    ensures FourEvents(STREAMED, Block("tool_use_input_delta", "m", 0), Block("tool_use", "m", 0))
  {
    StreamedEvents();
    StreamedFile();
    assert |"tool_use"| == 8 && |"tool_use_input_delta"| == 20;
  }

  lemma StreamedLive()
    ensures LiveLog(STREAMED.log)
  {
    StreamedEvents();
    assert Echoes(STREAMED.log, 0) == 0;
  }

  /**
   The hypotheses of the stitch hold of it, although the two chunks share a key; the head scan steps over both and
   finds the exact cut.
   */
  lemma StreamedInputStitches()
    ensures Valid(STREAMED) && CorrelationKey(STREAMED.log[1]) == CorrelationKey(STREAMED.log[2])
    ensures CorrelatedCut(Ring(STREAMED), STREAMED.flat) == 1
  {
    StreamedIsFour();
    StreamedLive();
    StreamedFile();
    FourValid(STREAMED, Block("tool_use_input_delta", "m", 0), Block("tool_use", "m", 0));
    FourCut(STREAMED, Block("tool_use_input_delta", "m", 0), Block("tool_use", "m", 0));
  }
}
