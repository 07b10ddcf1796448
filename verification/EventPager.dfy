/**
 Paging an instance's history (src/eventArchive.ts): one page over the ring, or over the archive below it and the
 ring, and the walk backward through the pages.
 */
module EventPager {
  import opened Text
  import opened EventArchive

  /** A page line: a stored event, or one of the two markers made while paging. */
  datatype Item = Stored(ev: Event) | HistoryGap | TaskCompletion(tasks: seq<string>)

  datatype Completion = Completion(afterSeq: Option<int>, tasks: seq<string>)

  datatype Page = Page(events: seq<Item>, hasMore: bool, nextBefore: int, trimmedBefore: int, lastSeq: int)

  datatype Cursor = Before(seqNo: int) | After(seqNo: int)

  /** The calls into the parser and the task reconstruction: any functions of these types. */
  datatype Helpers = Helpers(
    snapStartToQuiescent: (seq<Event>, int, int, int) -> int,
    lastQuiescentAtOrBefore: (seq<Event>, int, int) -> int,
    hasHeadlessChildIn: (seq<Event>, int, int) -> bool,
    reconstructTasks: seq<Event> -> seq<Completion>)

  /** All that is known of the quiescence search. */
  ghost predicate Fair(h: Helpers) {
    && (forall c, i, j, r :: h.snapStartToQuiescent(c, i, j, r) >= 0)
    && (forall c, i, r :: 0 <= i ==> 0 <= h.lastQuiescentAtOrBefore(c, i, r) <= i)
  }

  const LIMIT_DEFAULT := 200
  const LIMIT_MAX := 500

  /** `None`: not an integer. */
  function ClampLimit(n: Option<int>): (limit: int)
    ensures 1 <= limit <= LIMIT_MAX
    ensures n.Some? && 1 <= n.value <= LIMIT_MAX ==> limit == n.value
    ensures n.Some? && n.value > LIMIT_MAX ==> limit == LIMIT_MAX
    ensures n.None? || n.value < 1 ==> limit == LIMIT_DEFAULT
  {
    if n.None? || n.value < 1 then LIMIT_DEFAULT else Min(n.value, LIMIT_MAX)
  }

  // ---------------------------------------------------------------------------------------------
  // Seqs
  // ---------------------------------------------------------------------------------------------

  ghost predicate Sorted(events: seq<Event>) {
    forall i, j :: 0 <= i < j < |events| ==> events[i].seqNo < events[j].seqNo
  }

  /** `k` splits the events into those below `s` and those at or above it. */
  ghost predicate SplitsAt(events: seq<Event>, s: int, k: int) {
    && 0 <= k <= |events|
    && (forall i :: 0 <= i < k ==> events[i].seqNo < s)
    && (forall i :: k <= i < |events| ==> s <= events[i].seqNo)
  }

  /** The number of leading events below `s`. */
  function FirstAtOrAbove(events: seq<Event>, s: int): (k: int)
    ensures 0 <= k <= |events|
  {
    if events == [] || events[0].seqNo >= s then 0 else 1 + FirstAtOrAbove(events[1..], s)
  }

  /** In a list sorted by seq that number splits it. */
  lemma {:induction false} SplitIsFirst(events: seq<Event>, s: int, k: int)
    requires SplitsAt(events, s, k)
    ensures FirstAtOrAbove(events, s) == k
  {
    if k > 0 {
      assert forall i :: 0 <= i < |events| - 1 ==> events[1..][i] == events[i + 1];
      SplitIsFirst(events[1..], s, k - 1);
    }
  }

  method FirstIndexAtOrAbove(arr: seq<Event>, s: int) returns (k: int)
    requires Sorted(arr)
    ensures SplitsAt(arr, s, k) && k == FirstAtOrAbove(arr, s)
  {
    var lo, hi := 0, |arr|;
    while lo < hi
      invariant 0 <= lo <= hi <= |arr|
      invariant forall i :: 0 <= i < lo ==> arr[i].seqNo < s
      invariant forall i :: hi <= i < |arr| ==> s <= arr[i].seqNo
    {
      var mid := (lo + hi) / 2;
      if arr[mid].seqNo < s {
        lo := mid + 1;
      } else {
        hi := mid;
      }
    }
    k := lo;
    SplitIsFirst(arr, s, k);
  }

  // ---------------------------------------------------------------------------------------------
  // Page lines
  // ---------------------------------------------------------------------------------------------

  function Plain(events: seq<Event>): (items: seq<Item>)
    ensures |items| == |events|
  {
    seq(|events|, i requires 0 <= i < |events| => Stored(events[i]))
  }

  /** A page without its markers. */
  function Strip(items: seq<Item>): seq<Event> {
    if items == [] then []
    else (if items[0].Stored? then [items[0].ev] else []) + Strip(items[1..])
  }

  /** Where its gap markers stand, counted in stored events from `n`. */
  function Marks(items: seq<Item>, n: int): seq<int> {
    if items == [] then []
    else match items[0]
      case Stored(_) => Marks(items[1..], n + 1)
      case HistoryGap => [n] + Marks(items[1..], n)
      case TaskCompletion(_) => Marks(items[1..], n)
  }

  lemma {:induction false} StripConcat(a: seq<Item>, b: seq<Item>)
    ensures Strip(a + b) == Strip(a) + Strip(b)
  {
    if a == [] {
      assert a + b == b;
    } else {
      assert (a + b)[0] == a[0] && (a + b)[1..] == a[1..] + b;
      StripConcat(a[1..], b);
      var head := if a[0].Stored? then [a[0].ev] else [];
      assert head + (Strip(a[1..]) + Strip(b)) == head + Strip(a[1..]) + Strip(b);
    }
  }

  lemma {:induction false} MarksConcat(a: seq<Item>, b: seq<Item>, n: int)
    ensures Marks(a + b, n) == Marks(a, n) + Marks(b, n + |Strip(a)|)
  {
    if a == [] {
      assert a + b == b;
    } else {
      assert (a + b)[1..] == a[1..] + b;
      MarksConcat(a[1..], b, if a[0].Stored? then n + 1 else n);
    }
  }

  lemma {:induction false} PlainStrips(events: seq<Event>, n: int)
    ensures Strip(Plain(events)) == events
    ensures Marks(Plain(events), n) == []
  {
    if events != [] {
      assert Plain(events)[1..] == Plain(events[1..]);
      PlainStrips(events[1..], n + 1);
    }
  }

  // ---------------------------------------------------------------------------------------------
  // Completion bubbles
  // ---------------------------------------------------------------------------------------------

  /** The later completion of the same seq wins. */
  function BySeq(completions: seq<Completion>): map<int, seq<string>> {
    if completions == [] then map[]
    else
      var m, c := BySeq(completions[..|completions| - 1]), completions[|completions| - 1];
      if c.afterSeq.None? then m else m[c.afterSeq.value := c.tasks]
  }

  function Injected(items: seq<Item>, bySeq: map<int, seq<string>>): seq<Item> {
    if items == [] then []
    else
      var rest := Injected(items[1..], bySeq);
      if items[0].Stored? && items[0].ev.seqNo in bySeq
      then [items[0], TaskCompletion(bySeq[items[0].ev.seqNo])] + rest
      else [items[0]] + rest
  }

  /** A bubble hides nothing and moves no gap marker. */
  lemma {:induction false} InjectionKeeps(items: seq<Item>, bySeq: map<int, seq<string>>, n: int)
    ensures Strip(Injected(items, bySeq)) == Strip(items)
    ensures Marks(Injected(items, bySeq), n) == Marks(items, n)
  {
    if items != [] {
      InjectionKeeps(items[1..], bySeq, if items[0].Stored? then n + 1 else n);
      var rest := Injected(items[1..], bySeq);
      var head := if items[0].Stored? && items[0].ev.seqNo in bySeq
                  then [items[0], TaskCompletion(bySeq[items[0].ev.seqNo])] else [items[0]];
      HeadKeeps(items[0], head, n);
      StripConcat(head, rest);
      MarksConcat(head, rest, n);
      assert items == [items[0]] + items[1..];
      StripConcat([items[0]], items[1..]);
      MarksConcat([items[0]], items[1..], n);
    }
  }

  lemma HeadKeeps(it: Item, head: seq<Item>, n: int)
    requires head == [it] || (|head| == 2 && head[0] == it && head[1].TaskCompletion?)
    ensures Strip(head) == Strip([it]) && Marks(head, n) == Marks([it], n)
    ensures |Strip([it])| == if it.Stored? then 1 else 0
  {
    assert [it][1..] == [];
    if head != [it] {
      assert head[1..] == [head[1]] && head[1..][1..] == [];
    }
  }

  lemma {:induction false} InjectedSnoc(items: seq<Item>, it: Item, bySeq: map<int, seq<string>>)
    ensures Injected(items + [it], bySeq) == Injected(items, bySeq) + Injected([it], bySeq)
  {
    if items == [] {
      assert items + [it] == [it];
    } else {
      assert (items + [it])[1..] == items[1..] + [it];
      InjectedSnoc(items[1..], it, bySeq);
    }
  }

  lemma {:induction false} InjectedNothing(items: seq<Item>)
    ensures Injected(items, map[]) == items
  {
    if items != [] {
      InjectedNothing(items[1..]);
    }
  }

  method InjectTaskCompletions(events: seq<Item>, completions: seq<Completion>) returns (out: seq<Item>)
    ensures out == Injected(events, BySeq(completions))
  {
    if |completions| == 0 || |events| == 0 {
      InjectedNothing(events);
      return events;
    }
    var bySeq: map<int, seq<string>> := map[];
    var i := 0;
    while i < |completions|
      invariant 0 <= i <= |completions| && bySeq == BySeq(completions[..i])
    {
      var c := completions[i];
      assert completions[..i + 1][..i] == completions[..i];
      if c.afterSeq.Some? {
        bySeq := bySeq[c.afterSeq.value := c.tasks];
      }
      i := i + 1;
    }
    assert completions[..|completions|] == completions;
    if |bySeq| == 0 {
      InjectedNothing(events);
      return events;
    }
    out := [];
    i := 0;
    while i < |events|
      invariant 0 <= i <= |events| && out == Injected(events[..i], bySeq)
    {
      var ev := events[i];
      assert events[..i + 1] == events[..i] + [ev];
      InjectedSnoc(events[..i], ev, bySeq);
      out := out + [ev];
      if ev.Stored? && ev.ev.seqNo in bySeq {
        out := out + [TaskCompletion(bySeq[ev.ev.seqNo])];
      }
      i := i + 1;
    }
    assert events[..|events|] == events;
  }

  // ---------------------------------------------------------------------------------------------
  // One page
  // ---------------------------------------------------------------------------------------------

  /** What a page is cut from. `seam`: the index of the first ring event, -1 for no such boundary. */
  datatype Combined = Combined(
    events: seq<Event>, seam: int, gap: bool, floorGap: bool, trimmedBefore: int, lastSeq: int, optimisticMore: bool)

  function SeamAnchor(c: Combined): int { if c.seam >= 0 then c.seam else 0 }

  /** The half-open range of `events` a backward page serves. */
  function BackwardRange(events: seq<Event>, seam: int, before: int, max: int, h: Helpers): (int, int) {
    var end := FirstAtOrAbove(events, before);
    var raw := Max(0, end - max);
    var start := h.snapStartToQuiescent(events, raw, end, seam);
    (if start >= end then h.lastQuiescentAtOrBefore(events, raw, seam) else start, end)
  }

  function ForwardRange(c: Combined, after: int, max: int): (int, int) {
    var start := FirstAtOrAbove(c.events, after + 1);
    (start, Min(start + max, |c.events|))
  }

  function SeamMarked(items: seq<Item>, at: int, hasMore: bool): seq<Item> {
    if 0 <= at <= |items| then items[..at] + [HistoryGap] + items[at..]
    else if at < 0 && !hasMore then items + [HistoryGap]
    else items
  }

  function FloorMarked(items: seq<Item>, start: int, c: Combined, cursor: Cursor): seq<Item> {
    if start == 0 && !(items != [] && items[0].HistoryGap?)
       && (cursor.Before? || cursor.seqNo < 0 || cursor.seqNo + 1 < (if c.events == [] then 0 else c.events[0].seqNo))
    then [HistoryGap] + items else items
  }

  predicate HasMore(c: Combined, cursor: Cursor, start: int, end: int) {
    if cursor.Before? then start > 0 || c.optimisticMore else end < |c.events|
  }

  /** The page over `c.events[start..end]`. */
  function PageOf(c: Combined, cursor: Cursor, start: int, end: int, h: Helpers): Page
    requires 0 <= start <= end <= |c.events|
  {
    var served := c.events[start..end];
    var hasMore := HasMore(c, cursor, start, end);
    var marked := if c.gap then SeamMarked(Plain(served), SeamAnchor(c) - start, hasMore) else Plain(served);
    var floored := if c.floorGap then FloorMarked(marked, start, c, cursor) else marked;
    Page(Injected(floored, BySeq(h.reconstructTasks(c.events))), hasMore,
         if served == [] then 0 else served[0].seqNo, c.trimmedBefore, c.lastSeq)
  }

  function RangeOf(c: Combined, cursor: Cursor, max: int, h: Helpers): (int, int) {
    if cursor.Before? then BackwardRange(c.events, c.seam, cursor.seqNo, max, h) else ForwardRange(c, cursor.seqNo, max)
  }

  lemma RangeInBounds(c: Combined, cursor: Cursor, max: int, h: Helpers)
    requires Fair(h) && 1 <= max
    ensures var (start, end) := RangeOf(c, cursor, max, h);
            && 0 <= start <= end <= |c.events|
            && (cursor.Before? && end > 0 ==> start < end)
  {
  }

  method PageCombined(c: Combined, cursor: Cursor, max: int, h: Helpers) returns (page: Page)
    requires Sorted(c.events) && Fair(h) && 1 <= max
    ensures var (start, end) := RangeOf(c, cursor, max, h);
            0 <= start <= end <= |c.events| && page == PageOf(c, cursor, start, end, h)
  {
    RangeInBounds(c, cursor, max, h);
    var servedStart, end := ChooseRange(c, cursor, max, h);
    page := MarkPage(c, cursor, servedStart, end, h);
  }

  /** The first half of `pageCombined`: the slice to serve. */
  method ChooseRange(c: Combined, cursor: Cursor, max: int, h: Helpers) returns (servedStart: int, end: int)
    requires Sorted(c.events) && Fair(h) && 1 <= max
    ensures (servedStart, end) == RangeOf(c, cursor, max, h)
  {
    if cursor.Before? {
      end := FirstIndexAtOrAbove(c.events, cursor.seqNo);
      var rawStart := Max(0, end - max);
      servedStart := h.snapStartToQuiescent(c.events, rawStart, end, c.seam);
      if servedStart >= end {
        servedStart := h.lastQuiescentAtOrBefore(c.events, rawStart, c.seam);
      }
    } else {
      servedStart := FirstIndexAtOrAbove(c.events, cursor.seqNo + 1);
      end := Min(servedStart + max, |c.events|);
    }
  }

  /** The second half of `pageCombined`: the slice is chosen, the markers go in. */
  method MarkPage(c: Combined, cursor: Cursor, servedStart: int, end: int, h: Helpers) returns (page: Page)
    requires 0 <= servedStart <= end <= |c.events|
    ensures page == PageOf(c, cursor, servedStart, end, h)
  {
    var served := c.events[servedStart..end];
    var hasMore := HasMore(c, cursor, servedStart, end);
    var nextBefore := if |served| > 0 then served[0].seqNo else 0;
    var events := Plain(served);
    if c.gap {
      events := SeamMarked(events, SeamAnchor(c) - servedStart, hasMore);
    }
    if c.floorGap {
      events := FloorMarked(events, servedStart, c, cursor);
    }
    var lines := InjectTaskCompletions(events, h.reconstructTasks(c.events));
    page := Page(lines, hasMore, nextBefore, c.trimmedBefore, c.lastSeq);
  }

  /** Where a page over `[start, end)` shows the seam's gap: at the seam if it touches it. */
  function SeamMarks(c: Combined, cursor: Cursor, start: int, end: int): seq<int> {
    var seam := SeamAnchor(c);
    if !c.gap then []
    else if start <= seam <= end then [seam]
    else if seam < start && !HasMore(c, cursor, start, end) then [end]
    else []
  }

  /** And the floor's: below everything, unless the seam's gap is there already. */
  function MarksIn(c: Combined, cursor: Cursor, start: int, end: int): seq<int> {
    var atFloor := c.floorGap && start == 0 && !(c.gap && SeamAnchor(c) == 0)
                   && (cursor.Before? || cursor.seqNo < 0
                       || cursor.seqNo + 1 < (if c.events == [] then 0 else c.events[0].seqNo));
    (if atFloor then [0] else []) + SeamMarks(c, cursor, start, end)
  }

  /** A page is its range of events, in order and whole, and shows a gap exactly at the seam and at the floor. */
  lemma PageShows(c: Combined, cursor: Cursor, start: int, end: int, h: Helpers)
    requires 0 <= start <= end <= |c.events|
    ensures var page := PageOf(c, cursor, start, end, h);
            && Strip(page.events) == c.events[start..end]
            && Marks(page.events, start) == MarksIn(c, cursor, start, end)
  {
    var served := c.events[start..end];
    var marked := SeamPart(c, cursor, start, end);
    SeamPartShows(c, cursor, start, end);
    if start == 0 {
      SeamPartOpens(c, cursor, end);
    }
    var floored := if c.floorGap then FloorMarked(marked, start, c, cursor) else marked;
    if floored != marked {
      assert floored[1..] == marked;
    }
    InjectionKeeps(floored, BySeq(h.reconstructTasks(c.events)), start);
  }

  /** The page's lines before the floor marker. */
  function SeamPart(c: Combined, cursor: Cursor, start: int, end: int): seq<Item>
    requires 0 <= start <= end <= |c.events|
  {
    var items := Plain(c.events[start..end]);
    if c.gap then SeamMarked(items, SeamAnchor(c) - start, HasMore(c, cursor, start, end)) else items
  }

  lemma SeamPartShows(c: Combined, cursor: Cursor, start: int, end: int)
    requires 0 <= start <= end <= |c.events|
    ensures Strip(SeamPart(c, cursor, start, end)) == c.events[start..end]
    ensures Marks(SeamPart(c, cursor, start, end), start) == SeamMarks(c, cursor, start, end)
  {
    var served := c.events[start..end];
    if c.gap {
      SeamShows(served, SeamAnchor(c) - start, HasMore(c, cursor, start, end), start);
    } else {
      PlainStrips(served, start);
    }
  }

  /** A page from the very start opens with a marker exactly when the seam is there and lossy. */
  lemma SeamPartOpens(c: Combined, cursor: Cursor, end: int)
    requires 0 <= end <= |c.events|
    ensures var marked := SeamPart(c, cursor, 0, end);
            marked != [] && marked[0].HistoryGap? <==> c.gap && SeamAnchor(c) == 0
  {
  }

  lemma SeamShows(served: seq<Event>, at: int, hasMore: bool, n: int)
    ensures var marked := SeamMarked(Plain(served), at, hasMore);
            && Strip(marked) == served
            && Marks(marked, n) == (if 0 <= at <= |served| then [n + at]
                                    else if at < 0 && !hasMore then [n + |served|] else [])
  {
    PlainStrips(served, n);
    if 0 <= at <= |served| {
      GapShows(served, at, n);
    } else if at < 0 && !hasMore {
      GapShows(served, |served|, n);
      var items := Plain(served);
      assert items[..|served|] + [HistoryGap] + items[|served|..] == items + [HistoryGap];
    }
  }

  /** A gap marker put in after `k` of the events. */
  lemma GapShows(served: seq<Event>, k: int, n: int)
    requires 0 <= k <= |served|
    ensures var marked := Plain(served)[..k] + [HistoryGap] + Plain(served)[k..];
            Strip(marked) == served && Marks(marked, n) == [n + k]
  {
    var front, back := served[..k], served[k..];
    assert Plain(served)[..k] == Plain(front) && Plain(served)[k..] == Plain(back);
    PlainStrips(front, n);
    PlainStrips(back, n + k);
    var gap := [HistoryGap];
    assert gap[1..] == [];
    StripConcat(Plain(front), gap);
    MarksConcat(Plain(front), gap, n);
    StripConcat(Plain(front) + gap, Plain(back));
    MarksConcat(Plain(front) + gap, Plain(back), n);
    assert front + back == served;
  }

  // ---------------------------------------------------------------------------------------------
  // An instance's page
  // ---------------------------------------------------------------------------------------------

  /**
   What paging reads off an instance: `seamStarts` is where each backing segment starts in the ring's seqs,
   `archive` the current segment's file as it would be served.
   */
  datatype View = View(ring: seq<Event>, trimmedBefore: int, seamStarts: seq<int>, backed: bool, archive: Archive)

  function SegmentStart(v: View): int {
    if v.seamStarts == [] then 0 else v.seamStarts[|v.seamStarts| - 1]
  }

  /** The ring head is inside the segment whose file is at hand. */
  predicate Archivable(v: View) {
    v.backed && v.trimmedBefore >= SegmentStart(v)
  }

  predicate PriorEvicted(v: View) {
    SegmentStart(v) > 0 && v.trimmedBefore > 0
  }

  function LastSeq(ring: seq<Event>): int {
    if ring == [] then -1 else ring[|ring| - 1].seqNo
  }

  /** `before` wins; with neither, the trailing page. */
  function NormalizeWindow(before: Option<int>, after: Option<int>, lastSeq: int): (c: Cursor)
    ensures before.Some? ==> c == Before(before.value)
    ensures before.None? && after.None? ==> c == Before(lastSeq + 1)
  {
    if before.Some? then Before(before.value) else if after.Some? then After(after.value) else Before(lastSeq + 1)
  }

  /** Does the window dip below the ring, or hold a child whose head is not in the ring? */
  predicate Reaches(ring: seq<Event>, tb: int, cursor: Cursor, max: int, h: Helpers) {
    match cursor
    case Before(b) =>
      var ringEnd := FirstAtOrAbove(ring, b);
      b - max < tb || h.hasHeadlessChildIn(ring, Max(0, ringEnd - max), ringEnd)
    case After(a) => a < tb
  }

  /** Does this page read the file? */
  predicate NeedsArchive(v: View, cursor: Cursor, max: int, h: Helpers) {
    v.trimmedBefore > 0 && Archivable(v) && Reaches(v.ring, v.trimmedBefore, cursor, max, h)
  }

  /** The ring alone, or the archive below it and the ring. */
  function CombinedFor(v: View, needArchive: bool, markFloor: bool): Combined {
    var tb := v.trimmedBefore;
    if needArchive then
      var a := v.archive;
      Combined(a.events[..a.cut] + v.ring, a.cut, a.gap, markFloor && PriorEvicted(v), tb, LastSeq(v.ring), false)
    else
      Combined(v.ring, -1, tb > 0 && !v.backed, markFloor && !Archivable(v) && tb > 0 && v.backed,
               tb, LastSeq(v.ring), tb > 0 && Archivable(v))
  }

  /** Ring seqs are dense from where the trim left off; archive seqs are positions below that. */
  ghost predicate Dense(v: View) {
    && v.trimmedBefore >= 0
    && (forall i :: 0 <= i < |v.ring| ==> v.ring[i].seqNo == v.trimmedBefore + i)
    && (forall i :: 0 <= i < v.archive.cut ==> v.archive.events[i].seqNo == i < v.trimmedBefore)
  }

  ghost predicate ValidView(v: View) {
    Dense(v) && v.ring != []
  }

  lemma CombinedSorted(v: View, needArchive: bool, markFloor: bool)
    requires Dense(v)
    ensures Sorted(CombinedFor(v, needArchive, markFloor).events)
  {
  }

  function InstancePage(v: View, cursor: Cursor, max: int, markFloor: bool, h: Helpers): Page
    requires Fair(h) && 1 <= max
  {
    PageFrom(CombinedFor(v, NeedsArchive(v, cursor, max, h), markFloor), cursor, max, h)
  }

  function PageFrom(c: Combined, cursor: Cursor, max: int, h: Helpers): Page
    requires Fair(h) && 1 <= max
  {
    RangeInBounds(c, cursor, max, h);
    var (start, end) := RangeOf(c, cursor, max, h);
    PageOf(c, cursor, start, end, h)
  }

  /** An instance, with the current segment's replay (`None`: it cannot be read). */
  datatype Source = Source(
    ring: seq<Event>, trimmedBefore: int, seamStarts: seq<int>, backed: bool, userEchoCount: int,
    file: Option<seq<seq<Event>>>)

  ghost predicate DenseRing(src: Source) {
    && src.trimmedBefore >= 0
    && forall i :: 0 <= i < |src.ring| ==> src.ring[i].seqNo == src.trimmedBefore + i
  }

  function ViewOf(src: Source): View {
    var start := if src.seamStarts == [] then 0 else src.seamStarts[|src.seamStarts| - 1];
    View(src.ring, src.trimmedBefore, src.seamStarts, src.backed,
         ArchiveOf(src.file, src.ring, src.trimmedBefore, src.userEchoCount, start))
  }

  lemma ViewIsDense(src: Source)
    requires DenseRing(src)
    ensures Dense(ViewOf(src))
  {
    if src.file.Some? {
      StampAllStamps(Concat(src.file.value));
    }
  }

  method PageInstanceEvents(src: Source, before: Option<int>, after: Option<int>, limit: Option<int>,
                            markFloor: bool, h: Helpers)
    returns (page: Page)
    requires DenseRing(src) && Fair(h)
    ensures page == InstancePage(ViewOf(src), NormalizeWindow(before, after, LastSeq(src.ring)), ClampLimit(limit), markFloor, h)
  {
    ghost var v := ViewOf(src);
    ViewIsDense(src);
    var max, tb := ClampLimit(limit), src.trimmedBefore;
    var cursor := NormalizeWindow(before, after, LastSeq(src.ring));
    var startSeq := if |src.seamStarts| > 0 then src.seamStarts[|src.seamStarts| - 1] else 0;
    var archivable := src.backed && tb >= startSeq;
    var needArchive := NeedArchive(src.ring, tb, archivable, cursor, max, h);
    var combined, seamIdx, gap := src.ring, -1, tb > 0 && !src.backed;
    var floorGap := markFloor && !archivable && tb > 0 && src.backed;
    if needArchive {
      var archive := BuildArchive(src.file, src.ring, tb, src.userEchoCount, startSeq);
      combined := archive.events[..archive.cut] + src.ring;
      seamIdx := archive.cut;
      gap := archive.gap;
      floorGap := markFloor && startSeq > 0 && tb > 0;
    }
    var c := Combined(combined, seamIdx, gap, floorGap, tb, LastSeq(src.ring), !needArchive && tb > 0 && archivable);
    CombinedSorted(v, needArchive, markFloor);
    assert c == CombinedFor(v, needArchive, markFloor);
    page := PageCombined(c, cursor, max, h);
  }

  method NeedArchive(ring: seq<Event>, tb: int, archivable: bool, cursor: Cursor, max: int, h: Helpers)
    returns (need: bool)
    requires Sorted(ring)
    ensures need == (tb > 0 && archivable && Reaches(ring, tb, cursor, max, h))
  {
    var ringEnd := 0;
    if cursor.Before? {
      ringEnd := FirstIndexAtOrAbove(ring, cursor.seqNo);
    }
    need := tb > 0 && archivable
            && if cursor.Before?
               then cursor.seqNo - max < tb || h.hasHeadlessChildIn(ring, Max(0, ringEnd - max), ringEnd)
               else cursor.seqNo < tb;
  }

  // ---------------------------------------------------------------------------------------------
  // Walking backward
  // ---------------------------------------------------------------------------------------------

  /** Everything there is to page: what is left of the archive, then the ring. */
  function History(v: View): seq<Event> {
    if v.trimmedBefore > 0 && Archivable(v) then v.archive.events[..v.archive.cut] + v.ring
    else v.ring
  }

  /** Where the ring starts in it. */
  function Seam(v: View): int {
    if v.trimmedBefore > 0 && Archivable(v) then v.archive.cut else 0
  }

  /** Is evicted history missing at the seam? */
  predicate Lost(v: View) {
    if v.trimmedBefore > 0 && Archivable(v) then v.archive.gap else v.trimmedBefore > 0 && !v.backed
  }

  /** Were events of earlier segments evicted, which no file at hand reconstructs? */
  predicate FloorLost(v: View) {
    v.trimmedBefore > 0 && v.backed && (Archivable(v) ==> SegmentStart(v) > 0)
  }

  /** How much of the history lies below a seq. */
  function Below(v: View, b: int): int {
    FirstAtOrAbove(History(v), b)
  }

  lemma {:induction false} FirstSplits(events: seq<Event>, s: int)
    requires Sorted(events)
    ensures SplitsAt(events, s, FirstAtOrAbove(events, s))
  {
    if events != [] && events[0].seqNo < s {
      assert forall i :: 0 <= i < |events| - 1 ==> events[1..][i] == events[i + 1];
      FirstSplits(events[1..], s);
      assert forall i :: 1 <= i < |events| ==> events[i] == events[1..][i - 1];
    }
  }

  lemma FirstInSuffix(events: seq<Event>, base: int, s: int)
    requires Sorted(events) && 0 <= base <= FirstAtOrAbove(events, s)
    ensures base + FirstAtOrAbove(events[base..], s) == FirstAtOrAbove(events, s)
  {
    FirstSplits(events, s);
    SplitIsFirst(events[base..], s, FirstAtOrAbove(events, s) - base);
  }

  lemma HistorySorted(v: View)
    requires ValidView(v)
    ensures Sorted(History(v)) && 0 <= Seam(v) && History(v)[Seam(v)..] == v.ring
    ensures |History(v)| == Seam(v) + |v.ring|
    ensures forall b :: b > v.trimmedBefore ==> Seam(v) < Below(v, b)
    ensures forall i :: 0 <= i < |History(v)| ==> History(v)[i].seqNo >= 0
  {
    CombinedSorted(v, v.trimmedBefore > 0 && Archivable(v), false);
    forall b | b > v.trimmedBefore ensures Seam(v) < Below(v, b) {
      assert History(v)[Seam(v)] == v.ring[0];
      FirstSplits(History(v), b);
    }
  }

  /** What a page over the source is cut from: the history, or its ring part. */
  function Base(v: View, cursor: Cursor, max: int, h: Helpers): int {
    if NeedsArchive(v, cursor, max, h) then 0 else Seam(v)
  }

  /** The page is the stretch `[start, end)` of the history and hands on the cursor of its own start. */
  ghost predicate Covers(history: seq<Event>, page: Page, start: int, end: int) {
    && 0 <= start <= end <= |history|
    && Strip(page.events) == history[start..end]
    && FirstAtOrAbove(history, page.nextBefore) == start
    && (start > 0 ==> page.hasMore)
    && (page.hasMore ==> start < end)
  }

  lemma PageSource(v: View, b: int, max: int, markFloor: bool, h: Helpers)
    requires ValidView(v) && Fair(h) && 1 <= max
    ensures Suffix(CombinedFor(v, NeedsArchive(v, Before(b), max, h), markFloor), History(v), Base(v, Before(b), max, h), b)
  {
    HistorySorted(v);
    var base := Base(v, Before(b), max, h);
    FirstSplits(History(v), b);
    FirstInSuffix(History(v), base, b);
    assert History(v)[0..] == History(v);
  }

  /** A page is the stretch of the history just below its cursor. */
  lemma PageInHistory(v: View, b: int, max: int, markFloor: bool, h: Helpers)
    requires ValidView(v) && Fair(h) && 1 <= max
    ensures var page := InstancePage(v, Before(b), max, markFloor, h);
            Covers(History(v), page, Below(v, page.nextBefore), Below(v, b))
  {
    PageSource(v, b, max, markFloor, h);
    var c := CombinedFor(v, NeedsArchive(v, Before(b), max, h), markFloor);
    PageStretch(c, History(v), Base(v, Before(b), max, h), b, max, h);
  }

  /** The page of a list that is the history from `base` on. */
  lemma PageStretch(c: Combined, history: seq<Event>, base: int, b: int, max: int, h: Helpers)
    requires Fair(h) && 1 <= max && Suffix(c, history, base, b)
    ensures var page := PageFrom(c, Before(b), max, h);
            Covers(history, page, FirstAtOrAbove(history, page.nextBefore), FirstAtOrAbove(history, b))
  {
    var s, e := PageFromShows(c, b, max, h);
    ShownCovers(c, history, base, b, PageFrom(c, Before(b), max, h), s, e);
  }

  /** A page shows `c.events[s..e]`, up to the cursor. */
  ghost predicate Shows(c: Combined, b: int, page: Page, s: int, e: int) {
    && 0 <= s <= e == FirstAtOrAbove(c.events, b) && (e > 0 ==> s < e)
    && Strip(page.events) == c.events[s..e]
    && Marks(page.events, s) == MarksIn(c, Before(b), s, e)
    && page.nextBefore == (if s < e then c.events[s].seqNo else 0)
    && page.hasMore == (s > 0 || c.optimisticMore)
  }

  lemma PageFromShows(c: Combined, b: int, max: int, h: Helpers) returns (s: int, e: int)
    requires Fair(h) && 1 <= max
    ensures Shows(c, b, PageFrom(c, Before(b), max, h), s, e)
  {
    RangeInBounds(c, Before(b), max, h);
    var range := BackwardRange(c.events, c.seam, b, max, h);
    s, e := range.0, range.1;
    PageShows(c, Before(b), s, e, h);
  }

  lemma ShownCovers(c: Combined, history: seq<Event>, base: int, b: int, page: Page, s: int, e: int)
    requires Suffix(c, history, base, b) && Shows(c, b, page, s, e)
    ensures Covers(history, page, FirstAtOrAbove(history, page.nextBefore), FirstAtOrAbove(history, b))
    ensures FirstAtOrAbove(history, page.nextBefore) == base + s
  {
    SuffixStretch(c, history, base, b, s, e);
    ShownCursor(c, history, base, b, page, s, e);
  }

  lemma ShownCursor(c: Combined, history: seq<Event>, base: int, b: int, page: Page, s: int, e: int)
    requires Suffix(c, history, base, b) && Shows(c, b, page, s, e)
    ensures FirstAtOrAbove(history, page.nextBefore) == base + s
  {
    SuffixStretch(c, history, base, b, s, e);
    NextCursor(history, base + s, base + e);
  }

  lemma SuffixStretch(c: Combined, history: seq<Event>, base: int, b: int, s: int, e: int)
    requires Suffix(c, history, base, b) && 0 <= s <= e <= |c.events|
    ensures c.events[s..e] == history[base + s..base + e]
    ensures s < e ==> c.events[s] == history[base + s]
  {
    assert history[base..|history|] == c.events;
    SubSlice(history, base, |history|, s, e);
  }

  /** The list is the history from `base` on, with all that lies below the cursor's page. */
  ghost predicate Suffix(c: Combined, history: seq<Event>, base: int, b: int) {
    && Sorted(history) && (forall i :: 0 <= i < |history| ==> history[i].seqNo >= 0)
    && 0 <= base <= |history| && c.events == history[base..]
    && base + FirstAtOrAbove(c.events, b) == FirstAtOrAbove(history, b)
    && (c.optimisticMore ==> FirstAtOrAbove(c.events, b) > 0)
    && (c.optimisticMore || base == 0)
  }

  /** The first seq of a stretch names its start. */
  lemma NextCursor(history: seq<Event>, start: int, end: int)
    requires Sorted(history) && forall i :: 0 <= i < |history| ==> history[i].seqNo >= 0
    requires 0 <= start <= end <= |history|
    ensures start < end ==> FirstAtOrAbove(history, history[start].seqNo) == start
    ensures FirstAtOrAbove(history, 0) == 0
  {
    if start < end {
      SplitIsFirst(history, history[start].seqNo, start);
    }
  }

  /** Follow `nextBefore` until there is no more. */
  function Walk(v: View, b: int, max: int, markFloor: bool, h: Helpers): (pages: seq<Page>)
    requires ValidView(v) && Fair(h) && 1 <= max
    decreases Below(v, b)
  {
    PageInHistory(v, b, max, markFloor, h);
    var page := InstancePage(v, Before(b), max, markFloor, h);
    [page] + if page.hasMore then Walk(v, page.nextBefore, max, markFloor, h) else []
  }

  /** The pages' events, oldest first. */
  function Spelled(pages: seq<Page>): seq<Event> {
    if pages == [] then [] else Spelled(pages[1..]) + Strip(pages[0].events)
  }

  lemma {:induction false} WalkSpells(v: View, b: int, max: int, markFloor: bool, h: Helpers)
    requires ValidView(v) && Fair(h) && 1 <= max
    ensures Spelled(Walk(v, b, max, markFloor, h)) == History(v)[..Below(v, b)]
    decreases Below(v, b)
  {
    PageInHistory(v, b, max, markFloor, h);
    var page := InstancePage(v, Before(b), max, markFloor, h);
    var rest := [];
    if page.hasMore {
      rest := Walk(v, page.nextBefore, max, markFloor, h);
      WalkSpells(v, page.nextBefore, max, markFloor, h);
    }
    SpellStep(History(v), page, rest, Below(v, page.nextBefore), Below(v, b));
    assert Walk(v, b, max, markFloor, h) == [page] + rest;
  }

  lemma SpellStep(history: seq<Event>, page: Page, rest: seq<Page>, start: int, end: int)
    requires Covers(history, page, start, end)
    requires Spelled(rest) == history[..start]
    ensures Spelled([page] + rest) == history[..end]
  {
    assert ([page] + rest)[1..] == rest;
    assert history[..start] + history[start..end] == history[..end];
  }

  /** From the top the walk ends, and its pages are the history, each event once and in order. */
  lemma WalkTilesHistory(v: View, limit: Option<int>, markFloor: bool, h: Helpers)
    requires ValidView(v) && Fair(h)
    ensures Spelled(Walk(v, LastSeq(v.ring) + 1, ClampLimit(limit), markFloor, h)) == History(v)
  {
    TopIsAll(v);
    WalkSpells(v, LastSeq(v.ring) + 1, ClampLimit(limit), markFloor, h);
  }

  lemma TopIsAll(v: View)
    requires ValidView(v)
    ensures Below(v, LastSeq(v.ring) + 1) == |History(v)|
    ensures History(v)[..|History(v)|] == History(v)
  {
    HistorySorted(v);
    var n := |History(v)|;
    assert History(v)[n - 1] == v.ring[|v.ring| - 1];
    SplitIsFirst(History(v), LastSeq(v.ring) + 1, n);
  }

  /** The page shows a gap marker after `k` events of the history. */
  ghost predicate MarkedAt(v: View, page: Page, k: int) {
    k in Marks(page.events, Below(v, page.nextBefore))
  }

  lemma {:induction false} NoMarks(items: seq<Item>, n: int, m: int)
    requires Marks(items, n) == []
    ensures Marks(items, m) == []
  {
    if items != [] {
      NoMarks(items[1..], if items[0].Stored? then n + 1 else n, if items[0].Stored? then m + 1 else m);
    }
  }

  /** Counted in the history, a page of its ring part shows nothing. */
  lemma StretchMarks(c: Combined, history: seq<Event>, base: int, b: int, max: int, h: Helpers) returns (s: int, e: int)
    requires Fair(h) && 1 <= max && Suffix(c, history, base, b) && (base == 0 || (!c.gap && !c.floorGap))
    ensures MarkedAs(c, history, base, b, PageFrom(c, Before(b), max, h), s, e)
  {
    s, e := PageFromShows(c, b, max, h);
    ShownMarks(c, history, base, b, PageFrom(c, Before(b), max, h), s, e);
  }

  lemma ShownMarks(c: Combined, history: seq<Event>, base: int, b: int, page: Page, s: int, e: int)
    requires Suffix(c, history, base, b) && Shows(c, b, page, s, e) && (base == 0 || (!c.gap && !c.floorGap))
    ensures MarkedAs(c, history, base, b, page, s, e)
  {
    ShownCovers(c, history, base, b, page, s, e);
    if base != 0 {
      NoMarks(page.events, s, base + s);
    }
  }

  /** The page is `c.events[s..e]`, and its markers, counted in the history, are those of that range. */
  ghost predicate MarkedAs(c: Combined, history: seq<Event>, base: int, b: int, page: Page, s: int, e: int) {
    && 0 <= s <= e <= |c.events|
    && FirstAtOrAbove(history, page.nextBefore) == base + s
    && FirstAtOrAbove(history, b) == base + e
    && Marks(page.events, base + s) == MarksIn(c, Before(b), s, e)
    && (s > 0 || c.optimisticMore ==> page.hasMore)
  }

  lemma MarksAre(c: Combined, b: int, s: int, e: int)
    requires 0 <= s <= e
    ensures c.gap && s <= SeamAnchor(c) <= e ==> SeamAnchor(c) in MarksIn(c, Before(b), s, e)
    ensures forall k :: k in MarksIn(c, Before(b), s, e) ==> (k == SeamAnchor(c) && c.gap) || (k == 0 && c.floorGap)
  {
    var seam := SeamMarks(c, Before(b), s, e);
    assert seam == [] || (c.gap && seam == [SeamAnchor(c)]);
    assert MarksIn(c, Before(b), s, e) == seam || (c.floorGap && MarksIn(c, Before(b), s, e) == [0] + seam);
  }

  /** A page's markers, counted in the history, are those of the list it is cut from. */
  lemma PageMarksIn(v: View, b: int, max: int, markFloor: bool, h: Helpers) returns (c: Combined, s: int, e: int)
    requires ValidView(v) && Fair(h) && 1 <= max
    ensures c == CombinedFor(v, NeedsArchive(v, Before(b), max, h), markFloor)
    ensures MarkedAs(c, History(v), Base(v, Before(b), max, h), b, InstancePage(v, Before(b), max, markFloor, h), s, e)
  {
    PageSource(v, b, max, markFloor, h);
    CombinedLosses(v, b, max, markFloor, h);
    c := CombinedFor(v, NeedsArchive(v, Before(b), max, h), markFloor);
    s, e := StretchMarks(c, History(v), Base(v, Before(b), max, h), b, max, h);
  }

  /** What the list is cut from knows of the losses. */
  lemma CombinedLosses(v: View, b: int, max: int, markFloor: bool, h: Helpers)
    requires ValidView(v)
    ensures var c := CombinedFor(v, NeedsArchive(v, Before(b), max, h), markFloor);
            && (c.gap ==> Lost(v) && SeamAnchor(c) == Seam(v))
            && (c.floorGap ==> markFloor && FloorLost(v))
            && (c.optimisticMore || (Base(v, Before(b), max, h) == 0 && c.gap == Lost(v) && SeamAnchor(c) == Seam(v)))
            && Base(v, Before(b), max, h) in {0, Seam(v)}
            && (Base(v, Before(b), max, h) == 0 || (!c.gap && !c.floorGap && c.optimisticMore))
  {
  }

  /** A lost seam is shown on a page that touches it, or left to the pages below. */
  lemma SeamShownOrBelow(v: View, b: int, max: int, markFloor: bool, h: Helpers)
    requires ValidView(v) && Fair(h) && 1 <= max && Lost(v) && Seam(v) <= Below(v, b)
    ensures var page := InstancePage(v, Before(b), max, markFloor, h);
            MarkedAt(v, page, Seam(v)) || (page.hasMore && Seam(v) <= Below(v, page.nextBefore) < Below(v, b))
  {
    PageInHistory(v, b, max, markFloor, h);
    var c, s, e := PageMarksIn(v, b, max, markFloor, h);
    CombinedLosses(v, b, max, markFloor, h);
    MarksAre(c, b, s, e);
  }

  /** No page shows a gap where nothing is lost. */
  lemma MarksOnlyThere(v: View, b: int, max: int, markFloor: bool, h: Helpers, k: int)
    requires ValidView(v) && Fair(h) && 1 <= max && MarkedAt(v, InstancePage(v, Before(b), max, markFloor, h), k)
    ensures (k == Seam(v) && Lost(v)) || (k == 0 && markFloor && FloorLost(v))
  {
    var c, s, e := PageMarksIn(v, b, max, markFloor, h);
    CombinedLosses(v, b, max, markFloor, h);
    MarksAre(c, b, s, e);
  }

  /** If evicted history is lost, a page says so, at the seam. */
  lemma {:induction false} GapIsShown(v: View, b: int, max: int, markFloor: bool, h: Helpers) returns (i: int)
    requires ValidView(v) && Fair(h) && 1 <= max
    requires Lost(v) && Seam(v) <= Below(v, b)
    ensures 0 <= i < |Walk(v, b, max, markFloor, h)| && MarkedAt(v, Walk(v, b, max, markFloor, h)[i], Seam(v))
    decreases Below(v, b)
  {
    SeamShownOrBelow(v, b, max, markFloor, h);
    var page := InstancePage(v, Before(b), max, markFloor, h);
    if MarkedAt(v, page, Seam(v)) {
      i := 0;
    } else {
      var j := GapIsShown(v, page.nextBefore, max, markFloor, h);
      WalkOn(v, b, max, markFloor, h, j);
      i := j + 1;
    }
  }

  lemma WalkOn(v: View, b: int, max: int, markFloor: bool, h: Helpers, j: int)
    requires ValidView(v) && Fair(h) && 1 <= max && InstancePage(v, Before(b), max, markFloor, h).hasMore
    requires 0 <= j < |Walk(v, InstancePage(v, Before(b), max, markFloor, h).nextBefore, max, markFloor, h)|
    ensures j + 1 < |Walk(v, b, max, markFloor, h)|
    ensures Walk(v, b, max, markFloor, h)[j + 1]
            == Walk(v, InstancePage(v, Before(b), max, markFloor, h).nextBefore, max, markFloor, h)[j]
  {
  }

  /** And no page shows a gap anywhere else, but for the floor. */
  lemma {:induction false} GapOnlyThere(v: View, b: int, max: int, markFloor: bool, h: Helpers, i: int, k: int)
    requires ValidView(v) && Fair(h) && 1 <= max
    requires 0 <= i < |Walk(v, b, max, markFloor, h)| && MarkedAt(v, Walk(v, b, max, markFloor, h)[i], k)
    ensures (k == Seam(v) && Lost(v)) || (k == 0 && markFloor && FloorLost(v))
    decreases i
  {
    if i == 0 {
      MarksOnlyThere(v, b, max, markFloor, h, k);
    } else {
      PageInHistory(v, b, max, markFloor, h);
      GapOnlyThere(v, InstancePage(v, Before(b), max, markFloor, h).nextBefore, max, markFloor, h, i - 1, k);
    }
  }
}
