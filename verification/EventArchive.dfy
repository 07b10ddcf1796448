/**
 The archive below a trimmed ring (src/eventArchive.ts): the replayed file gets dense seqs of its own and is cut
 at a content anchor so that it neither overlaps the ring nor leaves a hole.
 */
module EventArchive {
  import opened Text

  /** The parts of a UI event the archive reads. `child`: it carries a parentToolUseId. */
  datatype Event = Event(
    seqNo: int, kind: string, subtype: string, child: bool,
    toolUseId: Option<string>, msgId: Option<string>, blockIdx: Option<int>,
    status: string, switchId: string, notified: bool, userIndex: Option<int>)

  datatype Key =
    | ToolResult(toolUseId: string)
    | ModelSwitch(switchId: string)
    | ReadNudge(toolUseId: string)
    | TaskNotified(toolUseId: string, status: string)
    | TurnBoundary(toolUseId: string, status: string)
    | Block(kind: string, msgId: string, blockIdx: int)

  predicate IsOuterUserEcho(ev: Event) {
    ev.kind == "user_echo" && !ev.child
  }

  predicate IsNotifiedTask(ev: Event) {
    ev.kind == "system" && ev.subtype == "task_notification" && ev.notified
  }

  predicate HasModelSwitch(ev: Event) {
    ev.kind == "system" && (ev.subtype == "model_changed" || ev.subtype == "model_switch_failed") && ev.switchId != ""
  }

  /** What names an event's wire content, computed identically on both sides; None when nothing does. */
  function CorrelationKey(ev: Event): Option<Key> {
    if ev.kind == "tool_result" && ev.toolUseId.Some? then Some(ToolResult(ev.toolUseId.value))
    else if HasModelSwitch(ev) then Some(ModelSwitch(ev.switchId))
    else if ev.kind == "system" && ev.subtype == "read_nudge" && ev.toolUseId.Some? then Some(ReadNudge(ev.toolUseId.value))
    else if IsNotifiedTask(ev) && ev.toolUseId.Some? then Some(TaskNotified(ev.toolUseId.value, ev.status))
    else if ev.kind == "turn_boundary" && ev.toolUseId.Some? then Some(TurnBoundary(ev.toolUseId.value, ev.status))
    else if ev.msgId.Some? && ev.blockIdx.Some? then Some(Block(ev.kind, ev.msgId.value, ev.blockIdx.value))
    else None
  }

  const RING_ONLY_KINDS: set<string> := {
    "message_start", "turn_end", "assistant_message", "tool_use_input_delta",
    "raw", "hook", "control_response", "overage_message_queued", "call_usage"}

  /** Replay provably cannot have produced a counterpart: the only events the head scan may step over. */
  predicate NeverPersisted(ev: Event) {
    if ev.kind in RING_ONLY_KINDS then true
    else if ev.kind != "system" then false
    else if ev.subtype == "task_notification" then !IsNotifiedTask(ev)
    else if HasModelSwitch(ev) then false
    else ev.subtype != "soft_interrupted" && ev.subtype != "read_nudge"
  }

  // ---------------------------------------------------------------------------------------------
  // The pieces, as functions
  // ---------------------------------------------------------------------------------------------

  /** Outer echoes among the first `i` events. */
  function Echoes(s: seq<Event>, i: int): int
    requires 0 <= i <= |s|
    ensures 0 <= Echoes(s, i) <= i
    decreases i
  {
    if i == 0 then 0 else Echoes(s, i - 1) + if IsOuterUserEcho(s[i - 1]) then 1 else 0
  }

  lemma {:induction false} EchoesMonotone(s: seq<Event>, i: int, j: int)
    requires 0 <= i <= j <= |s|
    ensures Echoes(s, i) <= Echoes(s, j)
    decreases j
  {
    if i < j {
      EchoesMonotone(s, i, j - 1);
    }
  }

  /** `stampArchiveEvents`' result over an event list: dense seqs, echo ordinals. */
  ghost predicate Stamped(flat: seq<Event>) {
    forall i :: 0 <= i < |flat| ==>
      flat[i].seqNo == i && (IsOuterUserEcho(flat[i]) ==> flat[i].userIndex == Some(Echoes(flat, i)))
  }

  function Concat(lines: seq<seq<Event>>): seq<Event> {
    if lines == [] then [] else lines[0] + Concat(lines[1..])
  }

  /** The next archive event: the seq is its position, a prompt's ordinal the prompts before it. */
  function StampedAt(flat: seq<Event>, ev: Event): Event {
    var copy := if IsOuterUserEcho(ev) then ev.(userIndex := Some(Echoes(flat, |flat|))) else ev;
    copy.(seqNo := |flat|)
  }

  function StampAll(events: seq<Event>): seq<Event> {
    if events == [] then []
    else
      var flat := StampAll(events[..|events| - 1]);
      flat + [StampedAt(flat, events[|events| - 1])]
  }

  /** An event without its stamps: what stamping must not change. */
  function Content(ev: Event): Event {
    ev.(seqNo := 0, userIndex := if IsOuterUserEcho(ev) then None else ev.userIndex)
  }

  /** The first event at or after `i` that a key names. */
  function FirstWithKey(flat: seq<Event>, key: Key, i: int): Option<int>
    requires 0 <= i <= |flat|
    decreases |flat| - i
  {
    if i == |flat| then None
    else if CorrelationKey(flat[i]) == Some(key) then Some(i)
    else FirstWithKey(flat, key, i + 1)
  }

  lemma {:induction false} FirstWithKeyFinds(flat: seq<Event>, key: Key, i: int)
    requires 0 <= i <= |flat|
    ensures var r := FirstWithKey(flat, key, i);
            if r.None? then forall j :: i <= j < |flat| ==> CorrelationKey(flat[j]) != Some(key)
            else i <= r.value < |flat| && CorrelationKey(flat[r.value]) == Some(key)
                 && forall j :: i <= j < r.value ==> CorrelationKey(flat[j]) != Some(key)
    decreases |flat| - i
  {
    if i < |flat| && CorrelationKey(flat[i]) != Some(key) {
      FirstWithKeyFinds(flat, key, i + 1);
    }
  }

  /** Walk past what replay cannot have produced; the first other event decides. */
  function CorrelatedCut(ring: seq<Event>, flat: seq<Event>): (cut: int)
    ensures -1 <= cut < |flat|
  {
    if ring == [] then -1
    else if NeverPersisted(ring[0]) then CorrelatedCut(ring[1..], flat)
    else
      var key := CorrelationKey(ring[0]);
      if key.None? then -1
      else
        var hit := FirstWithKey(flat, key.value, 0);
        FirstWithKeyFinds(flat, key.value, 0);
        if hit.None? then -1 else hit.value
  }

  /** Where the `anchor`-th outer echo is, or past the end. */
  function EchoIndex(flat: seq<Event>, anchor: int, i: int): (r: int)
    requires 0 <= i <= |flat|
    ensures i <= r <= |flat|
    decreases |flat| - i
  {
    if i == |flat| then |flat|
    else if IsOuterUserEcho(flat[i]) && Echoes(flat, i) == anchor then i
    else EchoIndex(flat, anchor, i + 1)
  }

  function EchoCut(flat: seq<Event>, anchor: int, includeEcho: bool): (cut: int)
    ensures 0 <= cut <= |flat|
  {
    if anchor < 0 then 0
    else
      var i := EchoIndex(flat, anchor, 0);
      if i < |flat| && includeEcho then i + 1 else i
  }

  lemma {:induction false} EchoIndexFinds(flat: seq<Event>, anchor: int, i: int)
    requires 0 <= i <= |flat|
    ensures var r := EchoIndex(flat, anchor, i);
            && (r < |flat| ==> IsOuterUserEcho(flat[r]) && Echoes(flat, r) == anchor)
            && forall j :: i <= j < r ==> !(IsOuterUserEcho(flat[j]) && Echoes(flat, j) == anchor)
    decreases |flat| - i
  {
    if i < |flat| && !(IsOuterUserEcho(flat[i]) && Echoes(flat, i) == anchor) {
      EchoIndexFinds(flat, anchor, i + 1);
    }
  }

  /** The last outer echo at or before `k`. */
  function EchoAtOrBefore(flat: seq<Event>, k: int): (r: Option<int>)
    requires -1 <= k < |flat|
    ensures r.Some? ==> 0 <= r.value <= k && IsOuterUserEcho(flat[r.value]) && Echoes(flat, r.value) + 1 == Echoes(flat, k + 1)
    ensures r.None? ==> Echoes(flat, k + 1) == 0
    decreases k + 1
  {
    if k < 0 then None else if IsOuterUserEcho(flat[k]) then Some(k) else EchoAtOrBefore(flat, k - 1)
  }

  /** `calibrateEchoOffset`: file ordinal minus live ordinal of the same echo, at the first turn that correlates. */
  function EchoOffset(ring: seq<Event>, flat: seq<Event>, echo: Option<int>): Option<int> {
    if ring == [] then None
    else
      var ev, rest := ring[0], ring[1..];
      if ev.child then EchoOffset(rest, flat, echo)
      else if IsOuterUserEcho(ev) then EchoOffset(rest, flat, if ev.userIndex.Some? then ev.userIndex else echo)
      else if echo.None? || CorrelationKey(ev).None? then EchoOffset(rest, flat, echo)
      else
        var k := FirstWithKey(flat, CorrelationKey(ev).value, 0);
        if k.None? then EchoOffset(rest, flat, echo)
        else
          FirstWithKeyFinds(flat, CorrelationKey(ev).value, 0);
          var twin := EchoAtOrBefore(flat, k.value);
          if twin.None? || flat[twin.value].userIndex.None? then None
          else Some(flat[twin.value].userIndex.value - echo.value)
  }

  /** The first retained echo's live ordinal, or `total` if none is retained. */
  function FirstEchoOrdinal(ring: seq<Event>, total: int): int {
    if ring == [] then total
    else if IsOuterUserEcho(ring[0]) && ring[0].userIndex.Some? then ring[0].userIndex.value
    else FirstEchoOrdinal(ring[1..], total)
  }

  /** How `buildArchive` chose its cut. */
  datatype Anchor = Uncalibrated | AtEcho(cut: int) | Correlated(cut: int) | AfterEcho(cut: int)

  /** The anchor-derived cut, before clamping. */
  function AnchorOf(flat: seq<Event>, ring: seq<Event>, total: int, offset: Option<int>): (a: Anchor)
    ensures !a.Uncalibrated? ==> 0 <= a.cut <= |flat|
  {
    if ring == [] then
      if offset.None? then Uncalibrated else AtEcho(EchoCut(flat, total + offset.value, false))
    else if IsOuterUserEcho(ring[0]) && ring[0].userIndex.Some? then
      if offset.None? then Uncalibrated else AtEcho(EchoCut(flat, ring[0].userIndex.value + offset.value, false))
    else if CorrelatedCut(ring, flat) != -1 then Correlated(CorrelatedCut(ring, flat))
    else if offset.None? then Uncalibrated
    else AfterEcho(EchoCut(flat, FirstEchoOrdinal(ring, total) + offset.value - 1, true))
  }

  function OffsetFor(flat: seq<Event>, ring: seq<Event>, segmentStart: int): Option<int> {
    if segmentStart > 0 then EchoOffset(ring, flat, None) else Some(0)
  }

  function Min(a: int, b: int): int { if a < b then a else b }
  function Max(a: int, b: int): int { if a < b then b else a }

  /** The served cut and whether history is missing at it. */
  function Clamp(anchor: Anchor, trimmedBefore: int): (r: (int, bool)) {
    if anchor.Uncalibrated? then (0, trimmedBefore > 0)
    else (Min(anchor.cut, Max(0, trimmedBefore)), anchor.AfterEcho? || anchor.cut > trimmedBefore)
  }

  /** `restampToLive` on one event: an echo gets its live ordinal, or none when it has no live one. */
  function Restamped(ev: Event, offset: Option<int>): Event {
    if !IsOuterUserEcho(ev) || ev.userIndex.None? then ev
    else
      var live := if offset.None? then -1 else ev.userIndex.value - offset.value;
      ev.(userIndex := if live < 0 then None else Some(live))
  }

  function RestampToLive(flat: seq<Event>, offset: Option<int>): (live: seq<Event>)
    ensures |live| == |flat|
    ensures forall i :: 0 <= i < |flat| ==> live[i] == Restamped(flat[i], offset)
  {
    seq(|flat|, i requires 0 <= i < |flat| => Restamped(flat[i], offset))
  }

  datatype Replay = Archive(events: seq<Event>, cut: int, gap: bool)

  /** The cut is a position in the events. */
  type Archive = a: Replay | 0 <= a.cut <= |a.events| witness Archive([], 0, false)

  /** What `buildArchive` makes of a replayed file (`None`: it could not be read). */
  function ArchiveOf(file: Option<seq<seq<Event>>>, ring: seq<Event>, trimmedBefore: int, total: int, segmentStart: int)
    : (a: Archive)
    ensures a.cut == 0 || a.cut <= trimmedBefore
  {
    if file.None? then Archive([], 0, trimmedBefore > 0)
    else
      var flat := StampAll(Concat(file.value));
      var offset := OffsetFor(flat, ring, segmentStart);
      var anchor := AnchorOf(flat, ring, total, offset);
      var (cut, gap) := Clamp(anchor, trimmedBefore);
      Archive(if segmentStart == 0 || anchor.Uncalibrated? then flat else RestampToLive(flat, offset), cut, gap)
  }

  // ---------------------------------------------------------------------------------------------
  // The same, as the code runs them
  // ---------------------------------------------------------------------------------------------

  /** `stampArchiveEvents` over the replayed lines. */
  method StampArchiveEvents(lines: seq<seq<Event>>) returns (flat: seq<Event>)
    ensures flat == StampAll(Concat(lines))
  {
    flat := [];
    var ordinal := 0;
    var i := 0;
    assert lines[..0] == [];
    while i < |lines|
      invariant 0 <= i <= |lines| && ordinal == Echoes(flat, |flat|)
      invariant flat == StampAll(Concat(lines[..i]))
    {
      flat, ordinal := StampLine(flat, ordinal, Concat(lines[..i]), lines[i]);
      ConcatSnoc(lines[..i], lines[i]);
      assert lines[..i + 1] == lines[..i] + [lines[i]];
      i := i + 1;
    }
    assert lines[..|lines|] == lines;
  }

  /** The inner loop: one line's events. */
  method StampLine(flat0: seq<Event>, ordinal0: int, ghost before: seq<Event>, line: seq<Event>)
    returns (flat: seq<Event>, ordinal: int)
    requires flat0 == StampAll(before) && ordinal0 == Echoes(flat0, |flat0|)
    ensures flat == StampAll(before + line) && ordinal == Echoes(flat, |flat|)
  {
    flat, ordinal := flat0, ordinal0;
    assert before + line[..0] == before;
    var j := 0;
    while j < |line|
      invariant 0 <= j <= |line| && ordinal == Echoes(flat, |flat|)
      invariant flat == StampAll(before + line[..j])
    {
      StampStep(before, line, j);
      flat, ordinal := StampEvent(flat, ordinal, line[j]);
      j := j + 1;
    }
    assert line[..|line|] == line;
  }

  method StampEvent(flat0: seq<Event>, ordinal0: int, ev: Event) returns (flat: seq<Event>, ordinal: int)
    requires ordinal0 == Echoes(flat0, |flat0|)
    ensures flat == flat0 + [StampedAt(flat0, ev)] && ordinal == ordinal0 + if IsOuterUserEcho(ev) then 1 else 0
  {
    var copy := ev;
    ordinal := ordinal0;
    if IsOuterUserEcho(copy) {
      copy := copy.(userIndex := Some(ordinal));
      ordinal := ordinal + 1;
    }
    copy := copy.(seqNo := |flat0|);
    flat := flat0 + [copy];
  }

  lemma StampStep(before: seq<Event>, line: seq<Event>, j: int)
    requires 0 <= j < |line|
    ensures var flat := StampAll(before + line[..j]);
            && StampAll(before + line[..j + 1]) == flat + [StampedAt(flat, line[j])]
            && Echoes(flat + [StampedAt(flat, line[j])], |flat| + 1)
               == Echoes(flat, |flat|) + if IsOuterUserEcho(line[j]) then 1 else 0
  {
    var done := before + line[..j];
    assert before + line[..j + 1] == done + [line[j]];
    assert (done + [line[j]])[..|done|] == done;
    var flat := StampAll(done);
    assert (flat + [StampedAt(flat, line[j])])[..|flat|] == flat[..|flat|];
    EchoesPrefix(flat + [StampedAt(flat, line[j])], flat, |flat|);
  }

  /** Stamping numbers the events densely, gives each prompt its ordinal, and changes nothing else. */
  lemma {:induction false} StampAllStamps(events: seq<Event>)
    ensures |StampAll(events)| == |events| && Stamped(StampAll(events))
    ensures forall i :: 0 <= i < |events| ==> Content(StampAll(events)[i]) == Content(events[i])
  {
    if events != [] {
      var front := events[..|events| - 1];
      StampAllStamps(front);
      StampOne(StampAll(front), StampedAt(StampAll(front), events[|events| - 1]));
      forall i | 0 <= i < |front| ensures Content(StampAll(events)[i]) == Content(events[i]) {
        assert front[i] == events[i];
      }
    }
  }

  lemma {:induction false} ConcatSnoc(lines: seq<seq<Event>>, line: seq<Event>)
    ensures Concat(lines + [line]) == Concat(lines) + line
  {
    if lines == [] {
      assert [line][1..] == [];
    } else {
      assert (lines + [line])[1..] == lines[1..] + [line];
      ConcatSnoc(lines[1..], line);
    }
  }

  lemma {:induction false} EchoesPrefix(s: seq<Event>, t: seq<Event>, i: int)
    requires 0 <= i <= |s| && i <= |t| && s[..i] == t[..i]
    ensures Echoes(s, i) == Echoes(t, i)
    decreases i
  {
    if i > 0 {
      assert s[..i][i - 1] == t[..i][i - 1];
      assert s[..i - 1] == s[..i][..i - 1] == t[..i - 1];
      EchoesPrefix(s, t, i - 1);
    }
  }

  lemma StampOne(flat: seq<Event>, copy: Event)
    requires Stamped(flat) && copy.seqNo == |flat|
    requires IsOuterUserEcho(copy) ==> copy.userIndex == Some(Echoes(flat, |flat|))
    ensures Stamped(flat + [copy])
    ensures Echoes(flat + [copy], |flat| + 1) == Echoes(flat, |flat|) + if IsOuterUserEcho(copy) then 1 else 0
  {
    var next := flat + [copy];
    forall i | 0 <= i <= |flat| ensures Echoes(next, i) == Echoes(flat, i) {
      assert next[..i] == flat[..i];
      EchoesPrefix(next, flat, i);
    }
  }

  /** First wins. */
  method BuildFlatIndex(flat: seq<Event>) returns (index: map<Key, int>)
    ensures forall key :: key in index <==> FirstWithKey(flat, key, 0).Some?
    ensures forall key :: key in index ==> FirstWithKey(flat, key, 0) == Some(index[key])
  {
    index := map[];
    var i := 0;
    while i < |flat|
      invariant 0 <= i <= |flat|
      invariant forall key :: key in index ==> 0 <= index[key] < i && CorrelationKey(flat[index[key]]) == Some(key)
      invariant forall key :: key in index ==> forall j :: 0 <= j < index[key] ==> CorrelationKey(flat[j]) != Some(key)
      invariant forall j :: 0 <= j < i && CorrelationKey(flat[j]).Some? ==> CorrelationKey(flat[j]).value in index
    {
      var key := CorrelationKey(flat[i]);
      if key.Some? && key.value !in index {
        index := index[key.value := i];
      }
      i := i + 1;
    }
    forall key ensures key in index <==> FirstWithKey(flat, key, 0).Some?
               ensures key in index ==> FirstWithKey(flat, key, 0) == Some(index[key]) {
      FirstWithKeyFinds(flat, key, 0);
    }
  }

  ghost predicate IndexOf(index: map<Key, int>, flat: seq<Event>) {
    && (forall key :: key in index <==> FirstWithKey(flat, key, 0).Some?)
    && (forall key :: key in index ==> FirstWithKey(flat, key, 0) == Some(index[key]))
  }

  method CorrelateRingHead(ring: seq<Event>, index: map<Key, int>, ghost flat: seq<Event>) returns (cut: int)
    requires IndexOf(index, flat)
    ensures cut == CorrelatedCut(ring, flat)
  {
    var i := 0;
    assert ring[0..] == ring;
    while i < |ring|
      invariant 0 <= i <= |ring|
      invariant CorrelatedCut(ring, flat) == CorrelatedCut(ring[i..], flat)
    {
      var ev := ring[i];
      assert ring[i..][0] == ev && ring[i..][1..] == ring[i + 1..];
      if !NeverPersisted(ev) {
        var key := CorrelationKey(ev);
        if key.None? {
          return -1;
        }
        return if key.value in index then index[key.value] else -1;
      }
      i := i + 1;
    }
    cut := -1;
  }

  method CutFromEchoAnchor(flat: seq<Event>, anchor: int, includeAnchorEcho: bool) returns (cut: int)
    ensures cut == EchoCut(flat, anchor, includeAnchorEcho)
  {
    if anchor < 0 {
      return 0;
    }
    var i, seen := 0, 0;
    while i < |flat|
      invariant 0 <= i <= |flat| && seen == Echoes(flat, i)
      invariant EchoIndex(flat, anchor, 0) == EchoIndex(flat, anchor, i)
    {
      if IsOuterUserEcho(flat[i]) {
        if seen == anchor {
          return if includeAnchorEcho then i + 1 else i;
        }
        seen := seen + 1;
      }
      i := i + 1;
    }
    cut := |flat|;
  }

  method CalibrateEchoOffset(ring: seq<Event>, flat: seq<Event>, index: map<Key, int>) returns (offset: Option<int>)
    requires IndexOf(index, flat)
    ensures offset == EchoOffset(ring, flat, None)
  {
    var echo: Option<int> := None;
    var i := 0;
    assert ring[0..] == ring;
    while i < |ring|
      invariant 0 <= i <= |ring|
      invariant EchoOffset(ring, flat, None) == EchoOffset(ring[i..], flat, echo)
    {
      var ev := ring[i];
      assert ring[i..][0] == ev && ring[i..][1..] == ring[i + 1..];
      i := i + 1;
      if ev.child {
        continue;
      }
      if IsOuterUserEcho(ev) {
        if ev.userIndex.Some? {
          echo := ev.userIndex;
        }
        continue;
      }
      var key := CorrelationKey(ev);
      if echo.None? || key.None? || key.value !in index {
        continue;
      }
      var k := index[key.value];
      FirstWithKeyFinds(flat, key.value, 0);
      var j := k;
      while j >= 0
        invariant -1 <= j <= k < |flat|
        invariant EchoAtOrBefore(flat, k) == EchoAtOrBefore(flat, j)
        decreases j + 1
      {
        if IsOuterUserEcho(flat[j]) {
          return if flat[j].userIndex.Some? then Some(flat[j].userIndex.value - echo.value) else None;
        }
        j := j - 1;
      }
      return None;
    }
    offset := None;
  }

  /** `buildArchive`, with the replayed file already in hand. */
  method BuildArchive(file: Option<seq<seq<Event>>>, ring: seq<Event>, trimmedBefore: int, userEchoCount: int,
                      segmentStartSeq: int)
    returns (archive: Archive)
    ensures archive == ArchiveOf(file, ring, trimmedBefore, userEchoCount, segmentStartSeq)
  {
    if file.None? {
      return Archive([], 0, trimmedBefore > 0);
    }
    var flat := StampArchiveEvents(file.value);
    var index := BuildFlatIndex(flat);
    var offset := Some(0);
    if segmentStartSeq > 0 {
      offset := CalibrateEchoOffset(ring, flat, index);
    }
    var anchor := ChooseAnchor(flat, index, ring, userEchoCount, offset);
    if anchor.Uncalibrated? {
      return Archive(flat, 0, trimmedBefore > 0);
    }
    var cut := Min(anchor.cut, Max(0, trimmedBefore));
    var gap := anchor.AfterEcho? || anchor.cut > trimmedBefore;
    archive := Archive(if segmentStartSeq == 0 then flat else RestampToLive(flat, offset), cut, gap);
  }

  /** The content anchor: the head's own echo, its own content, or the prompt that started its turn. */
  method ChooseAnchor(flat: seq<Event>, index: map<Key, int>, ring: seq<Event>, userEchoCount: int, offset: Option<int>)
    returns (anchor: Anchor)
    requires IndexOf(index, flat)
    ensures anchor == AnchorOf(flat, ring, userEchoCount, offset)
  {
    var correlated, includeAnchorEcho := -1, false;
    if |ring| > 0 && !(IsOuterUserEcho(ring[0]) && ring[0].userIndex.Some?) {
      correlated := CorrelateRingHead(ring, index, flat);
      includeAnchorEcho := correlated == -1;
    }
    if correlated != -1 {
      return Correlated(correlated);
    }
    if offset.None? {
      return Uncalibrated;
    }
    var live := if |ring| == 0 then userEchoCount
                else if includeAnchorEcho then FirstEchoOrdinal(ring, userEchoCount) else ring[0].userIndex.value;
    var ordinal := live + offset.value;
    var cut := CutFromEchoAnchor(flat, if includeAnchorEcho then ordinal - 1 else ordinal, includeAnchorEcho);
    anchor := if includeAnchorEcho then AfterEcho(cut) else AtEcho(cut);
  }
}
