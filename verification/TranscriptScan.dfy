/**
 The region scan, the memo and the segment walk of `awaitingUser`'s disk feed. However a growing file is scanned,
 in whatever increments, every answer is the summary of all the facts in its complete lines.
 */
module TranscriptScan {
  import opened Text
  import opened AskState
  import opened Transcript
  import opened Conversation

  /** The rules, and the reading of one line's bytes as a record (JSON parsing and replay, uninterpreted). */
  datatype Reader = Reader(rules: Rules, parse: seq<Byte> -> Record)

  function Records(p: Reader, lines: seq<Line>): seq<Record> {
    seq(|lines|, i requires 0 <= i < |lines| => p.parse(lines[i].text))
  }

  function RecordsOf(p: Reader, file: seq<Byte>, lo: int, hi: int): seq<Record>
    requires 0 <= lo <= hi <= |file|
  {
    Records(p, Lines(file, lo, hi))
  }

  /** The reference reading of a file: the facts of all its complete lines, oldest first. */
  function FileFacts(p: Reader, file: seq<Byte>): seq<AskFact> {
    ForwardFacts(RecordsOf(p, file, 0, |file|))
  }

  // ---------------------------------------------------------------------------------------------
  // The scan state, record by record
  // ---------------------------------------------------------------------------------------------

  datatype Phase = Start | Tail | Body

  predicate Opens(c: Ctx, r: Record) {
    r.Assistant? && (r.id.None? || r.id != c.runId)
  }

  function NextPhase(phase: Phase, c: Ctx, r: Record): Phase {
    match r
    case Ignored => phase
    case Human(_) => Body
    case Assistant(_, _, _, _) =>
      if !Opens(c, r) then phase else if phase == Start then Tail else Body
  }

  /**
   The scan has read rs[m..] backward. rs[k..] is the trailing message met so far (`Tail`, `Body`); `body`
   summarises rs[m..k] read on its own.
   */
  ghost predicate Scanned(r: Rules, rs: seq<Record>, m: int, k: int, phase: Phase, c: Ctx, tail: Summary, body: Summary) {
    && 0 <= m <= k <= |rs|
    && match phase
       case Start => k == |rs| && AllIgnored(rs[m..]) && c == OUTSIDE && tail == IDENTITY && body == IDENTITY
       case Tail =>
         && k < |rs| && rs[k].Assistant? && AllIgnored(rs[m..k])
         && c == CtxBefore(rs[k..], OUTSIDE)
         && tail == SummaryOf(r, FactsBefore(rs[k..], OUTSIDE)) && body == IDENTITY
       case Body =>
         && (k < |rs| ==> rs[k].Assistant? && !SameMessage(LastSaid(rs[m..k]), rs[k]))
         && (k == |rs| ==> Closed(rs[m..k])) && !LastSaid(rs[m..k]).Ignored?
         && c == CtxBefore(rs[m..k], OUTSIDE)
         && tail == SummaryOf(r, FactsBefore(rs[k..], OUTSIDE))
         && body == SummaryOf(r, FactsBefore(rs[m..k], OUTSIDE))
  }

  lemma IgnoredReads(rs: seq<Record>, c: Ctx)
    requires AllIgnored(rs)
    ensures FactsBefore(rs, c) == [] && CtxBefore(rs, c) == c && LastSaid(rs).Ignored?
    decreases |rs|
  {
    if rs != [] {
      IgnoredReads(rs[..|rs| - 1], c);
    }
  }

  lemma OneRead(r: Record, c: Ctx)
    ensures FactsBefore([r], c) == Emit(c, r) && CtxBefore([r], c) == Step(c, r) && LastSaid([r]) == r
  {
    assert [r][..0] == [];
  }

  /** Reading one record more, at the front of what has been read. */
  lemma ReadMore(r: Record, rs: seq<Record>, c: Ctx)
    ensures FactsBefore([r] + rs, c) == Emit(CtxBefore(rs, c), r) + FactsBefore(rs, c)
    ensures CtxBefore([r] + rs, c) == Step(CtxBefore(rs, c), r)
    ensures LastSaid([r] + rs) == if LastSaid(rs).Ignored? then r else LastSaid(rs)
  {
    BackwardSplit([r], rs, c);
    OneRead(r, CtxBefore(rs, c));
    LastSaidGrows([r], rs);
    OneRead(r, c);
  }

  lemma PushSummary(r: Rules, older: seq<AskFact>, newer: seq<AskFact>, acc: Summary)
    requires acc == SummaryOf(r, newer)
    ensures Compose(acc, SummaryOf(r, older)) == SummaryOf(r, older + newer)
  {
    SummaryConcat(r, older, newer);
  }

  lemma Cons(rs: seq<Record>, m: int, k: int)
    requires 0 < m <= k <= |rs|
    ensures rs[m - 1..k] == [rs[m - 1]] + rs[m..k]
  {
  }

  /** A record read while in the body, or that opens it. */
  lemma BodyStep(r: Rules, rs: seq<Record>, m: int, k: int, phase: Phase, c: Ctx, tail: Summary, body: Summary)
    requires m > 0 && Scanned(r, rs, m, k, phase, c, tail, body)
    requires NextPhase(phase, c, rs[m - 1]) == Body && !rs[m - 1].Ignored?
    ensures Scanned(r, rs, m - 1, k, Body, Step(c, rs[m - 1]), tail, Compose(body, SummaryOf(r, Emit(c, rs[m - 1]))))
  {
    var x := rs[m - 1];
    Cons(rs, m, k);
    ReadMore(x, rs[m..k], OUTSIDE);
    if phase != Body {
      assert AllIgnored(rs[m..k]);
      IgnoredReads(rs[m..k], OUTSIDE);
      assert Emit(c, x) == Emit(OUTSIDE, x) && Step(c, x) == Step(OUTSIDE, x);
      ComposeMonoid(SummaryOf(r, Emit(c, x)), IDENTITY, IDENTITY);
      assert Emit(c, x) + [] == Emit(c, x);
      if phase == Tail {
        FirstOf(rs, k);
        LeftWith(rs[k..], OUTSIDE);
      } else {
        assert rs[k..] == [];
      }
    } else {
      PushSummary(r, Emit(c, x), FactsBefore(rs[m..k], OUTSIDE), body);
    }
  }

  lemma FirstOf(rs: seq<Record>, k: int)
    requires 0 <= k < |rs| && !rs[k].Ignored?
    ensures FirstSaid(rs[k..]) == rs[k]
  {
  }

  lemma BeforeTail(r: Rules, rs: seq<Record>, m: int, k: int, phase: Phase, c: Ctx, tail: Summary, body: Summary)
    requires Scanned(r, rs, m, k, phase, c, tail, body) && phase != Body
    ensures c == CtxBefore(rs[m..], OUTSIDE) && tail == SummaryOf(r, FactsBefore(rs[m..], OUTSIDE))
  {
    if phase == Start {
      IgnoredReads(rs[m..], OUTSIDE);
    } else {
      assert rs[m..] == rs[m..k] + rs[k..];
      BackwardSplit(rs[m..k], rs[k..], OUTSIDE);
      IgnoredReads(rs[m..k], CtxBefore(rs[k..], OUTSIDE));
      assert [] + FactsBefore(rs[k..], OUTSIDE) == FactsBefore(rs[k..], OUTSIDE);
    }
  }

  /** A record of the trailing message. */
  lemma TailStep(r: Rules, rs: seq<Record>, m: int, k: int, phase: Phase, c: Ctx, tail: Summary, body: Summary)
    requires m > 0 && Scanned(r, rs, m, k, phase, c, tail, body)
    requires NextPhase(phase, c, rs[m - 1]) == Tail && rs[m - 1].Assistant?
    ensures Scanned(r, rs, m - 1, m - 1, Tail, Step(c, rs[m - 1]), Compose(tail, SummaryOf(r, Emit(c, rs[m - 1]))), body)
  {
    var x := rs[m - 1];
    BeforeTail(r, rs, m, k, phase, c, tail, body);
    assert rs[m - 1..] == [x] + rs[m..];
    ReadMore(x, rs[m..], OUTSIDE);
    PushSummary(r, Emit(c, x), FactsBefore(rs[m..], OUTSIDE), tail);
  }

  lemma IgnoredStep(r: Rules, rs: seq<Record>, m: int, k: int, phase: Phase, c: Ctx, tail: Summary, body: Summary)
    requires m > 0 && Scanned(r, rs, m, k, phase, c, tail, body) && rs[m - 1].Ignored?
    ensures Scanned(r, rs, m - 1, k, phase, c, tail, body)
  {
    Cons(rs, m, k);
    ReadMore(rs[m - 1], rs[m..k], OUTSIDE);
    if phase == Start {
      assert rs[m - 1..] == rs[m - 1..k] && rs[m..] == rs[m..k];
    }
    assert [] + FactsBefore(rs[m..k], OUTSIDE) == FactsBefore(rs[m..k], OUTSIDE);
  }

  // ---------------------------------------------------------------------------------------------
  // Offsets
  // ---------------------------------------------------------------------------------------------

  lemma {:induction false} CutAtStart(file: seq<Byte>, lo: int, hi: int, k: int)
    requires 0 <= lo <= hi <= |file| && 0 <= k < |Lines(file, lo, hi)|
    ensures IsCut(file, lo, hi, k, Lines(file, lo, hi)[k].start)
    decreases hi - lo
  {
    var nl := NextNewline(file, lo, hi);
    var first, rest := FirstLine(file, lo, nl), Lines(file, nl + 1, hi);
    assert Lines(file, lo, hi) == first + rest;
    if k < |first| {
      LinesNone(file, lo, lo);
    } else {
      CutAtStart(file, nl + 1, hi, k - |first|);
      CutStep(file, lo, nl, hi, k - |first|, rest[k - |first|].start);
    }
  }

  /** The `k`-th line starts at `s`: up to there the region holds the first `k` lines. */
  ghost predicate IsCut(file: seq<Byte>, lo: int, hi: int, k: int, s: int)
    requires 0 <= lo <= hi <= |file|
  {
    && lo <= s <= hi && (s == lo || file[s - 1] == NEWLINE)
    && 0 <= k <= |Lines(file, lo, hi)| && Lines(file, lo, s) == Lines(file, lo, hi)[..k]
  }

  function FirstLine(file: seq<Byte>, lo: int, nl: int): seq<Line>
    requires 0 <= lo <= nl <= |file|
  {
    if nl > lo then [Line(file[lo..nl], lo, nl)] else []
  }

  lemma CutStep(file: seq<Byte>, lo: int, nl: int, hi: int, j: int, s: int)
    requires 0 <= lo <= nl < hi <= |file| && NoNewline(file, lo, nl) && file[nl] == NEWLINE
    requires IsCut(file, nl + 1, hi, j, s)
    ensures IsCut(file, lo, hi, |FirstLine(file, lo, nl)| + j, s)
  {
    LinesFirst(file, lo, nl, hi);
    LinesFirst(file, lo, nl, s);
    var first, rest := FirstLine(file, lo, nl), Lines(file, nl + 1, hi);
    assert (first + rest)[..|first| + j] == first + rest[..j];
  }

  lemma {:induction false} CutAtEnd(file: seq<Byte>, lo: int, hi: int)
    requires 0 <= lo <= hi <= |file| && |Lines(file, lo, hi)| > 0
    ensures var all := Lines(file, lo, hi);
            var e := all[|all| - 1].end + 1;
            && lo < e <= hi && file[e - 1] == NEWLINE
            && Lines(file, e, hi) == []
    decreases hi - lo
  {
    var nl := NextNewline(file, lo, hi);
    var all, rest := Lines(file, lo, hi), Lines(file, nl + 1, hi);
    if |rest| > 0 {
      CutAtEnd(file, nl + 1, hi);
      assert all[|all| - 1] == rest[|rest| - 1];
    }
  }

  lemma RecordsConcat(p: Reader, a: seq<Line>, b: seq<Line>)
    ensures Records(p, a + b) == Records(p, a) + Records(p, b)
  {
  }

  lemma RecordsSplit(p: Reader, file: seq<Byte>, lo: int, mid: int, hi: int)
    requires 0 <= lo <= mid <= hi <= |file| && (mid == lo || file[mid - 1] == NEWLINE)
    ensures RecordsOf(p, file, lo, hi) == RecordsOf(p, file, lo, mid) + RecordsOf(p, file, mid, hi)
  {
    LinesSplit(file, lo, mid, hi);
    RecordsConcat(p, Lines(file, lo, mid), Lines(file, mid, hi));
  }

  // ---------------------------------------------------------------------------------------------
  // scanRegion
  // ---------------------------------------------------------------------------------------------

  /** `push` of each fact, newest first. */
  method PushAll(r: Rules, acc0: Summary, facts: seq<AskFact>) returns (acc: Summary)
    ensures acc == Compose(acc0, SummaryOf(r, facts))
  {
    acc := acc0;
    var i := |facts|;
    ComposeMonoid(acc0, IDENTITY, IDENTITY);
    assert facts[|facts|..] == [];
    while i > 0
      invariant 0 <= i <= |facts|
      invariant acc == Compose(acc0, SummaryOf(r, facts[i..]))
    {
      i := i - 1;
      assert facts[i..][1..] == facts[i + 1..];
      ComposeMonoid(acc0, SummaryOf(r, facts[i + 1..]), SummaryOfFact(r, facts[i]));
      acc := Compose(acc, SummaryOfFact(r, facts[i]));
    }
    assert facts[0..] == facts;
  }

  /** One record of the scan: the run it belongs to, the phase, and what it pushes. */
  method ScanRecord(r: Rules, x: Record, phase0: Phase, c0: Ctx, tail0: Summary, body0: Summary)
    returns (phase: Phase, c: Ctx, tail: Summary, body: Summary)
    ensures phase == NextPhase(phase0, c0, x) && c == Step(c0, x)
    ensures tail == (if phase == Tail then Compose(tail0, SummaryOf(r, Emit(c0, x))) else tail0)
    ensures body == (if phase == Tail then body0 else Compose(body0, SummaryOf(r, Emit(c0, x))))
  {
    phase, c, tail, body := phase0, c0, tail0, body0;
    var pushed: seq<AskFact> := [];
    match x {
      case Ignored =>
      case Assistant(id, endTurn, lastText, facts) =>
        if id.None? || id != c.runId {
          phase := if phase == Start then Tail else Body;
          c := Ctx(id, endTurn);
        }
        pushed := facts;
        if c.wants && lastText.Some? {
          pushed := facts + [EndTurn(lastText.value)];
          c := c.(wants := false);
        }
      case Human(facts) =>
        c := OUTSIDE;
        phase := Body;
        pushed := facts;
    }
    assert pushed == Emit(c0, x);
    if phase == Tail {
      tail := PushAll(r, tail, pushed);
    } else {
      body := PushAll(r, body, pushed);
    }
  }

  lemma ScanStep(r: Rules, rs: seq<Record>, m: int, k: int, phase: Phase, c: Ctx, tail: Summary, body: Summary)
    requires m > 0 && Scanned(r, rs, m, k, phase, c, tail, body)
    ensures var x := rs[m - 1];
            var phase' := NextPhase(phase, c, x);
            Scanned(r, rs, m - 1, if phase' == Tail && !x.Ignored? then m - 1 else k, phase', Step(c, x),
                    if phase' == Tail then Compose(tail, SummaryOf(r, Emit(c, x))) else tail,
                    if phase' == Tail then body else Compose(body, SummaryOf(r, Emit(c, x))))
  {
    var x := rs[m - 1];
    if x.Ignored? {
      IgnoredStep(r, rs, m, k, phase, c, tail, body);
      ComposeMonoid(tail, IDENTITY, IDENTITY);
      ComposeMonoid(body, IDENTITY, IDENTITY);
    } else if NextPhase(phase, c, x) == Tail {
      TailStep(r, rs, m, k, phase, c, tail, body);
    } else {
      NotInStart(r, rs, m, k, phase, c, tail, body);
      BodyStep(r, rs, m, k, phase, c, tail, body);
    }
  }

  lemma NotInStart(r: Rules, rs: seq<Record>, m: int, k: int, phase: Phase, c: Ctx, tail: Summary, body: Summary)
    requires m > 0 && Scanned(r, rs, m, k, phase, c, tail, body) && !rs[m - 1].Ignored?
    ensures NextPhase(phase, c, rs[m - 1]) != Start
  {
  }

  /** What a finished scan of [lo, hi) reports: the trailing message apart, everything before `bodyEnd` summarised. */
  ghost predicate RegionScanned(p: Reader, file: seq<Byte>, lo: int, hi: int, tail: Summary, body: Summary, bodyEnd: int) {
    && 0 <= lo <= bodyEnd <= hi <= |file| && (bodyEnd == lo || file[bodyEnd - 1] == NEWLINE)
    && body == SummaryOf(p.rules, ForwardFacts(RecordsOf(p, file, lo, bodyEnd)))
    && tail == SummaryOf(p.rules, ForwardFacts(RecordsOf(p, file, bodyEnd, hi)))
    && SafeCut(RecordsOf(p, file, lo, bodyEnd), RecordsOf(p, file, bodyEnd, hi))
  }

  /** Stopping at a decisive body loses nothing: whatever is older cannot change it. */
  lemma ScanEnds(r: Rules, rs: seq<Record>, m: int, k: int, phase: Phase, c: Ctx, tail: Summary, body: Summary)
    requires Scanned(r, rs, m, k, phase, c, tail, body)
    requires m == 0 || (phase == Body && body.Const?)
    ensures body == SummaryOf(r, ForwardFacts(rs[..k])) && tail == SummaryOf(r, ForwardFacts(rs[k..]))
    ensures SafeCut(rs[..k], rs[k..])
    ensures k < |rs| ==> rs[k].Assistant?
  {
    BackwardIsForward(rs[..k]);
    BackwardIsForward(rs[k..]);
    assert rs[..k] == rs[..m] + rs[m..k];
    BackwardSplit(rs[..m], rs[m..k], OUTSIDE);
    LastSaidGrows(rs[..m], rs[m..k]);
    if k < |rs| && !rs[k].Ignored? {
      FirstOf(rs, k);
    }
    if phase == Body {
      SummaryConcat(r, FactsBefore(rs[..m], CtxBefore(rs[m..k], OUTSIDE)), FactsBefore(rs[m..k], OUTSIDE));
      if m == 0 {
        assert rs[..m] == [] && [] + FactsBefore(rs[m..k], OUTSIDE) == FactsBefore(rs[m..k], OUTSIDE);
      }
    } else {
      assert rs[..m] == [] && rs[m..k] == rs[..k];
      IgnoredReads(rs[..k], OUTSIDE);
      if phase == Start {
        assert rs[m..] == rs[..k] && rs[k..] == [];
      }
    }
  }

  /** The offsets the scan has noted: the end of the newest complete line, the start of the trailing message. */
  ghost predicate Noted(forward: seq<Line>, j: int, k: int, completeEnd: Option<int>, tailStart: Option<int>) {
    && 0 <= j <= |forward| && 0 <= k <= |forward|
    && completeEnd == (if j == 0 then None else Some(forward[|forward| - 1].end + 1))
    && tailStart == (if k < |forward| then Some(forward[k].start) else None)
  }

  /** One line of the loop. */
  method ScanLine(p: Reader, line: Line, phase0: Phase, c0: Ctx, tail0: Summary, body0: Summary, tailStart0: Option<int>,
                  completeEnd0: Option<int>, ghost forward: seq<Line>, ghost rs: seq<Record>, ghost m: int, ghost k0: int)
    returns (phase: Phase, c: Ctx, tail: Summary, body: Summary, tailStart: Option<int>, completeEnd: Option<int>, ghost k: int)
    requires m > 0 && Progress(p, forward, rs, m, k0, phase0, c0, tail0, body0, completeEnd0, tailStart0)
    requires line == forward[m - 1] && p.parse(line.text) == rs[m - 1]
    ensures Progress(p, forward, rs, m - 1, k, phase, c, tail, body, completeEnd, tailStart)
  {
    completeEnd := if completeEnd0.None? then Some(line.end + 1) else completeEnd0;
    var x := p.parse(line.text);
    ScanStep(p.rules, rs, m, k0, phase0, c0, tail0, body0);
    phase, c, tail, body := ScanRecord(p.rules, x, phase0, c0, tail0, body0);
    tailStart, k := tailStart0, k0;
    if phase == Tail && x.Assistant? {
      tailStart := Some(line.start);
      k := m - 1;
    }
  }

  /** What the loop has read and noted. */
  ghost predicate Progress(p: Reader, forward: seq<Line>, rs: seq<Record>, m: int, k: int, phase: Phase, c: Ctx,
                           tail: Summary, body: Summary, completeEnd: Option<int>, tailStart: Option<int>) {
    && |forward| == |rs|
    && Scanned(p.rules, rs, m, k, phase, c, tail, body)
    && Noted(forward, |rs| - m, k, completeEnd, tailStart)
  }

  /** `lines` are the lines of `forward` from the last one on, and `rs` what they hold. */
  ghost predicate NewestFirst(p: Reader, lines: seq<Line>, forward: seq<Line>, rs: seq<Record>) {
    && |lines| == |forward| == |rs|
    && (forall i :: 0 <= i < |lines| ==> lines[i] == forward[|forward| - 1 - i])
    && (forall i :: 0 <= i < |lines| ==> p.parse(lines[i].text) == rs[|rs| - 1 - i])
  }

  lemma LineHere(p: Reader, lines: seq<Line>, forward: seq<Line>, rs: seq<Record>, i: int)
    requires NewestFirst(p, lines, forward, rs) && 0 <= i < |lines|
    ensures lines[i] == forward[|rs| - i - 1] && p.parse(lines[i].text) == rs[|rs| - i - 1]
  {
  }

  /** The loop over the lines, newest first, stopping once the body is decisive. */
  method ScanLines(p: Reader, lines: seq<Line>, ghost forward: seq<Line>, ghost rs: seq<Record>)
    returns (phase: Phase, tail: Summary, body: Summary, completeEnd: Option<int>, tailStart: Option<int>, c: Ctx,
             ghost m: int, ghost k: int)
    requires NewestFirst(p, lines, forward, rs)
    ensures Progress(p, forward, rs, m, k, phase, c, tail, body, completeEnd, tailStart)
    ensures m == 0 || (phase == Body && body.Const?)
  {
    tail, body := IDENTITY, IDENTITY;
    completeEnd, tailStart := None, None;
    phase, c := Start, OUTSIDE;
    k := |rs|;
    NothingScanned(p, forward, rs);
    var i := 0;
    while i < |lines| && !(phase == Body && body.Const?)
      invariant 0 <= i <= |lines|
      invariant Progress(p, forward, rs, |rs| - i, k, phase, c, tail, body, completeEnd, tailStart)
      decreases |lines| - i
    {
      LineHere(p, lines, forward, rs, i);
      phase, c, tail, body, tailStart, completeEnd, k :=
        ScanLine(p, lines[i], phase, c, tail, body, tailStart, completeEnd, forward, rs, |rs| - i, k);
      i := i + 1;
    }
    m := |rs| - i;
  }

  method ScanRegion(p: Reader, file: seq<Byte>, lo: int, hi: int, chunk: int)
    returns (tail: Summary, body: Summary, bodyEnd: int)
    requires 0 <= lo <= hi <= |file| && chunk >= 1
    ensures RegionScanned(p, file, lo, hi, tail, body, bodyEnd)
  {
    var lines := LinesBackward(file, lo, hi, chunk);
    ghost var forward := Lines(file, lo, hi);
    var phase, completeEnd, tailStart, c;
    ghost var m, k;
    phase, tail, body, completeEnd, tailStart, c, m, k := ScanLines(p, lines, forward, Records(p, forward));
    bodyEnd := if tailStart.Some? then tailStart.value else if completeEnd.Some? then completeEnd.value else lo;
    RegionDone(p, file, lo, hi, m, k, phase, c, tail, body, completeEnd, tailStart, bodyEnd);
  }

  lemma NothingScanned(p: Reader, forward: seq<Line>, rs: seq<Record>)
    requires |forward| == |rs|
    ensures Progress(p, forward, rs, |rs|, |rs|, Start, OUTSIDE, IDENTITY, IDENTITY, None, None)
  {
    assert rs[|rs|..] == [];
  }

  lemma RegionDone(p: Reader, file: seq<Byte>, lo: int, hi: int, m: int, k: int, phase: Phase, c: Ctx,
                   tail: Summary, body: Summary, completeEnd: Option<int>, tailStart: Option<int>, bodyEnd: int)
    requires 0 <= lo <= hi <= |file|
    requires var rs := RecordsOf(p, file, lo, hi);
             && Scanned(p.rules, rs, m, k, phase, c, tail, body)
             && (m == 0 || (phase == Body && body.Const?))
    requires Noted(Lines(file, lo, hi), |RecordsOf(p, file, lo, hi)| - m, k, completeEnd, tailStart)
    requires bodyEnd == if tailStart.Some? then tailStart.value else if completeEnd.Some? then completeEnd.value else lo
    ensures RegionScanned(p, file, lo, hi, tail, body, bodyEnd)
  {
    var rs := RecordsOf(p, file, lo, hi);
    ScanEnds(p.rules, rs, m, k, phase, c, tail, body);
    SomethingNoted(p.rules, rs, m, k, phase, c, tail, body);
    CutHere(p, file, lo, hi, k, bodyEnd);
  }

  /** A scan that read no line has no end of a complete line, and only then. */
  lemma SomethingNoted(r: Rules, rs: seq<Record>, m: int, k: int, phase: Phase, c: Ctx, tail: Summary, body: Summary)
    requires Scanned(r, rs, m, k, phase, c, tail, body) && (m == 0 || phase == Body)
    ensures m == |rs| ==> |rs| == 0
  {
  }


  /** The offset a scan reports cuts the file's lines exactly where it cut its records. */
  lemma CutHere(p: Reader, file: seq<Byte>, lo: int, hi: int, k: int, bodyEnd: int)
    requires 0 <= lo <= hi <= |file| && 0 <= k <= |Lines(file, lo, hi)|
    requires var all := Lines(file, lo, hi);
             bodyEnd == if k < |all| then all[k].start else if |all| > 0 then all[|all| - 1].end + 1 else lo
    ensures lo <= bodyEnd <= hi && (bodyEnd == lo || file[bodyEnd - 1] == NEWLINE)
    ensures RecordsOf(p, file, lo, bodyEnd) == RecordsOf(p, file, lo, hi)[..k]
    ensures RecordsOf(p, file, bodyEnd, hi) == RecordsOf(p, file, lo, hi)[k..]
  {
    var all := Lines(file, lo, hi);
    if k < |all| {
      CutAtStart(file, lo, hi, k);
    } else if |all| > 0 {
      CutAtEnd(file, lo, hi);
    } else {
      LinesNone(file, lo, lo);
    }
    RecordsSplit(p, file, lo, bodyEnd, hi);
    LinesSplit(file, lo, bodyEnd, hi);
    assert |RecordsOf(p, file, lo, bodyEnd)| == k;
  }

  // ---------------------------------------------------------------------------------------------
  // The memo
  // ---------------------------------------------------------------------------------------------

  /** A cut moves forward over `middle` when both cuts are safe. */
  lemma SafeCutMoves(older: seq<Record>, middle: seq<Record>, newer: seq<Record>)
    requires SafeCut(older, middle + newer) && SafeCut(middle, newer)
    ensures SafeCut(older + middle, newer)
    ensures ForwardFacts(older + middle) == ForwardFacts(older) + ForwardFacts(middle)
  {
    FirstSaidGrows(middle, newer);
    LastSaidGrows(older, middle);
    if AllIgnored(middle) {
      IgnoredReads(middle, OUTSIDE);
      BackwardSplit(older, middle, OUTSIDE);
      BackwardIsForward(older + middle);
      BackwardIsForward(older);
      BackwardIsForward(middle);
    } else {
      CutFacts(older, middle);
    }
  }

  datatype Stat = Stat(dev: int, ino: int, ctimeMs: int, mtimeMs: int, size: int, isFile: bool)

  datatype MemoEntry = MemoEntry(dev: int, ino: int, ctimeMs: int, mtimeMs: int, size: int,
                                 scannedTo: int, base: Summary, full: Summary)

  /** What a memo entry says about the bytes it was made from. */
  ghost predicate EntryFor(p: Reader, e: MemoEntry, file: seq<Byte>) {
    && e.size == |file| && 0 <= e.scannedTo <= |file| && LineStart(file, e.scannedTo)
    && e.base == SummaryOf(p.rules, ForwardFacts(RecordsOf(p, file, 0, e.scannedTo)))
    && e.full == SummaryOf(p.rules, FileFacts(p, file))
    && SafeCut(RecordsOf(p, file, 0, e.scannedTo), RecordsOf(p, file, e.scannedTo, |file|))
  }

  lemma RecordsPrefix(p: Reader, file: seq<Byte>, more: seq<Byte>, lo: int, hi: int)
    requires 0 <= lo <= hi <= |file| && file <= more
    ensures RecordsOf(p, more, lo, hi) == RecordsOf(p, file, lo, hi)
  {
    LinesPrefix(file, more, lo, hi);
  }

  /** The last scan's cut stays safe however the file has grown. */
  lemma CutSurvives(p: Reader, file: seq<Byte>, more: seq<Byte>, at: int)
    requires file <= more && 0 <= at <= |file| && LineStart(file, at)
    requires SafeCut(RecordsOf(p, file, 0, at), RecordsOf(p, file, at, |file|))
    ensures RecordsOf(p, more, 0, at) == RecordsOf(p, file, 0, at)
    ensures SafeCut(RecordsOf(p, more, 0, at), RecordsOf(p, more, at, |more|))
  {
    RecordsPrefix(p, file, more, 0, at);
    var last := LastStart(file, at);
    RecordsPrefix(p, file, more, at, last);
    RecordsSplit(p, file, at, last, |file|);
    UnfinishedSaysNothing(p, file, last);
    RecordsSplit(p, more, at, last, |more|);
    assert RecordsOf(p, file, at, last) + [] == RecordsOf(p, file, at, last);
    SafeCutGrows(RecordsOf(p, file, 0, at), RecordsOf(p, file, at, last), RecordsOf(p, more, last, |more|));
  }

  /** The start of the file's unfinished last line, at or after `at`. */
  function LastStart(file: seq<Byte>, at: int): (s: int)
    requires 0 <= at <= |file| && LineStart(file, at)
    ensures at <= s <= |file| && (s == at || file[s - 1] == NEWLINE)
    ensures NextNewline(file, s, |file|) == |file|
    decreases |file| - at
  {
    var nl := NextNewline(file, at, |file|);
    if nl == |file| then at else LastStart(file, nl + 1)
  }

  lemma UnfinishedSaysNothing(p: Reader, file: seq<Byte>, s: int)
    requires 0 <= s <= |file| && NextNewline(file, s, |file|) == |file|
    ensures RecordsOf(p, file, s, |file|) == []
  {
  }

  /** An incremental scan from the last cut, composed with what was known below it, is a full scan. */
  lemma IncrementIsFull(p: Reader, file: seq<Byte>, at: int, base: Summary, tail: Summary, body: Summary, bodyEnd: int)
    requires 0 <= at <= |file| && LineStart(file, at)
    requires base == SummaryOf(p.rules, ForwardFacts(RecordsOf(p, file, 0, at)))
    requires SafeCut(RecordsOf(p, file, 0, at), RecordsOf(p, file, at, |file|))
    requires RegionScanned(p, file, at, |file|, tail, body, bodyEnd)
    ensures LineStart(file, bodyEnd)
    ensures Compose(body, base) == SummaryOf(p.rules, ForwardFacts(RecordsOf(p, file, 0, bodyEnd)))
    ensures Compose(tail, Compose(body, base)) == SummaryOf(p.rules, FileFacts(p, file))
    ensures SafeCut(RecordsOf(p, file, 0, bodyEnd), RecordsOf(p, file, bodyEnd, |file|))
  {
    var older, middle, newer := RecordsOf(p, file, 0, at), RecordsOf(p, file, at, bodyEnd), RecordsOf(p, file, bodyEnd, |file|);
    RecordsSplit(p, file, at, bodyEnd, |file|);
    RecordsSplit(p, file, 0, at, bodyEnd);
    RecordsSplit(p, file, 0, bodyEnd, |file|);
    SafeCutMoves(older, middle, newer);
    SummaryConcat(p.rules, ForwardFacts(older), ForwardFacts(middle));
    CutFacts(older + middle, newer);
    SummaryConcat(p.rules, ForwardFacts(older + middle), ForwardFacts(newer));
  }

  lemma NothingBelow(p: Reader, file: seq<Byte>)
    ensures RecordsOf(p, file, 0, 0) == [] && ForwardFacts(RecordsOf(p, file, 0, 0)) == []
    ensures SafeCut(RecordsOf(p, file, 0, 0), RecordsOf(p, file, 0, |file|))
  {
    LinesNone(file, 0, 0);
  }

  /** One segment's transcript as the walk finds it: missing, or its stat and its bytes. */
  datatype Segment = Missing | Found(st: Stat, bytes: seq<Byte>)

  function SegmentFacts(p: Reader, s: Segment): seq<AskFact> {
    if s.Found? && s.st.isFile then FileFacts(p, s.bytes) else []
  }

  /** Oldest segment first. */
  function ChainFacts(p: Reader, segments: seq<Segment>): seq<AskFact> {
    if segments == [] then [] else SegmentFacts(p, segments[0]) + ChainFacts(p, segments[1..])
  }

  class TranscriptMemo {
    const reader: Reader
    const chunk: int
    var memo: map<string, MemoEntry>
    /** The bytes each entry was made from. */
    ghost var contents: map<string, seq<Byte>>

    ghost predicate Valid()
      reads this
    {
      chunk >= 1 && forall file :: file in memo ==> file in contents && EntryFor(reader, memo[file], contents[file])
    }

    predicate SameInodeGrown(file: string, st: Stat)
      reads this
    {
      file in memo && memo[file].dev == st.dev && memo[file].ino == st.ino && st.size >= memo[file].size
    }

    /** `file` has only grown since it was last scanned, as long as it is still the same inode and no smaller. */
    ghost predicate GrownOnly(file: string, s: Segment)
      reads this
    {
      s.Found? && s.st.isFile ==>
        && s.st.size == |s.bytes|
        && (SameInodeGrown(file, s.st) && file in contents ==> contents[file] <= s.bytes)
    }

    constructor (reader: Reader, chunk: int)
      requires chunk >= 1
      ensures Valid() && memo == map[] && this.reader == reader
    {
      this.reader, this.chunk, memo, contents := reader, chunk, map[], map[];
    }

    /**
     `segmentSummary`: a hit, an incremental scan or a full one, and whichever it is, the summary of all the facts
     in the file's complete lines now.
     */
    method SegmentSummary(file: string, s: Segment) returns (full: Summary)
      requires Valid() && GrownOnly(file, s)
      modifies this
      ensures Valid() && GrownOnly(file, s)
      ensures full == SummaryOf(reader.rules, SegmentFacts(reader, s))
      ensures OthersKept(old(memo), old(contents), file)
    {
      if s.Missing? {
        memo := memo - {file};
        return IDENTITY;
      }
      if !s.st.isFile {
        return IDENTITY;
      }
      full := FileSummary(file, s);
    }

    /** Entries of other files are as they were. */
    ghost predicate OthersKept(memo0: map<string, MemoEntry>, contents0: map<string, seq<Byte>>, file: string)
      reads this
    {
      forall other :: other != file ==>
        (other in memo ==> other in memo0 && memo[other] == memo0[other]) &&
        (other in contents <==> other in contents0) && (other in contents ==> contents[other] == contents0[other])
    }

    method FileSummary(file: string, s: Segment) returns (full: Summary)
      requires Valid() && GrownOnly(file, s) && s.Found? && s.st.isFile
      modifies this
      ensures Valid() && GrownOnly(file, s)
      ensures full == SummaryOf(reader.rules, FileFacts(reader, s.bytes))
      ensures OthersKept(old(memo), old(contents), file)
    {
      var st := s.st;
      var prev := if SameInodeGrown(file, st) then Some(memo[file]) else None;
      if prev.Some? && prev.value.size == st.size && prev.value.ctimeMs == st.ctimeMs && prev.value.mtimeMs == st.mtimeMs {
        assert contents[file] == s.bytes;
        return prev.value.full;
      }
      var entry := ScanFrom(st, s.bytes, prev, if prev.Some? then contents[file] else []);
      Remember(file, entry, s.bytes);
      full := entry.full;
    }

    method Remember(file: string, entry: MemoEntry, ghost bytes: seq<Byte>)
      requires Valid() && EntryFor(reader, entry, bytes)
      modifies this
      ensures Valid()
      ensures memo == old(memo)[file := entry] && contents == old(contents)[file := bytes]
    {
      memo := memo[file := entry];
      contents := contents[file := bytes];
    }

    /** The scan behind a memo miss: from where the last one stopped, or from the start. */
    method ScanFrom(st: Stat, bytes: seq<Byte>, prev: Option<MemoEntry>, ghost was: seq<Byte>) returns (e: MemoEntry)
      requires chunk >= 1 && st.size == |bytes|
      requires prev.Some? ==> EntryFor(reader, prev.value, was) && was <= bytes
      ensures EntryFor(reader, e, bytes)
      ensures e.dev == st.dev && e.ino == st.ino && e.ctimeMs == st.ctimeMs && e.mtimeMs == st.mtimeMs
    {
      var at := if prev.Some? then prev.value.scannedTo else 0;
      ghost var below := if prev.Some? then prev.value.base else IDENTITY;
      if prev.Some? {
        CutSurvives(reader, was, bytes, at);
      } else {
        NothingBelow(reader, bytes);
      }
      assert LineStart(bytes, at);
      var tail, body, bodyEnd := ScanRegion(reader, bytes, at, st.size, chunk);
      IncrementIsFull(reader, bytes, at, below, tail, body, bodyEnd);
      ComposeMonoid(body, IDENTITY, IDENTITY);
      var base := if prev.Some? then Compose(body, prev.value.base) else body;
      e := MemoEntry(st.dev, st.ino, st.ctimeMs, st.mtimeMs, st.size, bodyEnd, base, Compose(tail, base));
    }

    /**
     `deriveAwaitingUser`: segments newest first, stopping once a summary is decisive, equals folding every
     segment's facts oldest first.
     */
    method DeriveAwaitingUser(files: seq<string>, segments: seq<Segment>) returns (state: State)
      requires Valid() && |files| == |segments|
      requires forall i, j :: 0 <= i < j < |files| && files[i] == files[j] ==> segments[i] == segments[j]
      requires forall i :: 0 <= i < |files| ==> GrownOnly(files[i], segments[i])
      modifies this
      ensures Valid()
      ensures state == Fold(reader.rules, None, ChainFacts(reader, segments))
    {
      var acc := IDENTITY;
      var i := |files|;
      assert segments[|files|..] == [];
      while i > 0 && !acc.Const?
        invariant 0 <= i <= |files| && Valid()
        invariant forall j :: 0 <= j < i ==> GrownOnly(files[j], segments[j])
        invariant acc == SummaryOf(reader.rules, ChainFacts(reader, segments[i..]))
        decreases i
      {
        i := i - 1;
        var older := SegmentSummary(files[i], segments[i]);
        ChainStep(reader, segments, i);
        acc := Compose(acc, older);
      }
      StopEarly(reader, segments, i, acc);
      state := Apply(acc, None);
    }
  }

  lemma ChainStep(p: Reader, segments: seq<Segment>, i: int)
    requires 0 <= i < |segments|
    ensures SummaryOf(p.rules, ChainFacts(p, segments[i..])) ==
            Compose(SummaryOf(p.rules, ChainFacts(p, segments[i + 1..])), SummaryOf(p.rules, SegmentFacts(p, segments[i])))
  {
    assert segments[i..][1..] == segments[i + 1..];
    SummaryConcat(p.rules, SegmentFacts(p, segments[i]), ChainFacts(p, segments[i + 1..]));
  }

  lemma {:induction false} ChainConcat(p: Reader, a: seq<Segment>, b: seq<Segment>)
    ensures ChainFacts(p, a + b) == ChainFacts(p, a) + ChainFacts(p, b)
    decreases |a|
  {
    if a == [] {
      assert a + b == b;
    } else {
      assert (a + b)[1..] == a[1..] + b;
      ChainConcat(p, a[1..], b);
    }
  }

  /** Once the newer segments decide, the older ones cannot matter. */
  lemma StopEarly(p: Reader, segments: seq<Segment>, i: int, acc: Summary)
    requires 0 <= i <= |segments| && acc == SummaryOf(p.rules, ChainFacts(p, segments[i..]))
    requires i == 0 || acc.Const?
    ensures Apply(acc, None) == Fold(p.rules, None, ChainFacts(p, segments))
  {
    assert segments == segments[..i] + segments[i..];
    ChainConcat(p, segments[..i], segments[i..]);
    SummaryConcat(p.rules, ChainFacts(p, segments[..i]), ChainFacts(p, segments[i..]));
    SummaryFolds(p.rules, ChainFacts(p, segments), None);
    if i == 0 {
      assert segments[0..] == segments;
    }
  }
}
