/**
 What the lines of a transcript say, read forward: assistant records sharing a message id are one message,
 whose final record tells how it ended. `FactsBefore` is the same reading done backward from any point, which
 is what the region scan computes; `BackwardIsForward` shows they agree.
 */
module Conversation {
  import opened Text
  import opened AskState

  /** One complete line as the scan sees it. `Ignored`: unparsable, a sidechain record, or metadata, which breaks no run. */
  datatype Record =
    | Ignored
    | Assistant(id: Option<string>, endTurn: bool, lastText: Option<string>, facts: seq<AskFact>)
    | Human(facts: seq<AskFact>)

  // --- forward ---

  datatype Run = Reply(records: seq<Record>) | Said(record: Record)

  /** Does `r` continue the message the last run is? */
  predicate Continues(runs: seq<Run>, r: Record) {
    && |runs| > 0 && runs[|runs| - 1].Reply? && |runs[|runs| - 1].records| > 0
    && SameMessage(runs[|runs| - 1].records[0], r)
  }

  predicate SameMessage(a: Record, b: Record) {
    a.Assistant? && b.Assistant? && a.id.Some? && a.id == b.id
  }

  /** Read one more record. */
  function Extend(runs: seq<Run>, r: Record): seq<Run> {
    match r
    case Ignored => runs
    case Human(_) => runs + [Said(r)]
    case Assistant(_, _, _, _) =>
      if Continues(runs, r)
      then runs[..|runs| - 1] + [Reply(runs[|runs| - 1].records + [r])]
      else runs + [Reply([r])]
  }

  function Runs(rs: seq<Record>): seq<Run> {
    if rs == [] then [] else Extend(Runs(rs[..|rs| - 1]), rs[|rs| - 1])
  }

  function FactsIn(r: Record): seq<AskFact> {
    if r.Ignored? then [] else r.facts
  }

  /** A message's facts; if its end-of-turn text is wanted, the end of turn follows the last record with text. */
  function ReplyFacts(records: seq<Record>, wanted: bool): seq<AskFact> {
    if records == [] then []
    else
      var front, last := records[..|records| - 1], records[|records| - 1];
      if wanted && last.Assistant? && last.lastText.Some?
      then ReplyFacts(front, false) + FactsIn(last) + [EndTurn(last.lastText.value)]
      else ReplyFacts(front, wanted) + FactsIn(last)
  }

  function RunFacts(run: Run): seq<AskFact> {
    match run
    case Said(r) => FactsIn(r)
    case Reply(records) =>
      ReplyFacts(records, records != [] && records[|records| - 1].Assistant? && records[|records| - 1].endTurn)
  }

  function AllFacts(runs: seq<Run>): seq<AskFact> {
    if runs == [] then [] else AllFacts(runs[..|runs| - 1]) + RunFacts(runs[|runs| - 1])
  }

  /** The facts of a transcript, oldest first. */
  function ForwardFacts(rs: seq<Record>): seq<AskFact> {
    AllFacts(Runs(rs))
  }

  // --- backward ---

  /** What a backward reader carries: the message it is inside, and whether that message's text is still wanted. */
  datatype Ctx = Ctx(runId: Option<string>, wants: bool)

  const OUTSIDE: Ctx := Ctx(None, false)

  function Enter(c: Ctx, r: Record): Ctx
    requires r.Assistant?
  {
    if r.id.None? || r.id != c.runId then Ctx(r.id, r.endTurn) else c
  }

  function Step(c: Ctx, r: Record): Ctx {
    match r
    case Ignored => c
    case Human(_) => OUTSIDE
    case Assistant(_, _, text, _) =>
      var inside := Enter(c, r);
      if inside.wants && text.Some? then inside.(wants := false) else inside
  }

  /** The facts `r` contributes when the reader arrives at it with `c`. */
  function Emit(c: Ctx, r: Record): seq<AskFact> {
    match r
    case Ignored => []
    case Human(facts) => facts
    case Assistant(_, _, text, facts) =>
      if Enter(c, r).wants && text.Some? then facts + [EndTurn(text.value)] else facts
  }

  function CtxBefore(rs: seq<Record>, c: Ctx): Ctx {
    if rs == [] then c else CtxBefore(rs[..|rs| - 1], Step(c, rs[|rs| - 1]))
  }

  function FactsBefore(rs: seq<Record>, c: Ctx): seq<AskFact> {
    if rs == [] then []
    else FactsBefore(rs[..|rs| - 1], Step(c, rs[|rs| - 1])) + Emit(c, rs[|rs| - 1])
  }

  /** Reading backward through `newer` and then `older` is reading backward through both. */
  lemma {:induction false} BackwardSplit(older: seq<Record>, newer: seq<Record>, c: Ctx)
    ensures CtxBefore(older + newer, c) == CtxBefore(older, CtxBefore(newer, c))
    ensures FactsBefore(older + newer, c) == FactsBefore(older, CtxBefore(newer, c)) + FactsBefore(newer, c)
    decreases |newer|
  {
    if newer == [] {
      assert older + newer == older;
    } else {
      var front, last := newer[..|newer| - 1], newer[|newer| - 1];
      assert (older + newer)[..|older + newer| - 1] == older + front;
      assert (older + newer)[|older + newer| - 1] == last;
      BackwardSplit(older, front, Step(c, last));
    }
  }

  // --- the two agree ---

  ghost predicate WellFormed(runs: seq<Run>) {
    forall i :: 0 <= i < |runs| ==> runs[i].Reply? ==> |runs[i].records| > 0 && runs[i].records[0].Assistant?
  }

  lemma {:induction false} RunsWellFormed(rs: seq<Record>)
    ensures WellFormed(Runs(rs))
    decreases |rs|
  {
    if rs != [] {
      RunsWellFormed(rs[..|rs| - 1]);
      var runs, r := Runs(rs[..|rs| - 1]), rs[|rs| - 1];
      assert r.Assistant? && Continues(runs, r) ==> runs[|runs| - 1].records[0].Assistant?;
    }
  }

  /** Is the reader, coming from `c`, still inside the last run? */
  predicate Inside(runs: seq<Run>, c: Ctx) {
    && |runs| > 0 && runs[|runs| - 1].Reply? && |runs[|runs| - 1].records| > 0
    && runs[|runs| - 1].records[0].Assistant? && runs[|runs| - 1].records[0].id.Some?
    && runs[|runs| - 1].records[0].id == c.runId
  }

  /** What a backward reader arriving with `c` reads off forward runs: it finishes its own message on its own terms. */
  function ReadFrom(runs: seq<Run>, c: Ctx): seq<AskFact> {
    if Inside(runs, c) then AllFacts(runs[..|runs| - 1]) + ReplyFacts(runs[|runs| - 1].records, c.wants)
    else AllFacts(runs)
  }

  lemma ReplySnoc(records: seq<Record>, r: Record, wanted: bool)
    requires r.Assistant?
    ensures ReplyFacts(records + [r], wanted) ==
            if wanted && r.lastText.Some? then ReplyFacts(records, false) + (r.facts + [EndTurn(r.lastText.value)])
            else ReplyFacts(records, wanted) + r.facts
  {
    assert (records + [r])[..|records|] == records;
  }

  lemma AllSnoc(runs: seq<Run>, run: Run)
    ensures AllFacts(runs + [run]) == AllFacts(runs) + RunFacts(run)
  {
    assert (runs + [run])[..|runs|] == runs;
  }

  /** A message read by a reader that is inside it, or that enters it at its final record. */
  lemma ReadLast(front: seq<Run>, records: seq<Record>, c: Ctx)
    requires |records| > 0 && records[0].Assistant? && records[|records| - 1].Assistant?
    requires records[|records| - 1].id == records[0].id
    ensures ReadFrom(front + [Reply(records)], c) ==
            AllFacts(front) + ReplyFacts(records, Enter(c, records[|records| - 1]).wants)
  {
    var runs := front + [Reply(records)];
    assert runs[..|runs| - 1] == front && runs[|runs| - 1] == Reply(records);
  }

  /** After `r`, the reader is inside the message before it exactly when `r` continues that message. */
  lemma StepsInto(runs: seq<Run>, r: Record, c: Ctx)
    requires WellFormed(runs) && r.Assistant?
    ensures Inside(runs, Step(c, r)) == Continues(runs, r)
  {
  }

  lemma AssistantStep(runs: seq<Run>, r: Record, c: Ctx)
    requires WellFormed(runs) && r.Assistant?
    ensures ReadFrom(Extend(runs, r), c) == ReadFrom(runs, Step(c, r)) + Emit(c, r)
  {
    StepsInto(runs, r, c);
    var front := if Continues(runs, r) then runs[..|runs| - 1] else runs;
    var before := if Continues(runs, r) then runs[|runs| - 1].records else [];
    ReplySnoc(before, r, Enter(c, r).wants);
    ReadLast(front, before + [r], c);
    assert ReadFrom(runs, Step(c, r)) == AllFacts(front) + ReplyFacts(before, Step(c, r).wants);
    Regroup(AllFacts(front), ReplyFacts(before, Step(c, r).wants), Emit(c, r));
  }

  lemma Regroup(a: seq<AskFact>, b: seq<AskFact>, c: seq<AskFact>)
    ensures a + (b + c) == a + b + c
  {
  }

  lemma {:induction false} ReadBackward(rs: seq<Record>, c: Ctx)
    ensures FactsBefore(rs, c) == ReadFrom(Runs(rs), c)
    decreases |rs|
  {
    if rs != [] {
      var front, r := rs[..|rs| - 1], rs[|rs| - 1];
      var runs := Runs(front);
      ReadBackward(front, Step(c, r));
      match r
      case Ignored =>
      case Human(_) =>
        AllSnoc(runs, Said(r));
        assert (runs + [Said(r)])[|runs|] == Said(r);
      case Assistant(_, _, _, _) =>
        RunsWellFormed(front);
        AssistantStep(runs, r, c);
    }
  }

  /** A reader starting after the last record reads exactly the forward facts. */
  lemma BackwardIsForward(rs: seq<Record>)
    ensures FactsBefore(rs, OUTSIDE) == ForwardFacts(rs)
  {
    ReadBackward(rs, OUTSIDE);
  }

  // --- cutting a transcript ---

  predicate AllIgnored(rs: seq<Record>) {
    forall i :: 0 <= i < |rs| ==> rs[i].Ignored?
  }

  /** The newest record that says something; `Ignored` if there is none. */
  function LastSaid(rs: seq<Record>): Record {
    if rs == [] then Ignored
    else if rs[|rs| - 1].Ignored? then LastSaid(rs[..|rs| - 1]) else rs[|rs| - 1]
  }

  function FirstSaid(rs: seq<Record>): Record {
    if rs == [] then Ignored else if rs[0].Ignored? then FirstSaid(rs[1..]) else rs[0]
  }

  /** Nothing that can follow `older` continues a message in it. */
  predicate Closed(older: seq<Record>) {
    !LastSaid(older).Assistant?
  }

  /** A cut that no growth of `newer` can make wrong: `older` is closed, or `newer` already opens with another message. */
  predicate SafeCut(older: seq<Record>, newer: seq<Record>) {
    Closed(older) || (!FirstSaid(newer).Ignored? && !SameMessage(LastSaid(older), FirstSaid(newer)))
  }

  lemma {:induction false} FirstSaidGrows(rs: seq<Record>, more: seq<Record>)
    ensures FirstSaid(rs + more) == if FirstSaid(rs).Ignored? then FirstSaid(more) else FirstSaid(rs)
    ensures FirstSaid(rs).Ignored? <==> AllIgnored(rs)
    decreases |rs|
  {
    if rs == [] {
      assert rs + more == more;
    } else {
      assert (rs + more)[1..] == rs[1..] + more;
      FirstSaidGrows(rs[1..], more);
      assert forall i :: 0 <= i < |rs| - 1 ==> rs[1..][i] == rs[i + 1];
    }
  }

  lemma {:induction false} LastSaidGrows(rs: seq<Record>, more: seq<Record>)
    ensures LastSaid(rs + more) == if LastSaid(more).Ignored? then LastSaid(rs) else LastSaid(more)
    ensures LastSaid(more).Ignored? <==> AllIgnored(more)
    decreases |more|
  {
    if more == [] {
      assert rs + more == rs;
    } else {
      assert (rs + more)[..|rs + more| - 1] == rs + more[..|more| - 1];
      LastSaidGrows(rs, more[..|more| - 1]);
    }
  }

  lemma SafeCutGrows(older: seq<Record>, newer: seq<Record>, more: seq<Record>)
    requires SafeCut(older, newer)
    ensures SafeCut(older, newer + more)
  {
    FirstSaidGrows(newer, more);
  }

  /** A reader that did not come from the message `older` ends with reads `older` as if from outside. */
  lemma {:induction false} ArriveOutside(older: seq<Record>, c: Ctx)
    requires LastSaid(older).Assistant? && LastSaid(older).id.Some? ==> c.runId != LastSaid(older).id
    ensures FactsBefore(older, c) == FactsBefore(older, OUTSIDE)
    ensures !LastSaid(older).Ignored? ==> CtxBefore(older, c) == CtxBefore(older, OUTSIDE)
    decreases |older|
  {
    if older != [] && older[|older| - 1].Ignored? {
      ArriveOutside(older[..|older| - 1], c);
    }
  }

  /** After reading `newer`, the reader's message is the one `newer` opens with. */
  lemma {:induction false} LeftWith(newer: seq<Record>, c: Ctx)
    ensures var c' := CtxBefore(newer, c);
            if FirstSaid(newer).Ignored? then c' == c
            else if FirstSaid(newer).Assistant? then c'.runId == FirstSaid(newer).id else c' == OUTSIDE
    decreases |newer|
  {
    if newer != [] {
      var front, last := newer[..|newer| - 1], newer[|newer| - 1];
      LeftWith(front, Step(c, last));
      assert newer == front + [last];
      FirstSaidGrows(front, [last]);
      assert FirstSaid([last]) == last by { if last.Ignored? { assert [last][1..] == []; } }
    }
  }

  /** Across a safe cut the forward facts are the facts of the two parts. */
  lemma CutFacts(older: seq<Record>, newer: seq<Record>)
    requires SafeCut(older, newer)
    ensures ForwardFacts(older + newer) == ForwardFacts(older) + ForwardFacts(newer)
  {
    BackwardIsForward(older + newer);
    BackwardIsForward(older);
    BackwardIsForward(newer);
    BackwardSplit(older, newer, OUTSIDE);
    LeftWith(newer, OUTSIDE);
    ArriveOutside(older, CtxBefore(newer, OUTSIDE));
  }
}
