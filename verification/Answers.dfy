/** The answer text delivered for a question card, and its strict parse (shared/userQuestionAnswers.ts). */
module Answers {
  import opened Text
  import opened JsonText

  /** `text`: None when the payload's question is not a string. */
  datatype Question = Question(text: Option<Str>, multiSelect: bool, options: seq<Str>)

  datatype Answer =
    | OptionPick(pick: Str, note: Option<Str>)
    | MultiPick(labels: seq<Str>, note: Option<Str>)
    | Custom(text: Str)
    | NoAnswer

  function NO_ANSWER(): Str { Ascii("(no answer)") }
  function OWN_ANSWER(): Str { Ascii("(own answer) ") }
  function NOTE_OPEN(): Str { Ascii(" (note: ") }
  function NOTE_CLOSE(): Str { Ascii(")") }
  function COMMA(): Str { Ascii(", ") }
  function MULTI_HEAD(): Str { Ascii("My answers:\n") }

  // ---------------------------------------------------------------------------------------------
  // Whitespace
  // ---------------------------------------------------------------------------------------------

  /** What `\s` matches and `trim` strips. */
  predicate IsSpace(u: Unit) {
    0x09 <= u <= 0x0d || u == 0x20 || u == 0xa0 || u == 0x1680 || 0x2000 <= u <= 0x200a
    || u == 0x2028 || u == 0x2029 || u == 0x202f || u == 0x205f || u == 0x3000 || u == 0xfeff
  }

  function TrimStart(s: Str): (t: Str)
    ensures t == [] || !IsSpace(t[0])
    ensures |t| <= |s|
  {
    if s == [] then [] else if IsSpace(s[0]) then TrimStart(s[1..]) else s
  }

  function TrimEnd(s: Str): (t: Str)
    ensures t == [] || !IsSpace(t[|t| - 1])
    ensures t <= s
  {
    if s == [] then [] else if IsSpace(s[|s| - 1]) then TrimEnd(s[..|s| - 1]) else s
  }

  function Trim(s: Str): Str {
    TrimEnd(TrimStart(s))
  }

  lemma TrimTwice(s: Str)
    ensures Trim(Trim(s)) == Trim(s)
  {
  }

  /** Each run of whitespace becomes one space. */
  function Collapse(s: Str): Str
    decreases |s|
  {
    if s == [] then []
    else if IsSpace(s[0]) then [0x20] + Collapse(TrimStart(s[1..]))
    else [s[0]] + Collapse(s[1..])
  }

  function QuestionText(question: Question, fallback: Str): Str {
    Trim(Collapse(if question.text.Some? then question.text.value else fallback))
  }

  function Decimal(n: nat): (d: Str)
    ensures |d| >= 1 && forall i :: 0 <= i < |d| ==> 0x30 <= d[i] <= 0x39
  {
    if n < 10 then [(0x30 + n) as Unit] else Decimal(n / 10) + [(0x30 + n % 10) as Unit]
  }

  function QuestionPrefix(question: Question): Str {
    Ascii("Answer to ") + Quoted(QuestionText(question, Ascii("Question"))) + Ascii(": ")
  }

  function LinePrefix(question: Question, i: nat): Str {
    Decimal(i + 1) + Ascii(". ")
    + Quoted(QuestionText(question, Ascii("Question ") + Decimal(i + 1))) + Ascii(": ")
  }

  // ---------------------------------------------------------------------------------------------
  // Formatting
  // ---------------------------------------------------------------------------------------------

  function QuotedAll(labels: seq<Str>): (all: seq<Str>)
    ensures |all| == |labels| && forall i :: 0 <= i < |labels| ==> all[i] == Quoted(labels[i])
  {
    seq(|labels|, i requires 0 <= i < |labels| => Quoted(labels[i]))
  }

  function Picks(labels: seq<Str>): Str {
    Join(QuotedAll(labels), COMMA())
  }

  /** A blank note is no note. */
  function NoteText(note: Option<Str>): Str {
    if note.None? || Trim(note.value) == [] then []
    else NOTE_OPEN() + Quoted(Trim(note.value)) + NOTE_CLOSE()
  }

  function RenderAnswer(a: Answer): Str {
    match a
    case OptionPick(pick, note) => Quoted(pick) + NoteText(note)
    case MultiPick(labels, note) => Picks(labels) + NoteText(note)
    case Custom(text) => OWN_ANSWER() + Quoted(Trim(text))
    case NoAnswer => NO_ANSWER()
  }

  /** An index past the end is an unanswered question. */
  function AnswerAt(answers: seq<Answer>, i: nat): Answer {
    if i < |answers| then answers[i] else NoAnswer
  }

  function AnswerLine(questions: seq<Question>, answers: seq<Answer>, i: nat): Str
    requires i < |questions|
  {
    LinePrefix(questions[i], i) + RenderAnswer(AnswerAt(answers, i))
  }

  function AnswerLines(questions: seq<Question>, answers: seq<Answer>): (lines: seq<Str>)
    ensures |lines| == |questions|
    ensures forall i :: 0 <= i < |questions| ==> lines[i] == AnswerLine(questions, answers, i)
  {
    seq(|questions|, i requires 0 <= i < |questions| => AnswerLine(questions, answers, i))
  }

  function FormatUserQuestionAnswers(questions: seq<Question>, answers: seq<Answer>): Str {
    if |questions| == 1 then QuestionPrefix(questions[0]) + RenderAnswer(AnswerAt(answers, 0))
    else MULTI_HEAD() + Join(AnswerLines(questions, answers), [NEWLINE])
  }

  // ---------------------------------------------------------------------------------------------
  // Parsing
  // ---------------------------------------------------------------------------------------------

  datatype PickList = PickList(labels: seq<Str>, end: int)

  /** Literals separated by commas, at least one. */
  function ReadPicks(s: Str, i: int): (r: Option<PickList>)
    requires 0 <= i
    ensures r.Some? ==> |r.value.labels| >= 1 && i + 2 <= r.value.end <= |s|
    decreases |s| - i
  {
    var r := ReadQuoted(s, i);
    if r.None? then None
    else if !StartsWith(s, COMMA(), r.value.end) then Some(PickList([r.value.value], r.value.end))
    else
      var rest := ReadPicks(s, r.value.end + 2);
      if rest.None? then None else Some(PickList([r.value.value] + rest.value.labels, rest.value.end))
  }

  predicate Offered(question: Question, labels: seq<Str>) {
    forall i :: 0 <= i < |labels| ==> labels[i] in question.options
  }

  /** What follows the picks: nothing, or a note that ends the text. */
  function ReadNote(s: Str, i: int): Option<Option<Str>>
    requires 0 <= i
  {
    if i >= |s| then Some(None)
    else if !StartsWith(s, NOTE_OPEN(), i) then None
    else
      var r := ReadQuoted(s, i + |NOTE_OPEN()|);
      if r.None? || s[r.value.end..] != NOTE_CLOSE() then None else Some(Some(r.value.value))
  }

  function ParsePicks(question: Question, s: Str): Option<Answer> {
    var picks := ReadPicks(s, 0);
    if picks.None? then None
    else
      var note := ReadNote(s, picks.value.end);
      var labels := picks.value.labels;
      if note.None? || !Offered(question, labels) then None
      else if question.multiSelect then Some(MultiPick(labels, note.value))
      else if |labels| != 1 then None
      else Some(OptionPick(labels[0], note.value))
  }

  /** One body, consumed to its end. */
  function ParseBody(question: Question, s: Str): Option<Answer> {
    if s == NO_ANSWER() then Some(NoAnswer)
    else if StartsWith(s, OWN_ANSWER(), 0) then
      var r := ReadQuoted(s, |OWN_ANSWER()|);
      if r.Some? && r.value.end == |s| then Some(Custom(r.value.value)) else None
    else ParsePicks(question, s)
  }

  function ParseLines(questions: seq<Question>, lines: seq<Str>, i: nat): Option<seq<Answer>>
    requires i <= |questions| == |lines|
    decreases |questions| - i
  {
    if i == |questions| then Some([])
    else
      var prefix := LinePrefix(questions[i], i);
      if !StartsWith(lines[i], prefix, 0) then None
      else
        var answer := ParseBody(questions[i], lines[i][|prefix|..]);
        if answer.None? then None
        else
          var rest := ParseLines(questions, lines, i + 1);
          if rest.None? then None else Some([answer.value] + rest.value)
  }

  function Unanswered(n: nat): (answers: seq<Answer>)
    ensures |answers| == n && forall i :: 0 <= i < n ==> answers[i] == NoAnswer
  {
    seq(n, _ => NoAnswer)
  }

  /** The strict parse; None where it gives up. */
  function StrictParse(questions: seq<Question>, text: Str): (r: Option<seq<Answer>>)
    requires |questions| > 0
  {
    if |questions| == 1 then
      var prefix := QuestionPrefix(questions[0]);
      if !StartsWith(text, prefix, 0) then None
      else
        var answer := ParseBody(questions[0], text[|prefix|..]);
        if answer.None? then None else Some([answer.value])
    else if !StartsWith(text, MULTI_HEAD(), 0) then None
    else
      var lines := Split(text[|MULTI_HEAD()|..], NEWLINE);
      if |lines| != |questions| then None else ParseLines(questions, lines, 0)
  }

  /** Giving up leaves every question unanswered. */
  function ParseUserQuestionAnswers(questions: seq<Question>, text: Str): seq<Answer> {
    if |questions| == 0 then []
    else
      var r := StrictParse(questions, text);
      if r.Some? then r.value else Unanswered(|questions|)
  }

  function ParseCanonicalUserQuestionAnswers(questions: seq<Question>, text: Str): Option<seq<Answer>> {
    if |questions| == 0 then None
    else
      var answers := ParseUserQuestionAnswers(questions, text);
      if FormatUserQuestionAnswers(questions, answers) == text then Some(answers) else None
  }

  // ---------------------------------------------------------------------------------------------
  // The parser as the code runs it
  // ---------------------------------------------------------------------------------------------

  method ParseBodyAt(question: Question, s: Str) returns (answer: Option<Answer>)
    ensures answer == ParseBody(question, s)
  {
    if s == NO_ANSWER() {
      return Some(NoAnswer);
    }
    if StartsWith(s, OWN_ANSWER(), 0) {
      var r := ReadQuotedAt(s, |OWN_ANSWER()|);
      return if r.Some? && r.value.end == |s| then Some(Custom(r.value.value)) else None;
    }
    var picks := ReadPicksAt(s);
    if picks.None? {
      return None;
    }
    var labels, i := picks.value.labels, picks.value.end;
    var note: Option<Str> := None;
    if i < |s| {
      if !StartsWith(s, NOTE_OPEN(), i) {
        return None;
      }
      var r := ReadQuotedAt(s, i + |NOTE_OPEN()|);
      if r.None? || s[r.value.end..] != NOTE_CLOSE() {
        return None;
      }
      note := Some(r.value.value);
    }
    if !Offered(question, labels) {
      return None;
    }
    if question.multiSelect {
      return Some(MultiPick(labels, note));
    }
    answer := if |labels| != 1 then None else Some(OptionPick(labels[0], note));
  }

  method ReadPicksAt(s: Str) returns (r: Option<PickList>)
    ensures r == ReadPicks(s, 0)
  {
    var labels: seq<Str> := [];
    var i := 0;
    OntoLaws(labels, [], ReadPicks(s, 0));
    while true
      invariant 0 <= i
      invariant ReadPicks(s, 0) == Onto(labels, ReadPicks(s, i))
      decreases |s| - i
    {
      var lit := ReadQuotedAt(s, i);
      if lit.None? {
        return None;
      }
      OntoLaws(labels, [lit.value.value], ReadPicks(s, lit.value.end + 2));
      labels := labels + [lit.value.value];
      i := lit.value.end;
      if !StartsWith(s, COMMA(), i) {
        return Some(PickList(labels, i));
      }
      i := i + 2;
    }
  }

  /** Picks already read, put in front. */
  function Onto(labels: seq<Str>, r: Option<PickList>): Option<PickList> {
    if r.None? then None else Some(PickList(labels + r.value.labels, r.value.end))
  }

  lemma OntoLaws(labels: seq<Str>, more: seq<Str>, r: Option<PickList>)
    ensures Onto([], r) == r
    ensures Onto(labels, Onto(more, r)) == Onto(labels + more, r)
  {
    if r.Some? {
      assert [] + r.value.labels == r.value.labels;
      assert labels + (more + r.value.labels) == labels + more + r.value.labels;
    }
  }

  method ParseAnswers(questions: seq<Question>, text: Str) returns (answers: seq<Answer>)
    ensures answers == ParseUserQuestionAnswers(questions, text)
  {
    if |questions| == 0 {
      return [];
    }
    var none := Unanswered(|questions|);
    if |questions| == 1 {
      var prefix := QuestionPrefix(questions[0]);
      if !StartsWith(text, prefix, 0) {
        return none;
      }
      var answer := ParseBodyAt(questions[0], text[|prefix|..]);
      return if answer.Some? then [answer.value] else none;
    }
    if !StartsWith(text, MULTI_HEAD(), 0) {
      return none;
    }
    var lines := Split(text[|MULTI_HEAD()|..], NEWLINE);
    if |lines| != |questions| {
      return none;
    }
    var parsed := ParseLinesAt(questions, lines);
    answers := if parsed.Some? then parsed.value else none;
  }

  method ParseLinesAt(questions: seq<Question>, lines: seq<Str>) returns (r: Option<seq<Answer>>)
    requires |lines| == |questions|
    ensures r == ParseLines(questions, lines, 0)
  {
    var answers := [];
    OntoAnswersLaws([], [], ParseLines(questions, lines, 0));
    for i := 0 to |questions|
      invariant ParseLines(questions, lines, 0) == OntoAnswers(answers, ParseLines(questions, lines, i))
    {
      var prefix := LinePrefix(questions[i], i);
      if !StartsWith(lines[i], prefix, 0) {
        return None;
      }
      var answer := ParseBodyAt(questions[i], lines[i][|prefix|..]);
      if answer.None? {
        return None;
      }
      OntoAnswersLaws(answers, [answer.value], ParseLines(questions, lines, i + 1));
      answers := answers + [answer.value];
    }
    assert answers + [] == answers;
    r := Some(answers);
  }

  function OntoAnswers(answers: seq<Answer>, r: Option<seq<Answer>>): Option<seq<Answer>> {
    if r.None? then None else Some(answers + r.value)
  }

  lemma OntoAnswersLaws(answers: seq<Answer>, more: seq<Answer>, r: Option<seq<Answer>>)
    ensures OntoAnswers([], r) == r
    ensures OntoAnswers(answers, OntoAnswers(more, r)) == OntoAnswers(answers + more, r)
  {
    if r.Some? {
      assert [] + r.value == r.value;
      assert answers + (more + r.value) == answers + more + r.value;
    }
  }
}
