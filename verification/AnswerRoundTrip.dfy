/** Parsing undoes formatting, for every well-formed list of answers. */
module AnswerRoundTrip {
  import opened Text
  import opened JsonText
  import opened Answers

  /** An answer the card of that question can give: offered labels, of the question's kind, at least one. */
  predicate Fits(question: Question, a: Answer) {
    match a
    case OptionPick(pick, _) => !question.multiSelect && pick in question.options
    case MultiPick(labels, _) => question.multiSelect && |labels| >= 1 && Offered(question, labels)
    case Custom(_) => true
    case NoAnswer => true
  }

  predicate AllFit(questions: seq<Question>, answers: seq<Answer>) {
    forall i :: 0 <= i < |questions| ==> Fits(questions[i], AnswerAt(answers, i))
  }

  function NormalNote(note: Option<Str>): Option<Str> {
    if note.None? || Trim(note.value) == [] then None else Some(Trim(note.value))
  }

  /** What the text keeps of an answer: notes and texts trimmed, blank notes dropped. */
  function Normal(a: Answer): Answer {
    match a
    case OptionPick(pick, note) => OptionPick(pick, NormalNote(note))
    case MultiPick(labels, note) => MultiPick(labels, NormalNote(note))
    case Custom(text) => Custom(Trim(text))
    case NoAnswer => NoAnswer
  }

  function NormalAll(questions: seq<Question>, answers: seq<Answer>): (r: seq<Answer>)
    ensures |r| == |questions| && forall i :: 0 <= i < |questions| ==> r[i] == Normal(AnswerAt(answers, i))
  {
    seq(|questions|, i requires 0 <= i < |questions| => Normal(AnswerAt(answers, i)))
  }

  // ---------------------------------------------------------------------------------------------
  // Reading back a body
  // ---------------------------------------------------------------------------------------------

  lemma PrefixApart(s: Str, i: int, a: Str, b: Str)
    requires 0 <= i <= |s| && a + b <= s[i..]
    ensures StartsWith(s, a, i) && i + |a| <= |s| && b <= s[i + |a|..]
    ensures |s| == i + |a| + |b| ==> s[i + |a|..] == b
  {
    PrefixSplit(s, i, a, b);
    assert s[i..i + |a|] == s[i..][..|a|];
  }

  /** Quoted picks, joined by commas, are read back up to what follows. */
  lemma {:induction false} PicksReadBack(s: Str, i: int, labels: seq<Str>, end: int)
    requires 0 <= i <= |s| && |labels| >= 1 && Picks(labels) <= s[i..] && end == i + |Picks(labels)|
    requires !StartsWith(s, COMMA(), end)
    ensures ReadPicks(s, i) == Some(PickList(labels, end))
    decreases |labels|
  {
    if |labels| == 1 {
      PicksLast(s, i, labels);
    } else {
      var j := i + |Quoted(labels[0])| + 2;
      PicksApart(s, i, labels);
      PicksReadBack(s, j, labels[1..], end);
      PicksStep(s, i, labels[0], Picks(labels[1..]), PickList(labels[1..], end));
      assert [labels[0]] + labels[1..] == labels;
    }
  }

  lemma PicksLast(s: Str, i: int, labels: seq<Str>)
    requires 0 <= i <= |s| && |labels| == 1 && Picks(labels) <= s[i..]
    requires !StartsWith(s, COMMA(), i + |Picks(labels)|)
    ensures ReadPicks(s, i) == Some(PickList(labels, i + |Picks(labels)|))
  {
    assert Picks(labels) == Quoted(labels[0]) && labels == [labels[0]];
    ReadInvertsQuoting(s, i, labels[0]);
  }

  lemma PicksApart(s: Str, i: int, labels: seq<Str>)
    requires 0 <= i <= |s| && |labels| >= 2 && Picks(labels) <= s[i..]
    ensures var j, rest := i + |Quoted(labels[0])| + 2, Picks(labels[1..]);
            && j <= |s| && rest <= s[j..] && j + |rest| == i + |Picks(labels)|
            && Quoted(labels[0]) + (COMMA() + rest) <= s[i..]
  {
    var first, rest := Quoted(labels[0]), Picks(labels[1..]);
    assert QuotedAll(labels)[1..] == QuotedAll(labels[1..]);
    assert Picks(labels) == first + (COMMA() + rest);
    PrefixSplit(s, i, first, COMMA() + rest);
    PrefixSplit(s, i + |first|, COMMA(), rest);
  }

  lemma PicksStep(s: Str, i: int, v: Str, more: Str, rest: PickList)
    requires 0 <= i <= |s| && Quoted(v) + (COMMA() + more) <= s[i..]
    requires ReadPicks(s, i + |Quoted(v)| + 2) == Some(rest)
    ensures ReadPicks(s, i) == Some(PickList([v] + rest.labels, rest.end))
  {
    PrefixSplit(s, i, Quoted(v), COMMA() + more);
    ReadInvertsQuoting(s, i, v);
    assert StartsWith(s, COMMA(), i + |Quoted(v)|) by {
      PrefixApart(s, i + |Quoted(v)|, COMMA(), more);
    }
  }

  lemma NoteReadBack(s: Str, i: int, note: Option<Str>)
    requires 0 <= i <= |s| && s[i..] == NoteText(note)
    ensures ReadNote(s, i) == Some(NormalNote(note))
    ensures !StartsWith(s, COMMA(), i)
  {
    if NormalNote(note).Some? {
      OneNoteReadBack(s, i, NormalNote(note).value);
    }
  }

  lemma OneNoteReadBack(s: Str, i: int, n: Str)
    requires 0 <= i <= |s| && s[i..] == NOTE_OPEN() + Quoted(n) + NOTE_CLOSE()
    ensures ReadNote(s, i) == Some(Some(n))
    ensures !StartsWith(s, COMMA(), i)
  {
    var rest := Quoted(n) + NOTE_CLOSE();
    assert s[i..] == NOTE_OPEN() + rest;
    PrefixApart(s, i, NOTE_OPEN(), rest);
    PrefixApart(s, i + |NOTE_OPEN()|, Quoted(n), NOTE_CLOSE());
    ReadInvertsQuoting(s, i + |NOTE_OPEN()|, n);
    assert s[i] == NOTE_OPEN()[0] != COMMA()[0];
  }

  lemma PicksParseBack(question: Question, labels: seq<Str>, note: Option<Str>)
    requires |labels| >= 1 && Offered(question, labels) && (question.multiSelect || |labels| == 1)
    ensures ParseBody(question, Picks(labels) + NoteText(note))
            == Some(if question.multiSelect then MultiPick(labels, NormalNote(note)) else OptionPick(labels[0], NormalNote(note)))
  {
    var s := Picks(labels) + NoteText(note);
    PicksNoteReadBack(labels, note);
    PicksOpenQuoted(labels);
    assert s[0] == QUOTE != NO_ANSWER()[0] == OWN_ANSWER()[0];
  }

  lemma PicksNoteReadBack(labels: seq<Str>, note: Option<Str>)
    requires |labels| >= 1
    ensures ReadPicks(Picks(labels) + NoteText(note), 0) == Some(PickList(labels, |Picks(labels)|))
    ensures ReadNote(Picks(labels) + NoteText(note), |Picks(labels)|) == Some(NormalNote(note))
  {
    var s, n := Picks(labels) + NoteText(note), |Picks(labels)|;
    assert s[0..] == s && s[n..] == NoteText(note);
    NoteReadBack(s, n, note);
    PicksReadBack(s, 0, labels, n);
  }

  lemma PicksOpenQuoted(labels: seq<Str>)
    requires |labels| >= 1
    ensures |Picks(labels)| >= 2 && Picks(labels)[0] == QUOTE
  {
    QuotedHasNoNewline(labels[0]);
  }

  /** One body: parsing gives the answer back, normalised. */
  lemma BodyReadBack(question: Question, a: Answer)
    requires Fits(question, a)
    ensures ParseBody(question, RenderAnswer(a)) == Some(Normal(a))
  {
    match a {
      case OptionPick(pick, note) =>
        assert QuotedAll([pick]) == [Quoted(pick)];
        assert Picks([pick]) == Quoted(pick);
        PicksParseBack(question, [pick], note);
      case MultiPick(labels, note) =>
        PicksParseBack(question, labels, note);
      case Custom(text) =>
        CustomReadBack(question, Trim(text));
      case NoAnswer =>
    }
  }

  lemma CustomReadBack(question: Question, text: Str)
    ensures ParseBody(question, OWN_ANSWER() + Quoted(text)) == Some(Custom(text))
  {
    var s := OWN_ANSWER() + Quoted(text);
    StartsApart(OWN_ANSWER(), Quoted(text));
    assert Quoted(text) <= s[|OWN_ANSWER()|..];
    ReadInvertsQuoting(s, |OWN_ANSWER()|, text);
    assert s[1] == OWN_ANSWER()[1] != NO_ANSWER()[1];
  }

  // ---------------------------------------------------------------------------------------------
  // Reading back the whole text
  // ---------------------------------------------------------------------------------------------

  lemma {:induction false} JoinHasNoNewline(pieces: seq<Str>, sep: Str)
    requires NEWLINE !in sep && forall i :: 0 <= i < |pieces| ==> NEWLINE !in pieces[i]
    ensures NEWLINE !in Join(pieces, sep)
  {
    if |pieces| >= 2 {
      JoinHasNoNewline(pieces[1..], sep);
    }
  }

  lemma NoteHasNoNewline(note: Option<Str>)
    ensures NEWLINE !in NoteText(note)
  {
    if NormalNote(note).Some? {
      QuotedHasNoNewline(NormalNote(note).value);
      NoteTokensHaveNoNewline();
    }
  }

  lemma NoteTokensHaveNoNewline()
    ensures NEWLINE !in NOTE_OPEN() && NEWLINE !in NOTE_CLOSE()
  {
  }

  lemma PicksHaveNoNewline(labels: seq<Str>)
    ensures NEWLINE !in Picks(labels)
  {
    forall i | 0 <= i < |labels| ensures NEWLINE !in QuotedAll(labels)[i] {
      QuotedHasNoNewline(labels[i]);
    }
    assert COMMA()[0] != NEWLINE && COMMA()[1] != NEWLINE;
    JoinHasNoNewline(QuotedAll(labels), COMMA());
  }

  /** Whatever the answer holds, its text stays on one line. */
  lemma RenderHasNoNewline(a: Answer)
    ensures NEWLINE !in RenderAnswer(a)
  {
    match a {
      case OptionPick(pick, note) =>
        QuotedHasNoNewline(pick);
        NoteHasNoNewline(note);
      case MultiPick(labels, note) =>
        PicksHaveNoNewline(labels);
        NoteHasNoNewline(note);
      case Custom(text) =>
        QuotedHasNoNewline(Trim(text));
        TokensHaveNoNewline();
      case NoAnswer =>
        TokensHaveNoNewline();
    }
  }

  lemma TokensHaveNoNewline()
    ensures NEWLINE !in NO_ANSWER() && NEWLINE !in OWN_ANSWER()
  {
  }

  lemma PrefixHasNoNewline(question: Question, i: nat)
    ensures NEWLINE !in LinePrefix(question, i)
  {
    QuotedHasNoNewline(QuestionText(question, Ascii("Question ") + Decimal(i + 1)));
    assert NEWLINE !in Decimal(i + 1);
    assert NEWLINE !in Ascii(". ");
    assert NEWLINE !in Ascii(": ");
  }

  lemma StartsApart(a: Str, b: Str)
    ensures StartsWith(a + b, a, 0) && (a + b)[|a|..] == b
  {
  }

  /** Line `i` is its question's prefix and a body that parses to `a`. */
  predicate ReadsAs(question: Question, i: nat, line: Str, a: Answer) {
    var prefix := LinePrefix(question, i);
    StartsWith(line, prefix, 0) && ParseBody(question, line[|prefix|..]) == Some(a)
  }

  lemma LineReadBack(question: Question, i: nat, a: Answer)
    requires Fits(question, a)
    ensures ReadsAs(question, i, LinePrefix(question, i) + RenderAnswer(a), Normal(a))
  {
    StartsApart(LinePrefix(question, i), RenderAnswer(a));
    BodyReadBack(question, a);
  }

  lemma {:induction false} LinesReadBack(questions: seq<Question>, lines: seq<Str>, all: seq<Answer>, i: nat)
    requires i <= |questions| == |lines| == |all|
    requires forall k: nat :: i <= k < |questions| ==> ReadsAs(questions[k], k, lines[k], all[k])
    ensures ParseLines(questions, lines, i) == Some(all[i..])
    decreases |questions| - i
  {
    if i < |questions| {
      LinesReadBack(questions, lines, all, i + 1);
      assert ReadsAs(questions[i], i, lines[i], all[i]);
      assert [all[i]] + all[i + 1..] == all[i..];
    } else {
      assert all[i..] == [];
    }
  }

  /** The strict parse undoes the formatter. */
  lemma ParseAfterFormat(questions: seq<Question>, answers: seq<Answer>)
    requires AllFit(questions, answers)
    ensures ParseUserQuestionAnswers(questions, FormatUserQuestionAnswers(questions, answers))
            == NormalAll(questions, answers)
  {
    if |questions| == 1 {
      StartsApart(QuestionPrefix(questions[0]), RenderAnswer(AnswerAt(answers, 0)));
      BodyReadBack(questions[0], AnswerAt(answers, 0));
      assert NormalAll(questions, answers) == [Normal(AnswerAt(answers, 0))];
    } else if |questions| > 1 {
      var lines := AnswerLines(questions, answers);
      StartsApart(MULTI_HEAD(), Join(lines, [NEWLINE]));
      forall i | 0 <= i < |questions| ensures NEWLINE !in lines[i] {
        PrefixHasNoNewline(questions[i], i);
        RenderHasNoNewline(AnswerAt(answers, i));
      }
      JoinSplit(lines, NEWLINE);
      forall k: nat | k < |questions| ensures ReadsAs(questions[k], k, lines[k], NormalAll(questions, answers)[k]) {
        LineReadBack(questions[k], k, AnswerAt(answers, k));
      }
      LinesReadBack(questions, lines, NormalAll(questions, answers), 0);
    }
  }

  /** Normal answers are written as the answers they come from. */
  lemma FormatNormal(questions: seq<Question>, answers: seq<Answer>)
    ensures FormatUserQuestionAnswers(questions, NormalAll(questions, answers))
            == FormatUserQuestionAnswers(questions, answers)
  {
    var normal := NormalAll(questions, answers);
    forall i | 0 <= i < |questions| ensures RenderAnswer(AnswerAt(normal, i)) == RenderAnswer(AnswerAt(answers, i)) {
      RenderNormal(AnswerAt(answers, i));
    }
    assert AnswerLines(questions, normal) == AnswerLines(questions, answers);
  }

  lemma RenderNormal(a: Answer)
    ensures RenderAnswer(Normal(a)) == RenderAnswer(a)
  {
    match a {
      case OptionPick(_, note) => if note.Some? { TrimTwice(note.value); }
      case MultiPick(_, note) => if note.Some? { TrimTwice(note.value); }
      case Custom(text) => TrimTwice(text);
      case NoAnswer =>
    }
  }

  /** So does the canonical parse: it never turns down a text the formatter wrote. */
  lemma CanonicalAfterFormat(questions: seq<Question>, answers: seq<Answer>)
    requires |questions| > 0 && AllFit(questions, answers)
    ensures ParseCanonicalUserQuestionAnswers(questions, FormatUserQuestionAnswers(questions, answers))
            == Some(NormalAll(questions, answers))
  {
    ParseAfterFormat(questions, answers);
    FormatNormal(questions, answers);
  }

  /** Two lists with the same text are the same answers. */
  lemma FormatIsInjective(questions: seq<Question>, answers: seq<Answer>, others: seq<Answer>)
    requires AllFit(questions, answers) && AllFit(questions, others)
    requires FormatUserQuestionAnswers(questions, answers) == FormatUserQuestionAnswers(questions, others)
    ensures NormalAll(questions, answers) == NormalAll(questions, others)
  {
    ParseAfterFormat(questions, answers);
    ParseAfterFormat(questions, others);
  }

  // ---------------------------------------------------------------------------------------------
  // What the parsers accept
  // ---------------------------------------------------------------------------------------------

  /** A parsed body is an answer that question's card can give. */
  lemma BodyFits(question: Question, s: Str)
    ensures ParseBody(question, s).Some? ==> Fits(question, ParseBody(question, s).value)
  {
  }

  lemma {:induction false} LinesFit(questions: seq<Question>, lines: seq<Str>, i: nat)
    requires i <= |questions| == |lines|
    ensures var r := ParseLines(questions, lines, i);
            r.Some? ==> |r.value| == |questions| - i
                        && forall k :: i <= k < |questions| ==> Fits(questions[k], r.value[k - i])
    decreases |questions| - i
  {
    if i < |questions| && ParseLines(questions, lines, i).Some? {
      LinesFit(questions, lines, i + 1);
      BodyFits(questions[i], lines[i][|LinePrefix(questions[i], i)|..]);
      var r, rest := ParseLines(questions, lines, i).value, ParseLines(questions, lines, i + 1).value;
      forall k | i <= k < |questions| ensures Fits(questions[k], r[k - i]) {
        assert k > i ==> r[k - i] == rest[k - (i + 1)];
      }
    }
  }

  /** Whatever the text, the strict parse yields one answer a card could give for each question. */
  lemma ParseFits(questions: seq<Question>, text: Str)
    ensures |ParseUserQuestionAnswers(questions, text)| == |questions|
    ensures AllFit(questions, ParseUserQuestionAnswers(questions, text))
  {
    if |questions| == 1 {
      BodyFits(questions[0], text[Min(|QuestionPrefix(questions[0])|, |text|)..]);
    } else if |questions| > 1 && StartsWith(text, MULTI_HEAD(), 0) {
      var lines := Split(text[|MULTI_HEAD()|..], NEWLINE);
      if |lines| == |questions| {
        LinesFit(questions, lines, 0);
      }
    }
  }

  function Min(a: int, b: int): int { if a < b then a else b }

  /** The canonical parse accepts exactly the texts the formatter writes for well-formed answers. */
  lemma CanonicalIffFormatted(questions: seq<Question>, text: Str)
    requires |questions| > 0
    ensures ParseCanonicalUserQuestionAnswers(questions, text).Some?
            <==> exists answers: seq<Answer> ::
                   AllFit(questions, answers) && FormatUserQuestionAnswers(questions, answers) == text
  {
    var parsed := ParseUserQuestionAnswers(questions, text);
    ParseFits(questions, text);
    if answers: seq<Answer> :| AllFit(questions, answers) && FormatUserQuestionAnswers(questions, answers) == text {
      CanonicalAfterFormat(questions, answers);
    }
  }
}
