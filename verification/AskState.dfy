/** Is the session waiting on the user? The reducer and its summary algebra (src/awaitingUser.ts). */
module AskState {
  import opened Text

  datatype AskKind = Question | Plan
  datatype AskSource = FromTool | FromText
  datatype Ask = Ask(kind: AskKind, source: AskSource)

  /** The most recent ask with no real user message after it. */
  type State = Option<Ask>

  /** A user turn as the event stream carries it; only the classifier looks inside. */
  datatype UserEvent = UserEvent(payload: string)

  datatype AskFact = ToolAsk(kind: AskKind) | EndTurn(text: string) | UserTurn(ev: UserEvent)

  /** The text-ask detector and the user-turn classifier, uninterpreted. */
  datatype Rules = Rules(isTextAsk: string -> bool, isReal: UserEvent -> bool)

  function Or(state: State, other: State): State {
    if state.Some? then state else other
  }

  function ReduceAsk(r: Rules, state: State, fact: AskFact): State {
    match fact
    case ToolAsk(kind) => Some(Ask(kind, FromTool))
    case EndTurn(text) => Or(state, if r.isTextAsk(text) then Some(Ask(Question, FromText)) else None)
    case UserTurn(ev) => if r.isReal(ev) then None else state
  }

  /** The reference: read the facts oldest first. */
  function Fold(r: Rules, state: State, facts: seq<AskFact>): State
    decreases |facts|
  {
    if facts == [] then state else Fold(r, ReduceAsk(r, state, facts[0]), facts[1..])
  }

  /** What a range of facts does to the state before it: decide it, or fill it in if nothing was pending. */
  datatype Summary = Const(v: State) | Inherit(c: State)

  const IDENTITY: Summary := Inherit(None)

  function SummaryOfFact(r: Rules, fact: AskFact): Summary {
    match fact
    case ToolAsk(kind) => Const(Some(Ask(kind, FromTool)))
    case UserTurn(ev) => if r.isReal(ev) then Const(None) else IDENTITY
    case EndTurn(text) => if r.isTextAsk(text) then Inherit(Some(Ask(Question, FromText))) else IDENTITY
  }

  /** `newer` applied over `older`. */
  function Compose(newer: Summary, older: Summary): Summary {
    if newer.Const? then newer
    else if older.Const? then Const(Or(older.v, newer.c))
    else Inherit(Or(older.c, newer.c))
  }

  function Apply(summary: Summary, incoming: State): State {
    if summary.Const? then summary.v else Or(incoming, summary.c)
  }

  function SummaryOf(r: Rules, facts: seq<AskFact>): Summary
    decreases |facts|
  {
    if facts == [] then IDENTITY else Compose(SummaryOf(r, facts[1..]), SummaryOfFact(r, facts[0]))
  }

  /** Composition is function composition of the actions. */
  lemma ComposeActs(newer: Summary, older: Summary, s: State)
    ensures Apply(Compose(newer, older), s) == Apply(newer, Apply(older, s))
  {
  }

  /** Summaries are a monoid... */
  lemma ComposeMonoid(a: Summary, b: Summary, c: Summary)
    ensures Compose(Compose(a, b), c) == Compose(a, Compose(b, c))
    ensures Compose(a, IDENTITY) == a && Compose(IDENTITY, a) == a
  {
  }

  /** ...that acts faithfully: a summary is determined by what it does. */
  lemma SummaryDetermined(a: Summary, b: Summary)
    requires forall s: State :: Apply(a, s) == Apply(b, s)
    ensures a == b
  {
    var plan, question := Some(Ask(Plan, FromTool)), Some(Ask(Question, FromText));
    assert Apply(a, None) == Apply(b, None);
    assert Apply(a, plan) == Apply(b, plan);
    assert Apply(a, question) == Apply(b, question);
  }

  /** The action of a fact list's summary is the left fold of the reducer. */
  lemma {:induction false} SummaryFolds(r: Rules, facts: seq<AskFact>, s: State)
    ensures Apply(SummaryOf(r, facts), s) == Fold(r, s, facts)
    decreases |facts|
  {
    if facts != [] {
      SummaryFolds(r, facts[1..], ReduceAsk(r, s, facts[0]));
      ComposeActs(SummaryOf(r, facts[1..]), SummaryOfFact(r, facts[0]), s);
    }
  }

  lemma {:induction false} SummaryConcat(r: Rules, older: seq<AskFact>, newer: seq<AskFact>)
    ensures SummaryOf(r, older + newer) == Compose(SummaryOf(r, newer), SummaryOf(r, older))
    decreases |older|
  {
    if older == [] {
      assert older + newer == newer;
    } else {
      assert (older + newer)[1..] == older[1..] + newer;
      SummaryConcat(r, older[1..], newer);
      ComposeMonoid(SummaryOf(r, newer), SummaryOf(r, older[1..]), SummaryOfFact(r, older[0]));
    }
  }

  lemma {:induction false} FoldConcat(r: Rules, s: State, older: seq<AskFact>, newer: seq<AskFact>)
    ensures Fold(r, s, older + newer) == Fold(r, Fold(r, s, older), newer)
    decreases |older|
  {
    if older == [] {
      assert older + newer == newer;
    } else {
      assert (older + newer)[1..] == older[1..] + newer;
      FoldConcat(r, ReduceAsk(r, s, older[0]), older[1..], newer);
    }
  }
}
