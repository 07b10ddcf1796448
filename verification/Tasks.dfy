/** The task tracker (shared/tasks.ts): live and replayed event orders show the same list. */
module Tasks {
  import opened Text

  datatype Task = Task(subject: string, description: string, activeForm: Option<string>, status: string)

  datatype Info = Info(subject: Option<string>, description: Option<string>)

  /** A TaskCreate or TaskUpdate input, as far as it is read. */
  datatype Input = Input(subject: Option<string>, description: Option<string>, activeForm: Option<string>,
                         status: Option<string>, taskId: Option<string>)

  /** `created`: the id in "Task #N created" of the result's text. Sub-agents' events and all others are `Other`. */
  datatype Event =
    | CreateCall(call: string, input: Input)
    | UpdateCall(input: Input)
    | Result(call: string, created: Option<string>)
    | Other

  /** What can be seen of the tracker. */
  datatype Visible = Visible(tasks: map<string, Task>, info: map<string, Info>, batches: seq<map<string, Task>>)

  /** And the halves of creations still waiting for each other. */
  datatype State = State(visible: Visible, pendingCreates: map<string, Input>, pendingResults: map<string, string>)

  predicate AllCompleted(tasks: map<string, Task>) {
    forall id :: id in tasks ==> tasks[id].status == "completed"
  }

  predicate IsVisible(tasks: map<string, Task>) {
    tasks != map[] && !AllCompleted(tasks)
  }

  function Or(s: Option<string>, fallback: string): string {
    if s.Some? then s.value else fallback
  }

  function NewTask(input: Input): Task {
    Task(Or(input.subject, "(no subject)"), Or(input.description, ""), input.activeForm, "pending")
  }

  /** A creation opens a new batch when the last one is done. */
  function Created(v: Visible, input: Input, id: string): Visible {
    var kept := if AllCompleted(v.tasks) then map[] else v.tasks;
    var task := NewTask(input);
    v.(tasks := kept[id := task], info := v.info[id := Info(Some(task.subject), Some(task.description))])
  }

  function Edited(t: Task, input: Input): Task {
    Task(Or(input.subject, t.subject), Or(input.description, t.description),
         if input.activeForm.Some? then input.activeForm else t.activeForm, Or(input.status, t.status))
  }

  function Remembered(info: map<string, Info>, id: string, input: Input): map<string, Info> {
    if input.subject.None? && input.description.None? then info
    else
      var prev := if id in info then info[id] else Info(None, None);
      info[id := Info(if input.subject.Some? then input.subject else prev.subject,
                      if input.description.Some? then input.description else prev.description)]
  }

  /** An update edits its task; the one that completes the last open task records the batch. */
  function Updated(v: Visible, input: Input): Visible {
    if input.taskId.None? || input.taskId.value == "" then v
    else
      var id := input.taskId.value;
      var w := v.(info := Remembered(v.info, id, input));
      if input.status == Some("deleted") then w.(tasks := v.tasks - {id})
      else if id !in v.tasks then w
      else
        var tasks := v.tasks[id := Edited(v.tasks[id], input)];
        if IsVisible(v.tasks) && !IsVisible(tasks) then w.(tasks := tasks, batches := v.batches + [tasks])
        else w.(tasks := tasks)
  }

  /** `apply`. */
  function Step(s: State, ev: Event): State {
    match ev
    case CreateCall(call, input) =>
      if call in s.pendingResults
      then s.(visible := Created(s.visible, input, s.pendingResults[call]), pendingResults := s.pendingResults - {call})
      else s.(pendingCreates := s.pendingCreates[call := input])
    case UpdateCall(input) => s.(visible := Updated(s.visible, input))
    case Result(call, created) =>
      if call in s.pendingCreates then
        State(if created.Some? then Created(s.visible, s.pendingCreates[call], created.value) else s.visible,
              s.pendingCreates - {call}, s.pendingResults)
      else if created.Some? then s.(pendingResults := s.pendingResults[call := created.value])
      else s
    case Other => s
  }

  class TaskTracker {
    var tasks: map<string, Task>
    var pendingCreates: map<string, Input>
    var pendingResults: map<string, string>
    var infoHistory: map<string, Info>
    var completedBatches: seq<map<string, Task>>

    function Current(): State
      reads this
    {
      State(Visible(tasks, infoHistory, completedBatches), pendingCreates, pendingResults)
    }

    constructor ()
      ensures Current() == State(Visible(map[], map[], []), map[], map[])
    {
      tasks, pendingCreates, pendingResults := map[], map[], map[];
      infoHistory, completedBatches := map[], [];
    }

    method ApplyCreate(input: Input, created: Option<string>)
      modifies this
      ensures Current() == if created.None? then old(Current())
                           else old(Current()).(visible := Created(old(Current()).visible, input, created.value))
    {
      if created.None? {
        return;
      }
      var id := created.value;
      if |tasks| > 0 && AllCompleted(tasks) {
        tasks := map[];
      }
      assert tasks == if AllCompleted(old(tasks)) then map[] else old(tasks);
      tasks := tasks[id := Task(Or(input.subject, "(no subject)"), Or(input.description, ""), input.activeForm, "pending")];
      infoHistory := infoHistory[id := Info(Some(Or(input.subject, "(no subject)")), Some(Or(input.description, "")))];
    }

    method ApplyUpdate(input: Input)
      modifies this
      ensures Current() == old(Current()).(visible := Updated(old(Current()).visible, input))
    {
      if input.taskId.None? || input.taskId.value == "" {
        return;
      }
      var id := input.taskId.value;
      if input.subject.Some? || input.description.Some? {
        var prev := if id in infoHistory then infoHistory[id] else Info(None, None);
        infoHistory := infoHistory[id := Info(if input.subject.Some? then input.subject else prev.subject,
                                              if input.description.Some? then input.description else prev.description)];
      }
      if input.status == Some("deleted") {
        tasks := tasks - {id};
        return;
      }
      if id !in tasks {
        return;
      }
      var wasVisible := IsVisible(tasks);
      var t := tasks[id];
      if input.subject.Some? { t := t.(subject := input.subject.value); }
      if input.description.Some? { t := t.(description := input.description.value); }
      if input.activeForm.Some? { t := t.(activeForm := input.activeForm); }
      if input.status.Some? { t := t.(status := input.status.value); }
      tasks := tasks[id := t];
      if wasVisible && !IsVisible(tasks) && |tasks| > 0 {
        completedBatches := completedBatches + [tasks];
      }
    }

    method Apply(ev: Event)
      modifies this
      ensures Current() == Step(old(Current()), ev)
    {
      match ev
      case CreateCall(call, input) =>
        if call in pendingResults {
          var buffered := pendingResults[call];
          pendingResults := pendingResults - {call};
          ApplyCreate(input, Some(buffered));
          return;
        }
        pendingCreates := pendingCreates[call := input];
      case UpdateCall(input) =>
        ApplyUpdate(input);
      case Result(call, created) =>
        if call !in pendingCreates {
          if created.Some? {
            pendingResults := pendingResults[call := created.value];
          }
          return;
        }
        var pending := pendingCreates[call];
        pendingCreates := pendingCreates - {call};
        ApplyCreate(pending, created);
      case Other =>
    }
  }

  // ---------------------------------------------------------------------------------------------
  // The list as a fold over the events
  // ---------------------------------------------------------------------------------------------

  function Run(s: State, events: seq<Event>, n: nat): State
    requires n <= |events|
  {
    if n == 0 then s else Step(Run(s, events, n - 1), events[n - 1])
  }

  /** Each task-creating call appears at most once, and so does its result. */
  ghost predicate Once(events: seq<Event>) {
    forall i, j :: 0 <= i < j < |events| ==> !Repeats(events, i, j)
  }

  ghost predicate Repeats(events: seq<Event>, i: int, j: int)
    requires 0 <= i < |events| && 0 <= j < |events|
  {
    || (events[i].CreateCall? && events[j].CreateCall? && events[i].call == events[j].call)
    || (events[i].Result? && events[j].Result? && events[i].call == events[j].call && HasCall(events, events[i].call))
  }

  predicate HasCall(events: seq<Event>, call: string) {
    exists k :: 0 <= k < |events| && events[k].CreateCall? && events[k].call == call
  }

  /** The input of the call among the first `n` events. */
  function CallBefore(events: seq<Event>, n: nat, call: string): Option<Input>
    requires n <= |events|
  {
    if n == 0 then None
    else if events[n - 1].CreateCall? && events[n - 1].call == call then Some(events[n - 1].input)
    else CallBefore(events, n - 1, call)
  }

  /** The id its result reports among the first `n`; `Some(None)` when it reports none. */
  function ResultBefore(events: seq<Event>, n: nat, call: string): Option<Option<string>>
    requires n <= |events|
  {
    if n == 0 then None
    else if events[n - 1].Result? && events[n - 1].call == call then Some(events[n - 1].created)
    else ResultBefore(events, n - 1, call)
  }

  /** What event `n` shows: a creation shows at the later of its two events. */
  function Shown(events: seq<Event>, n: nat, v: Visible): Visible
    requires n < |events|
  {
    match events[n]
    case UpdateCall(input) => Updated(v, input)
    case CreateCall(call, input) =>
      var r := ResultBefore(events, n, call);
      if r.Some? && r.value.Some? then Created(v, input, r.value.value) else v
    case Result(call, created) =>
      var c := CallBefore(events, n, call);
      if c.Some? && created.Some? then Created(v, c.value, created.value) else v
    case Other => v
  }

  function Fold(v: Visible, events: seq<Event>, n: nat): Visible
    requires n <= |events|
  {
    if n == 0 then v else Shown(events, n - 1, Fold(v, events, n - 1))
  }

  /** What waits after `n` events: calls for their result, and results for their call. */
  ghost predicate Waits(s: State, events: seq<Event>, n: nat)
    requires n <= |events|
  {
    && (forall call :: CallBefore(events, n, call).Some? && ResultBefore(events, n, call).None? ==> call in s.pendingCreates)
    && (forall call :: call in s.pendingCreates ==> CallBefore(events, n, call) == Some(s.pendingCreates[call]))
    && (forall call :: HasCall(events, call) && CallBefore(events, n, call).None? ==>
          ResultWaits(s, call, ResultBefore(events, n, call)))
  }

  predicate ResultWaits(s: State, call: string, r: Option<Option<string>>) {
    if r.Some? && r.value.Some? then call in s.pendingResults && s.pendingResults[call] == r.value.value
    else call !in s.pendingResults
  }

  lemma {:induction false} CallBeforeIs(events: seq<Event>, n: nat, call: string)
    requires n <= |events|
    ensures CallBefore(events, n, call).Some? <==> exists k :: 0 <= k < n && events[k].CreateCall? && events[k].call == call
  {
    if n > 0 {
      CallBeforeIs(events, n - 1, call);
    }
  }

  lemma {:induction false} ResultBeforeIs(events: seq<Event>, n: nat, call: string)
    requires n <= |events|
    ensures ResultBefore(events, n, call).Some? <==> exists k :: 0 <= k < n && events[k].Result? && events[k].call == call
  {
    if n > 0 {
      ResultBeforeIs(events, n - 1, call);
    }
  }

  /** When an event comes, its like has not been there before. */
  lemma FirstOfItsKind(events: seq<Event>, n: nat)
    requires n < |events| && Once(events)
    ensures events[n].CreateCall? ==> CallBefore(events, n, events[n].call).None? && HasCall(events, events[n].call)
    ensures events[n].Result? && HasCall(events, events[n].call) ==> ResultBefore(events, n, events[n].call).None?
  {
    if events[n].CreateCall? || events[n].Result? {
      CallBeforeIs(events, n, events[n].call);
      ResultBeforeIs(events, n, events[n].call);
      forall k | 0 <= k < n
        ensures !(events[k].CreateCall? && events[n].CreateCall? && events[k].call == events[n].call)
        ensures events[k].Result? && events[n].Result? && events[k].call == events[n].call ==> !HasCall(events, events[n].call)
      {
        assert !Repeats(events, k, n);
      }
    }
  }

  /** One event: what shows is what the fold shows, and what waits is what has no partner yet. */
  lemma StepTracks(s: State, events: seq<Event>, n: nat)
    requires n < |events| && Once(events) && Waits(s, events, n)
    ensures Step(s, events[n]).visible == Shown(events, n, s.visible)
    ensures Waits(Step(s, events[n]), events, n + 1)
  {
    StepShows(s, events, n);
    StepWaits(s, events, n);
  }

  lemma StepShows(s: State, events: seq<Event>, n: nat)
    requires n < |events| && Once(events) && Waits(s, events, n)
    ensures Step(s, events[n]).visible == Shown(events, n, s.visible)
  {
    FirstOfItsKind(events, n);
    if events[n].Result? {
      CallBeforeIs(events, n, events[n].call);
    }
  }

  lemma StepWaits(s: State, events: seq<Event>, n: nat)
    requires n < |events| && Once(events) && Waits(s, events, n)
    ensures Waits(Step(s, events[n]), events, n + 1)
  {
    FirstOfItsKind(events, n);
    if events[n].Result? {
      CallBeforeIs(events, n, events[n].call);
    }
  }

  /** In any interleaving of calls and results the tracker shows the fold. */
  lemma {:induction false} TrackerIsFold(v: Visible, events: seq<Event>, n: nat)
    requires n <= |events| && Once(events)
    ensures Run(State(v, map[], map[]), events, n).visible == Fold(v, events, n)
    ensures Waits(Run(State(v, map[], map[]), events, n), events, n)
    decreases n
  {
    if n > 0 {
      TrackerIsFold(v, events, n - 1);
      FoldsOn(Run(State(v, map[], map[]), events, n - 1), Fold(v, events, n - 1), events, n - 1);
    }
  }

  lemma FoldsOn(s: State, v: Visible, events: seq<Event>, n: nat)
    requires n < |events| && Once(events) && s.visible == v && Waits(s, events, n)
    ensures Step(s, events[n]).visible == Shown(events, n, v) && Waits(Step(s, events[n]), events, n + 1)
  {
    StepTracks(s, events, n);
  }

  // ---------------------------------------------------------------------------------------------
  // Live and replayed order
  // ---------------------------------------------------------------------------------------------

  /** The same events with a call at `i` and its result at `j` exchanged. */
  ghost predicate PairSwapped(live: seq<Event>, replay: seq<Event>, i: nat, j: nat) {
    && i < j < |live| == |replay|
    && live[i].CreateCall? && live[j].Result? && live[i].call == live[j].call
    && replay[i] == live[j] && replay[j] == live[i]
    && forall k :: 0 <= k < |live| && k != i && k != j ==> replay[k] == live[k]
  }

  lemma {:induction false} OthersSame(live: seq<Event>, replay: seq<Event>, i: nat, j: nat, n: nat, call: string)
    requires PairSwapped(live, replay, i, j) && n <= |live| && call != live[i].call
    ensures CallBefore(live, n, call) == CallBefore(replay, n, call)
    ensures ResultBefore(live, n, call) == ResultBefore(replay, n, call)
  {
    if n > 0 {
      OthersSame(live, replay, i, j, n - 1, call);
    }
  }

  /** The pair's own events, wherever they are looked up from. */
  lemma {:induction false} PairSeen(events: seq<Event>, call: string, i: nat, n: nat)
    requires i < |events| && n <= |events|
    requires forall k :: 0 <= k < n && k != i ==> !(events[k].CreateCall? && events[k].call == call)
    requires events[i].CreateCall? && events[i].call == call
    ensures CallBefore(events, n, call) == if i < n then Some(events[i].input) else None
  {
    if n > 0 {
      PairSeen(events, call, i, n - 1);
    }
  }

  lemma {:induction false} ResultSeen(events: seq<Event>, call: string, i: nat, n: nat)
    requires i < |events| && n <= |events|
    requires forall k :: 0 <= k < n && k != i ==> !(events[k].Result? && events[k].call == call)
    requires events[i].Result? && events[i].call == call
    ensures ResultBefore(events, n, call) == if i < n then Some(events[i].created) else None
  {
    if n > 0 {
      ResultSeen(events, call, i, n - 1);
    }
  }

  /** The pair's events stand at `i` and `j` only, in both orders. */
  lemma PairAlone(live: seq<Event>, replay: seq<Event>, i: nat, j: nat, k: nat)
    requires PairSwapped(live, replay, i, j) && Once(live) && k < |live| && k != i && k != j
    requires live[k].CreateCall? || live[k].Result?
    ensures live[k] == replay[k] && live[k].call != live[i].call
  {
    assert HasCall(live, live[i].call);
    var a, b := if k < i then k else i, if k < i then i else k;
    var c, d := if k < j then k else j, if k < j then j else k;
    assert !Repeats(live, a, b) && !Repeats(live, c, d);
  }

  /** Exchanging a call and its result changes nothing that shows at the end. */
  lemma {:induction false} PairOrderFolds(v: Visible, live: seq<Event>, replay: seq<Event>, i: nat, j: nat, n: nat)
    requires PairSwapped(live, replay, i, j) && Once(live) && n <= |live|
    ensures Fold(v, live, n) == Fold(v, replay, n)
    decreases n
  {
    forall k: nat, u | k < |live| ensures Shown(live, k, u) == Shown(replay, k, u) {
      EachShowsSame(live, replay, i, j, k, u);
    }
    SameShownSameFold(v, live, replay, n);
  }

  lemma {:induction false} SameShownSameFold(v: Visible, live: seq<Event>, replay: seq<Event>, n: nat)
    requires n <= |live| == |replay|
    requires forall k: nat, u :: k < |live| ==> Shown(live, k, u) == Shown(replay, k, u)
    ensures Fold(v, live, n) == Fold(v, replay, n)
  {
    if n > 0 {
      SameShownSameFold(v, live, replay, n - 1);
    }
  }

  lemma EachShowsSame(live: seq<Event>, replay: seq<Event>, i: nat, j: nat, k: nat, v: Visible)
    requires PairSwapped(live, replay, i, j) && Once(live) && k < |live|
    ensures Shown(live, k, v) == Shown(replay, k, v)
  {
    if k == i || k == j {
      PairShows(live, replay, i, j, v);
    } else if live[k].CreateCall? || live[k].Result? {
      PairAlone(live, replay, i, j, k);
      OthersSame(live, replay, i, j, k, live[k].call);
    }
  }

  lemma PairShows(live: seq<Event>, replay: seq<Event>, i: nat, j: nat, v: Visible)
    requires PairSwapped(live, replay, i, j) && Once(live)
    ensures Shown(live, i, v) == v == Shown(replay, i, v)
    ensures Shown(live, j, v) == Shown(replay, j, v)
  {
    var call := live[i].call;
    forall k | 0 <= k < |live| && k != i && k != j
      ensures !((live[k].CreateCall? || live[k].Result?) && live[k].call == call) && live[k] == replay[k] {
      if live[k].CreateCall? || live[k].Result? {
        PairAlone(live, replay, i, j, k);
      }
    }
    ResultSeen(live, call, j, i);
    PairSeen(live, call, i, j);
    PairSeen(replay, call, j, i);
    ResultSeen(replay, call, i, j);
  }

  lemma SwapKeepsOnce(live: seq<Event>, replay: seq<Event>, i: nat, j: nat)
    requires PairSwapped(live, replay, i, j) && Once(live)
    ensures Once(replay)
  {
    forall a, b | 0 <= a < b < |replay| ensures !Repeats(replay, a, b) {
      var c, d := Unswap(i, j, a), Unswap(i, j, b);
      assert replay[a] == live[c] && replay[b] == live[d] && c != d;
      assert !Repeats(live, if c < d then c else d, if c < d then d else c);
      if replay[a].Result? && HasCall(replay, replay[a].call) {
        SwapHasCall(live, replay, i, j, replay[a].call);
      }
    }
  }

  lemma SwapHasCall(live: seq<Event>, replay: seq<Event>, i: nat, j: nat, call: string)
    requires PairSwapped(live, replay, i, j) && HasCall(replay, call)
    ensures HasCall(live, call)
  {
    var k :| 0 <= k < |replay| && replay[k].CreateCall? && replay[k].call == call;
    assert live[Unswap(i, j, k)] == replay[k];
  }

  function Unswap(i: nat, j: nat, k: nat): nat {
    if k == i then j else if k == j then i else k
  }

  /** So the live order and the replayed order of a pair end in the same list, history and batches. */
  lemma LiveAndReplayAgree(v: Visible, live: seq<Event>, replay: seq<Event>, i: nat, j: nat)
    requires PairSwapped(live, replay, i, j) && Once(live)
    ensures Run(State(v, map[], map[]), live, |live|).visible == Run(State(v, map[], map[]), replay, |replay|).visible
  {
    SwapKeepsOnce(live, replay, i, j);
    TrackerIsFold(v, live, |live|);
    TrackerIsFold(v, replay, |replay|);
    PairOrderFolds(v, live, replay, i, j, |live|);
  }

  /** Every recorded batch is non-empty and done, and none is ever dropped. */
  lemma {:induction false} BatchesAreDone(s: State, events: seq<Event>, n: nat)
    requires n <= |events|
    ensures s.visible.batches <= Run(s, events, n).visible.batches
    ensures forall b :: |s.visible.batches| <= b < |Run(s, events, n).visible.batches| ==>
              Run(s, events, n).visible.batches[b] != map[] && AllCompleted(Run(s, events, n).visible.batches[b])
  {
    if n > 0 {
      BatchesAreDone(s, events, n - 1);
      BatchStep(Run(s, events, n - 1), events[n - 1]);
    }
  }

  lemma BatchStep(s: State, ev: Event)
    ensures var was, now := s.visible.batches, Step(s, ev).visible.batches;
            now == was || (|now| == |was| + 1 && now[..|was|] == was && now[|was|] != map[] && AllCompleted(now[|was|]))
  {
    if ev.UpdateCall? && ev.input.taskId.Some? && ev.input.taskId.value in s.visible.tasks {
      var tasks := s.visible.tasks[ev.input.taskId.value := Edited(s.visible.tasks[ev.input.taskId.value], ev.input)];
      assert ev.input.taskId.value in tasks;
    }
  }
}
