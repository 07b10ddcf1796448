/** The pump between a host terminal and its socket (createTerminalBridge in src/hostTerminal.ts). */
module HostTerminal {
  import opened Text

  newtype Byte = x: int | 0 <= x < 256

  type Chunk = seq<Byte>

  const HIGH_WATER := 256 * 1024

  datatype End = Exited(code: int) | Failed(error: string) | Closed

  /** A client message: bytes (and whether the terminal took them), a resize, or a breach of the protocol. */
  datatype Message = Input(data: Chunk, accepted: bool) | Resize(cols: int, rows: int) | Malformed

  /** What can happen next, in any order. `Sent(k)`: the callback of the `k`-th unsettled send. */
  datatype Event = Data(chunk: Chunk) | Exit(end: End) | Drain | Attach | Sent(k: nat) | Received(message: Message) | Gone

  /** What reaches the client. */
  datatype Frame = Binary(chunk: Chunk) | EndMessage(end: End)

  /** What reaches the terminal; `Over` marks where it reported its end. */
  datatype Op = Pause | Resume(unsettled: seq<nat>) | Write(data: Chunk) | Size(cols: int, rows: int) | Close | Over

  /** The bridge's variables. */
  datatype Bridge = Bridge(
    attached: bool, early: seq<Chunk>, earlyEnd: Option<End>, outstanding: int, paused: bool, ended: bool, closed: bool)

  /** And the world around it: output received, frames sent, sends not yet settled, calls on the terminal. */
  datatype World = World(b: Bridge, received: seq<Chunk>, wire: seq<Frame>, unsettled: seq<nat>, ops: seq<Op>)

  const START := World(Bridge(false, [], None, 0, false, false, false), [], [], [], [])

  /** The terminal speaks until it ends, the client from the attach on. */
  predicate Enabled(w: World, ev: Event) {
    match ev
    case Data(_) => !w.b.ended
    case Exit(_) => !w.b.ended
    case Drain => true
    case Attach => !w.b.attached
    case Sent(k) => k < |w.unsettled|
    case Received(_) => w.b.attached
    case Gone => w.b.attached
  }

  /** `sendOutput`. */
  function SendOutput(w: World, chunk: Chunk): World {
    var outstanding := w.b.outstanding + |chunk|;
    var pause := !w.b.paused && outstanding >= HIGH_WATER;
    w.(b := w.b.(outstanding := outstanding, paused := w.b.paused || pause),
       wire := w.wire + [Binary(chunk)],
       unsettled := w.unsettled + [|chunk|],
       ops := if pause then w.ops + [Pause] else w.ops)
  }

  function SendAll(w: World, chunks: seq<Chunk>): World
    decreases |chunks|
  {
    if chunks == [] then w else SendAll(SendOutput(w, chunks[0]), chunks[1..])
  }

  /** A send's callback. */
  function Settle(w: World, k: nat): World
    requires k < |w.unsettled|
  {
    var left := w.unsettled[..k] + w.unsettled[k + 1..];
    var outstanding := w.b.outstanding - w.unsettled[k];
    var resume := w.b.paused && outstanding == 0;
    w.(b := w.b.(outstanding := outstanding, paused := w.b.paused && !resume),
       unsettled := left,
       ops := if resume then w.ops + [Resume(left)] else w.ops)
  }

  /** `finish`: a terminal the bridge or the client closed says nothing more. */
  function Finish(w: World, end: End): World {
    if end.Closed? then w else w.(wire := w.wire + [EndMessage(end)])
  }

  function CloseTerminal(w: World): World {
    if w.b.closed || w.b.ended then w else w.(b := w.b.(closed := true), ops := w.ops + [Close])
  }

  function OnMessage(w: World, m: Message): World {
    if w.b.closed || w.b.ended then w
    else match m
      case Input(data, _) => w.(ops := w.ops + [Write(data)])
      case Resize(c, r) => w.(ops := w.ops + [Size(c, r)])
      case Malformed => CloseTerminal(w)
  }

  function OnAttach(w: World): World {
    var sent := SendAll(w.(b := w.b.(attached := true, early := [])), w.b.early);
    if w.b.earlyEnd.Some? then Finish(sent, w.b.earlyEnd.value) else sent
  }

  function OnData(w: World, chunk: Chunk): World {
    var w := w.(received := w.received + [chunk]);
    if w.b.attached then SendOutput(w, chunk) else w.(b := w.b.(early := w.b.early + [chunk]))
  }

  function OnExit(w: World, end: End): World {
    var w := w.(b := w.b.(ended := true), ops := w.ops + [Over]);
    if w.b.attached then Finish(w, end) else w.(b := w.b.(earlyEnd := Some(end)))
  }

  function Step(w: World, ev: Event): World
    requires Enabled(w, ev)
  {
    match ev
    case Data(chunk) => OnData(w, chunk)
    case Exit(end) => OnExit(w, end)
    case Drain => w
    case Attach => OnAttach(w)
    case Sent(k) => Settle(w, k)
    case Received(m) => OnMessage(w, m)
    case Gone => CloseTerminal(w)
  }

  // ---------------------------------------------------------------------------------------------
  // The bridge as the code keeps it
  // ---------------------------------------------------------------------------------------------

  class TerminalBridge {
    var attached: bool
    var early: seq<Chunk>
    var earlyEnd: Option<End>
    var outstanding: int
    var paused: bool
    var ended: bool
    var closed: bool

    /** What the socket and the terminal have been told. */
    ghost var received: seq<Chunk>
    ghost var wire: seq<Frame>
    ghost var unsettled: seq<nat>
    ghost var ops: seq<Op>

    ghost function Now(): World
      reads this
    {
      World(Bridge(attached, early, earlyEnd, outstanding, paused, ended, closed), received, wire, unsettled, ops)
    }

    constructor ()
      ensures Now() == START
    {
      attached, early, earlyEnd, outstanding := false, [], None, 0;
      paused, ended, closed := false, false, false;
      received, wire, unsettled, ops := [], [], [], [];
    }

    method Output(chunk: Chunk)
      modifies this
      ensures Now() == SendOutput(old(Now()), chunk)
    {
      outstanding := outstanding + |chunk|;
      wire, unsettled := wire + [Binary(chunk)], unsettled + [|chunk|];
      if !paused && outstanding >= HIGH_WATER {
        paused := true;
        ops := ops + [Pause];
      }
    }

    method SendDone(k: nat, size: nat)
      requires k < |unsettled| && size == unsettled[k]
      modifies this
      ensures Now() == Settle(old(Now()), k)
    {
      outstanding := outstanding - size;
      unsettled := unsettled[..k] + unsettled[k + 1..];
      if paused && outstanding == 0 {
        paused := false;
        ops := ops + [Resume(unsettled)];
      }
    }

    method TellEnd(end: End)
      modifies this
      ensures Now() == Finish(old(Now()), end)
    {
      if !end.Closed? {
        wire := wire + [EndMessage(end)];
      }
    }

    method Data(chunk: Chunk)
      modifies this
      ensures Now() == OnData(old(Now()), chunk)
    {
      received := received + [chunk];
      if attached {
        Output(chunk);
      } else {
        early := early + [chunk];
      }
    }

    method Exit(end: End)
      modifies this
      ensures Now() == OnExit(old(Now()), end)
    {
      ended := true;
      ops := ops + [Over];
      if attached {
        TellEnd(end);
      } else {
        earlyEnd := Some(end);
      }
    }

    method CloseOnce()
      modifies this
      ensures Now() == CloseTerminal(old(Now()))
    {
      if closed || ended {
        return;
      }
      closed := true;
      ops := ops + [Close];
    }

    method Receive(m: Message)
      modifies this
      ensures Now() == OnMessage(old(Now()), m)
    {
      if closed || ended {
        return;
      }
      match m
      case Input(data, _) => ops := ops + [Write(data)];
      case Malformed => CloseOnce();
      case Resize(c, r) => ops := ops + [Size(c, r)];
    }

    method Attach()
      modifies this
      ensures Now() == OnAttach(old(Now()))
    {
      attached := true;
      var held := early;
      early := [];
      ghost var start := Now();
      var i := 0;
      assert held[0..] == held;
      while i < |held|
        invariant 0 <= i <= |held| && earlyEnd == old(earlyEnd)
        invariant SendAll(Now(), held[i..]) == SendAll(start, held)
      {
        assert held[i..][0] == held[i] && held[i..][1..] == held[i + 1..];
        Output(held[i]);
        i := i + 1;
      }
      if earlyEnd.Some? {
        TellEnd(earlyEnd.value);
      }
    }
  }

  // ---------------------------------------------------------------------------------------------
  // Every run
  // ---------------------------------------------------------------------------------------------

  function Sum(sizes: seq<nat>): nat {
    if sizes == [] then 0 else Sum(sizes[..|sizes| - 1]) + sizes[|sizes| - 1]
  }

  /** The chunks the client has got. */
  function Spelled(wire: seq<Frame>): seq<Chunk> {
    if wire == [] then []
    else Spelled(wire[..|wire| - 1]) + if wire[|wire| - 1].Binary? then [wire[|wire| - 1].chunk] else []
  }

  /** Is the terminal paused after these calls? None: a pause or a resume came twice, or a resume too early. */
  function Flow(ops: seq<Op>): Option<bool> {
    if ops == [] then Some(false)
    else
      var before := Flow(ops[..|ops| - 1]);
      match ops[|ops| - 1]
      case Pause => if before == Some(false) then Some(true) else None
      case Resume(unsettled) => if before == Some(true) && Sum(unsettled) == 0 then Some(false) else None
      case _ => before
  }

  predicate Touches(op: Op) { op.Write? || op.Size? || op.Close? }

  /** After its end or its close nothing is asked of the terminal but flow control. */
  ghost predicate Quiet(ops: seq<Op>) {
    forall i, j :: 0 <= i < j < |ops| && (ops[i].Over? || ops[i].Close?) ==> !Touches(ops[j])
  }

  /** Flow control: the count is the unsettled bytes, and the terminal is paused as the calls to it say. */
  ghost predicate Counted(w: World) {
    && w.b.outstanding == Sum(w.unsettled)
    && Flow(w.ops) == Some(w.b.paused)
    && (if w.b.paused then w.b.outstanding > 0 else w.b.outstanding < HIGH_WATER)
  }

  ghost predicate Hushed(w: World) {
    && Quiet(w.ops)
    && (forall i :: 0 <= i < |w.ops| ==> (w.ops[i].Over? ==> w.b.ended) && (w.ops[i].Close? ==> w.b.closed))
  }

  ghost predicate NoEnd(wire: seq<Frame>) {
    forall i :: 0 <= i < |wire| ==> wire[i].Binary?
  }

  /** The client has got what was received, in order, then at most the one end message. */
  ghost predicate Delivered(w: World) {
    if w.b.attached then
      && w.b.early == [] && Spelled(w.wire) == w.received
      && (NoEnd(w.wire) || (w.b.ended && w.wire[|w.wire| - 1].EndMessage? && NoEnd(w.wire[..|w.wire| - 1])))
      && (!w.b.ended ==> NoEnd(w.wire))
    else
      && w.b.early == w.received && w.wire == []
      && (w.b.earlyEnd.Some? ==> w.b.ended)
  }

  ghost predicate Inv(w: World) {
    Counted(w) && Hushed(w) && Delivered(w)
  }

  lemma SumSnoc(sizes: seq<nat>, n: nat)
    ensures Sum(sizes + [n]) == Sum(sizes) + n
  {
    assert (sizes + [n])[..|sizes|] == sizes;
  }

  /** Whichever send settles, its bytes leave the sum. */
  lemma {:induction false} SumWithout(sizes: seq<nat>, k: nat)
    requires k < |sizes|
    ensures Sum(sizes[..k] + sizes[k + 1..]) == Sum(sizes) - sizes[k]
    decreases |sizes|
  {
    var n := |sizes| - 1;
    var front := sizes[..n];
    if k == n {
      assert sizes[..k] + sizes[k + 1..] == front;
    } else {
      SumWithout(front, k);
      SumSnoc(front[..k] + front[k + 1..], sizes[n]);
      assert front[..k] + front[k + 1..] + [sizes[n]] == sizes[..k] + sizes[k + 1..];
    }
  }

  /** What one more call makes of the flow. */
  lemma FlowSnoc(ops: seq<Op>, op: Op)
    ensures op.Pause? ==> Flow(ops + [op]) == if Flow(ops) == Some(false) then Some(true) else None
    ensures op.Resume? ==> Flow(ops + [op]) == if Flow(ops) == Some(true) && Sum(op.unsettled) == 0 then Some(false) else None
    ensures !op.Pause? && !op.Resume? ==> Flow(ops + [op]) == Flow(ops)
  {
    assert (ops + [op])[..|ops|] == ops;
  }

  /** Flow control never disturbs the quiet after the end. */
  lemma HushSnoc(w: World, w': World, op: Op)
    requires Hushed(w) && !Touches(op) && (op.Over? ==> w'.b.ended)
    requires (w.b.ended ==> w'.b.ended) && (w.b.closed ==> w'.b.closed)
    requires w'.ops == w.ops + [op]
    ensures Hushed(w')
  {
    forall i, j | 0 <= i < j < |w'.ops| && (w'.ops[i].Over? || w'.ops[i].Close?) ensures !Touches(w'.ops[j]) {
      assert w'.ops[i] == w.ops[i];
      assert j < |w.ops| ==> w'.ops[j] == w.ops[j];
    }
    forall i | 0 <= i < |w'.ops| ensures (w'.ops[i].Over? ==> w'.b.ended) && (w'.ops[i].Close? ==> w'.b.closed) {
      assert i < |w.ops| ==> w'.ops[i] == w.ops[i];
    }
  }

  lemma WireSnoc(wire: seq<Frame>, f: Frame)
    ensures Spelled(wire + [f]) == Spelled(wire) + if f.Binary? then [f.chunk] else []
  {
    assert (wire + [f])[..|wire|] == wire;
  }

  lemma SendCounts(w: World, chunk: Chunk)
    requires Counted(w) && Hushed(w)
    ensures Counted(SendOutput(w, chunk)) && Hushed(SendOutput(w, chunk))
  {
    var w' := SendOutput(w, chunk);
    SumSnoc(w.unsettled, |chunk|);
    if w'.ops != w.ops {
      FlowSnoc(w.ops, Pause);
      HushSnoc(w, w', Pause);
    }
  }

  lemma SettleCounts(w: World, k: nat)
    requires Counted(w) && Hushed(w) && k < |w.unsettled|
    ensures Counted(Settle(w, k)) && Hushed(Settle(w, k))
  {
    var w', left := Settle(w, k), w.unsettled[..k] + w.unsettled[k + 1..];
    SumWithout(w.unsettled, k);
    if w'.ops != w.ops {
      FlowSnoc(w.ops, Resume(left));
      HushSnoc(w, w', Resume(left));
    }
  }

  /** Sending the held chunks delivers them in their order. */
  lemma {:induction false} SendAllDelivers(w: World, chunks: seq<Chunk>)
    requires Counted(w) && Hushed(w) && NoEnd(w.wire)
    ensures Adds(w, SendAll(w, chunks), chunks)
    decreases |chunks|
  {
    if chunks == [] {
      assert Spelled(w.wire) + [] == Spelled(w.wire);
    } else {
      var mid := SendOutput(w, chunks[0]);
      SendAdds(w, chunks[0]);
      SendAllDelivers(mid, chunks[1..]);
      assert [chunks[0]] + chunks[1..] == chunks;
      AddsThen(w, mid, SendAll(mid, chunks[1..]), [chunks[0]], chunks[1..]);
    }
  }

  /** `after` is `w` with the chunks sent. */
  ghost predicate Adds(w: World, after: World, chunks: seq<Chunk>) {
    && Counted(after) && Hushed(after) && NoEnd(after.wire)
    && Spelled(after.wire) == Spelled(w.wire) + chunks
    && after.received == w.received
    && after.b == w.b.(outstanding := after.b.outstanding, paused := after.b.paused)
  }

  lemma SendAdds(w: World, chunk: Chunk)
    requires Counted(w) && Hushed(w) && NoEnd(w.wire)
    ensures Adds(w, SendOutput(w, chunk), [chunk])
  {
    SendCounts(w, chunk);
    WireSnoc(w.wire, Binary(chunk));
  }

  lemma AddsThen(w: World, mid: World, after: World, chunks: seq<Chunk>, more: seq<Chunk>)
    requires Adds(w, mid, chunks) && Adds(mid, after, more)
    ensures Adds(w, after, chunks + more)
  {
    assert Spelled(w.wire) + chunks + more == Spelled(w.wire) + (chunks + more);
  }

  lemma FinishDelivers(w: World, end: End)
    requires w.b.attached && w.b.ended && w.b.early == [] && NoEnd(w.wire) && Spelled(w.wire) == w.received
    ensures Delivered(Finish(w, end))
  {
    WireSnoc(w.wire, EndMessage(end));
    assert (w.wire + [EndMessage(end)])[..|w.wire|] == w.wire;
  }

  lemma AttachKeeps(w: World)
    requires Inv(w) && !w.b.attached
    ensures Inv(OnAttach(w))
  {
    var start := w.(b := w.b.(attached := true, early := []));
    var sent := SendAll(start, w.b.early);
    SendAllDelivers(start, w.b.early);
    assert Spelled(sent.wire) == w.received by {
      assert [] + w.b.early == w.b.early;
    }
    if w.b.earlyEnd.Some? {
      FinishDelivers(sent, w.b.earlyEnd.value);
    }
  }

  lemma DataKeeps(w: World, chunk: Chunk)
    requires Inv(w) && !w.b.ended
    ensures Inv(OnData(w, chunk))
  {
    var v := w.(received := w.received + [chunk]);
    if w.b.attached {
      SendCounts(v, chunk);
      WireSnoc(w.wire, Binary(chunk));
    }
  }

  lemma ExitKeeps(w: World, end: End)
    requires Inv(w) && !w.b.ended
    ensures Inv(OnExit(w, end))
  {
    var v := w.(b := w.b.(ended := true), ops := w.ops + [Over]);
    FlowSnoc(w.ops, Over);
    HushSnoc(w, v, Over);
    if w.b.attached {
      FinishDelivers(v, end);
    }
  }

  lemma CallKeeps(w: World, op: Op, closed: bool)
    requires Inv(w) && !w.b.closed && !w.b.ended && Touches(op) && (op.Close? ==> closed)
    ensures Inv(w.(b := w.b.(closed := closed), ops := w.ops + [op]))
  {
    FlowSnoc(w.ops, op);
  }

  lemma StepKeeps(w: World, ev: Event)
    requires Inv(w) && Enabled(w, ev)
    ensures Inv(Step(w, ev))
  {
    match ev {
      case Data(chunk) => DataKeeps(w, chunk);
      case Exit(end) => ExitKeeps(w, end);
      case Drain =>
      case Attach => AttachKeeps(w);
      case Sent(k) => SettleCounts(w, k);
      case Received(m) =>
        if !w.b.closed && !w.b.ended {
          CallKeeps(w, if m.Input? then Write(m.data) else if m.Resize? then Size(m.cols, m.rows) else Close, m.Malformed?);
        }
      case Gone =>
        if !w.b.closed && !w.b.ended {
          CallKeeps(w, Close, true);
        }
    }
  }

  /** A run from the start: each event is one that can happen then. */
  ghost predicate IsRun(events: seq<Event>, worlds: seq<World>) {
    && |worlds| == |events| + 1 && worlds[0] == START
    && forall i :: 0 <= i < |events| ==> Enabled(worlds[i], events[i]) && worlds[i + 1] == Step(worlds[i], events[i])
  }

  /** In every interleaving: exact delivery, exact counting, strict alternation, one close and none after the end. */
  lemma {:induction false} EveryRunKeeps(events: seq<Event>, worlds: seq<World>, n: nat)
    requires IsRun(events, worlds) && n <= |events|
    ensures Inv(worlds[n])
    decreases n
  {
    if n > 0 {
      EveryRunKeeps(events, worlds, n - 1);
      StepKeeps(worlds[n - 1], events[n - 1]);
    }
  }

  /** The terminal is closed at most once, and never after its end. */
  lemma ClosedOnce(w: World, i: nat, j: nat)
    requires Inv(w) && i < |w.ops| && j < |w.ops| && w.ops[j].Close?
    ensures w.ops[i].Close? ==> i == j
    ensures w.ops[i].Over? ==> j < i
  {
  }

  /** Once every send has settled the terminal is running, and the client has all that was received. */
  lemma SettledIsRunning(w: World)
    requires Inv(w) && w.unsettled == []
    ensures !w.b.paused && Flow(w.ops) == Some(false)
    ensures w.b.attached ==> Spelled(w.wire) == w.received
  {
  }
}
