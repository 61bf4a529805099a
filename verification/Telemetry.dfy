/** The telemetry handshake: one asynchronous device-to-host copy in flight, with the metadata recorded beside it. */
module Telemetry {
  import opened Options
  import opened IndexMath

  /** (request, first token, token count) of each request of a step. */
  type Batch = seq<(string, int, int)>

  /** What the hooks leave on the device: the forward's number, the step it ran in and that step's batch. */
  datatype Snapshot = Snapshot(forward: nat, step: nat, batch: Batch)

  /** Work on the GPU stream, executed in order. */
  datatype Op = Forward(data: Snapshot) | Copy

  /** The stream, the device and host buffers, and whether the event after the last copy has fired. */
  datatype Gpu = Gpu(stream: seq<Op>, device: Snapshot, host: Snapshot, done: bool)

  /** What the hooks remember. History: `current` says a forward was recorded since the batch was installed, and
      `rowsStep` and `accStep` are the steps in which `rows` and `acc` were last set. */
  datatype Hooks = Hooks(ready: bool, off: bool, dead: bool, batch: Batch, step: nat, rows: nat,
                         acc: seq<(string, nat)>, forwards: nat, current: bool, rowsStep: nat, accStep: nat)

  /** Recorded when a copy is queued. History: `source` is what the stream puts on the device before the copy runs, and
      the steps and `current` are the hooks' own. */
  datatype Pending = Pending(t: nat, batch: Batch, step: nat, rows: nat, acc: seq<(string, nat)>, source: Snapshot,
                             current: bool, rowsStep: nat, accStep: nat)

  /** What the publisher receives: the host buffers and what was recorded when their copy was queued. */
  datatype Frame = Frame(data: Snapshot, recorded: Pending)

  /** The copy in flight and the publisher's queue; `sent` and `copies` are history. */
  datatype Transfer = Transfer(pending: Option<Pending>, lastCopy: real, queue: seq<Frame>, sent: seq<Frame>,
                               copies: seq<real>)

  datatype State = State(hooks: Hooks, gpu: Gpu, transfer: Transfer)

  datatype Config = Config(on: bool, hz: real, maxT: nat, room: nat) {
    predicate Valid() { hz > 0.0 }

    function Gap(): real
      requires Valid()
    {
      1.0 / hz
    }
  }

  /** One event: a hook of the model runner, the GPU finishing an operation, the publisher taking a frame, a failure. */
  datatype Act =
    | SetBatch(next: Batch, now: real, capturing: bool)
    | RunForward(sampledRows: nat)
    | Sampled(counts: seq<(string, nat)>)
    | GpuStep
    | Take
    | Init(rankZero: bool)
    | Disarm

  function Tokens(b: Batch): int { if b == [] then 0 else b[0].2 + Tokens(b[1..]) }

  // ----- the GPU

  /** Device and host buffers after the stream has drained. */
  function Drain(device: Snapshot, host: Snapshot, stream: seq<Op>): (Snapshot, Snapshot)
    decreases |stream|
  {
    if stream == [] then (device, host)
    else match stream[0]
      case Forward(d) => Drain(d, host, stream[1..])
      case Copy => Drain(device, device, stream[1..])
  }

  /** What is on the device, and on the host, once everything queued so far has run. */
  function DeviceAfter(g: Gpu): Snapshot { Drain(g.device, g.host, g.stream).0 }

  function HostAfter(g: Gpu): Snapshot { Drain(g.device, g.host, g.stream).1 }

  function CopiesIn(stream: seq<Op>): nat
  {
    if stream == [] then 0 else (if stream[0].Copy? then 1 else 0) + CopiesIn(stream[1..])
  }

  function Enqueue(g: Gpu, op: Op): Gpu { g.(stream := g.stream + [op], done := g.done && !op.Copy?) }

  function Execute(g: Gpu): Gpu
  {
    if g.stream == [] then g
    else match g.stream[0]
      case Forward(d) => g.(stream := g.stream[1..], device := d)
      case Copy => g.(stream := g.stream[1..], host := g.device, done := true)
  }

  lemma {:induction false} DrainAppend(device: Snapshot, host: Snapshot, a: seq<Op>, op: Op)
    ensures CopiesIn(a + [op]) == CopiesIn(a) + if op.Copy? then 1 else 0
    ensures var (d, h) := Drain(device, host, a);
            Drain(device, host, a + [op]) == if op.Copy? then (d, d) else (op.data, h)
    decreases |a|
  {
    if a == [] {
      assert a + [op] == [op];
    } else {
      assert (a + [op])[0] == a[0] && (a + [op])[1..] == a[1..] + [op];
      match a[0] {
        case Forward(d) => DrainAppend(d, host, a[1..], op);
        case Copy => DrainAppend(device, device, a[1..], op);
      }
    }
  }

  lemma {:induction false} NoCopyKeepsHost(device: Snapshot, host: Snapshot, stream: seq<Op>)
    requires CopiesIn(stream) == 0
    ensures Drain(device, host, stream).1 == host
    decreases |stream|
  {
    if stream != [] {
      match stream[0]
      case Forward(d) => NoCopyKeepsHost(d, host, stream[1..]);
      case Copy =>
    }
  }

  lemma Enqueued(g: Gpu, op: Op)
    ensures CopiesIn(Enqueue(g, op).stream) == CopiesIn(g.stream) + if op.Copy? then 1 else 0
    ensures DeviceAfter(Enqueue(g, op)) == if op.Copy? then DeviceAfter(g) else op.data
    ensures HostAfter(Enqueue(g, op)) == if op.Copy? then DeviceAfter(g) else HostAfter(g)
  {
    DrainAppend(g.device, g.host, g.stream, op);
  }

  /** Executing the head of the stream does not change where the stream leads. */
  lemma Executed(g: Gpu)
    ensures DeviceAfter(Execute(g)) == DeviceAfter(g) && HostAfter(Execute(g)) == HostAfter(g)
    ensures CopiesIn(Execute(g).stream) == CopiesIn(g.stream) - if g.stream != [] && g.stream[0].Copy? then 1 else 0
  {
  }

  // ----- the handshake

  /** Deliver a completed copy, dropping it when the queue is full. */
  function Deliver(c: Config, g: Gpu, x: Transfer): Transfer
  {
    if x.pending.None? || !g.done then x
    else if |x.queue| < c.room then
      var f := Frame(g.host, x.pending.value);
      x.(pending := None, queue := x.queue + [f], sent := x.sent + [f])
    else x.(pending := None)
  }

  /** The metadata kept beside a copy. */
  function Record(c: Config, h: Hooks, g: Gpu): Pending
    requires Tokens(h.batch) >= 0
  {
    Pending(Min(Tokens(h.batch), c.maxT), h.batch, h.step, Min(h.rows, c.maxT), h.acc, DeviceAfter(g), h.current,
            h.rowsStep, h.accStep)
  }

  /** p says what the hooks hold and where the stream leads: the batch, the step and the acceptance counts as they are,
      the numbers of tokens and of sampled rows cut to the buffers. */
  ghost predicate Describes(c: Config, h: Hooks, g: Gpu, p: Pending)
  {
    && p.batch == h.batch && p.step == h.step && p.acc == h.acc
    && p.t == (if Tokens(h.batch) <= c.maxT then Tokens(h.batch) else c.maxT)
    && p.rows == (if h.rows <= c.maxT then h.rows else c.maxT)
    && p.source == DeviceAfter(g) && p.current == h.current && p.rowsStep == h.rowsStep && p.accStep == h.accStep
  }

  lemma RecordDescribes(c: Config, h: Hooks, g: Gpu)
    requires Tokens(h.batch) >= 0
    ensures Describes(c, h, g, Record(c, h, g))
  {
    hide Tokens, DeviceAfter;
  }

  /** None in flight, the last one long enough ago, and something to show. */
  predicate Due(c: Config, h: Hooks, x: Transfer, now: real)
    requires c.Valid()
  {
    x.pending.None? && now - x.lastCopy >= c.Gap() && Min(Tokens(h.batch), c.maxT) > 0
  }

  function Queued(c: Config, h: Hooks, g: Gpu, x: Transfer, now: real): Transfer
    requires c.Valid() && Due(c, h, x, now)
  {
    x.(pending := Some(Record(c, h, g)), lastCopy := now, copies := x.copies + [now])
  }

  function Pump(c: Config, s: State, now: real): State
    requires c.Valid()
  {
    var x := Deliver(c, s.gpu, s.transfer);
    if Due(c, s.hooks, x, now) then State(s.hooks, Enqueue(s.gpu, Copy), Queued(c, s.hooks, s.gpu, x, now))
    else s.(transfer := x)
  }

  predicate Live(c: Config, h: Hooks) { c.on && !h.dead && !h.off }

  function Apply(c: Config, s: State, a: Act): State
    requires c.Valid()
  {
    var h := s.hooks;
    match a
    case SetBatch(next, now, capturing) =>
      if !Live(c, h) then s
      else (if h.ready && !capturing then Pump(c, s, now)
          else s).(hooks := h.(batch := next, step := h.step + 1, current := false))
    case RunForward(sampledRows) =>
      if !h.ready then s
      else
        s.(hooks := h.(forwards := h.forwards + 1, current := true, rows := if Live(c, h) then sampledRows else h.rows,
                       rowsStep := if Live(c, h) then h.step else h.rowsStep),
           gpu := Enqueue(s.gpu, Forward(Snapshot(h.forwards + 1, h.step, h.batch))))
    case Sampled(counts) => if Live(c, h) then s.(hooks := h.(acc := counts, accStep := h.step)) else s
    case GpuStep => s.(gpu := Execute(s.gpu))
    case Take => if s.transfer.queue == [] then s else s.(transfer := s.transfer.(queue := s.transfer.queue[1..]))
    case Init(rankZero) =>
      if !Live(c, h) || h.ready then s else s.(hooks := if rankZero then h.(ready := true) else h.(off := true))
    case Disarm => s.(hooks := h.(dead := true))
  }

  function Run(c: Config, s: State, acts: seq<Act>): State
    requires c.Valid()
  {
    if acts == [] then s else Apply(c, Run(c, s, acts[..|acts| - 1]), acts[|acts| - 1])
  }

  predicate Start(s: State)
  {
    && s.hooks == Hooks(false, false, false, [], 0, s.hooks.rows, s.hooks.acc, 0, false, 0, 0)
    && s.gpu.stream == [] && s.gpu.device.step == 0 && s.transfer == Transfer(None, 0.0, [], [], [])
  }

  // ----- what every run keeps

  /** One copy at most is in the stream; once it has run, the host holds what the pending record says. */
  ghost predicate InFlight(g: Gpu, x: Transfer)
  {
    && CopiesIn(g.stream) == (if x.pending.Some? && !g.done then 1 else 0)
    && (x.pending.Some? ==> HostAfter(g) == x.pending.value.source)
  }

  /** The device data is of the recorded step exactly when a forward was recorded since the batch was installed. */
  ghost predicate RecordOk(c: Config, p: Pending)
  {
    && 0 < p.t == Min(Tokens(p.batch), c.maxT) && p.step > 0 && p.rows <= c.maxT
    && (p.current <==> p.source.step == p.step) && (p.current ==> p.source.batch == p.batch)
  }

  ghost predicate FrameOk(c: Config, f: Frame)
  {
    f.data == f.recorded.source && RecordOk(c, f.recorded)
  }

  /** Delivered frames carry the data of their own copy; what waits for the
      publisher is the latest of them, in order. */
  ghost predicate FramesOk(c: Config, x: Transfer)
  {
    && (x.pending.Some? ==> RecordOk(c, x.pending.value))
    && (forall i :: 0 <= i < |x.sent| ==> FrameOk(c, x.sent[i]))
    && |x.queue| <= c.room && |x.queue| <= |x.sent|
    && forall i :: 0 <= i < |x.queue| ==> x.queue[i] == x.sent[|x.sent| - |x.queue| + i]
  }

  ghost predicate Spaced(c: Config, x: Transfer)
    requires c.Valid()
  {
    && (if x.copies == [] then x.lastCopy == 0.0 else x.copies[|x.copies| - 1] == x.lastCopy && x.copies[0] >= c.Gap())
    && forall i :: 0 < i < |x.copies| ==> x.copies[i] - x.copies[i - 1] >= c.Gap()
  }

  /** Where the stream leads: to this step's data if its forward was recorded, to an earlier step's otherwise. */
  ghost predicate StepOk(h: Hooks, g: Gpu)
  {
    var d := DeviceAfter(g);
    && (h.step == 0 ==> h.batch == []) && d.step <= h.step
    && (if h.current then d.step == h.step && d.batch == h.batch else h.step == 0 || d.step < h.step)
    && h.rowsStep <= h.step && h.accStep <= h.step
  }

  ghost predicate Inv(c: Config, s: State)
    requires c.Valid()
  {
    InFlight(s.gpu, s.transfer) && FramesOk(c, s.transfer) && Spaced(c, s.transfer) && StepOk(s.hooks, s.gpu)
  }

  lemma Delivered(c: Config, g: Gpu, x: Transfer)
    requires c.Valid() && InFlight(g, x) && FramesOk(c, x) && Spaced(c, x)
    ensures var y := Deliver(c, g, x);
            InFlight(g, y) && FramesOk(c, y) && Spaced(c, y) && (y.pending.Some? ==> y == x && !g.done)
  {
    if x.pending.Some? && g.done {
      NoCopyKeepsHost(g.device, g.host, g.stream);
      hide Drain, CopiesIn, RecordOk;
    }
  }

  lemma CopyQueued(c: Config, h: Hooks, g: Gpu, x: Transfer, now: real)
    requires c.Valid() && InFlight(g, x) && FramesOk(c, x) && Spaced(c, x) && StepOk(h, g) && Due(c, h, x, now)
    ensures var y := Queued(c, h, g, x, now);
            InFlight(Enqueue(g, Copy), y) && FramesOk(c, y) && Spaced(c, y) && StepOk(h, Enqueue(g, Copy))
  {
    Enqueued(g, Copy);
    assert RecordOk(c, Record(c, h, g));
    hide Drain, CopiesIn, Tokens, RecordOk, FrameOk, DeviceAfter, HostAfter;
    SpacedMore(c, x, Queued(c, h, g, x, now), now);
    hide Spaced;
  }

  lemma SpacedMore(c: Config, x: Transfer, y: Transfer, now: real)
    requires c.Valid() && Spaced(c, x) && y.copies == x.copies + [now] && y.lastCopy == now
             && now - x.lastCopy >= c.Gap()
    ensures Spaced(c, y)
  {
  }

  lemma PumpKeepsInv(c: Config, s: State, now: real)
    requires c.Valid() && Inv(c, s)
    ensures Inv(c, Pump(c, s, now))
  {
    var x := Deliver(c, s.gpu, s.transfer);
    Delivered(c, s.gpu, s.transfer);
    hide InFlight, FramesOk, Spaced, StepOk, Deliver, Queued;
    if Due(c, s.hooks, x, now) {
      CopyQueued(c, s.hooks, s.gpu, x, now);
    }
  }

  lemma SetBatchKeepsInv(c: Config, s: State, next: Batch, now: real, capturing: bool)
    requires c.Valid() && Inv(c, s)
    ensures Inv(c, Apply(c, s, SetBatch(next, now, capturing)))
  {
    PumpKeepsInv(c, s, now);
    assert Pump(c, s, now).hooks == s.hooks;
    hide InFlight, FramesOk, Spaced, Pump, DeviceAfter;
  }

  lemma ForwardKeepsInv(c: Config, s: State, rows: nat)
    requires c.Valid() && Inv(c, s)
    ensures Inv(c, Apply(c, s, RunForward(rows)))
  {
    Enqueued(s.gpu, Forward(Snapshot(s.hooks.forwards + 1, s.hooks.step, s.hooks.batch)));
    hide FramesOk, Spaced, Pump, DeviceAfter, HostAfter, CopiesIn;
  }

  lemma GpuKeepsInv(c: Config, s: State)
    requires c.Valid() && Inv(c, s)
    ensures Inv(c, Apply(c, s, GpuStep))
  {
    Executed(s.gpu);
    hide FramesOk, Spaced, Pump, DeviceAfter, HostAfter, CopiesIn;
  }

  lemma TakeKeepsInv(c: Config, s: State)
    requires c.Valid() && Inv(c, s)
    ensures Inv(c, Apply(c, s, Take))
  {
    hide FrameOk, RecordOk, Pump, DeviceAfter, HostAfter, CopiesIn, StepOk;
  }

  lemma ApplyKeepsInv(c: Config, s: State, a: Act)
    requires c.Valid() && Inv(c, s)
    ensures Inv(c, Apply(c, s, a))
  {
    match a
    case SetBatch(next, now, capturing) => SetBatchKeepsInv(c, s, next, now, capturing);
    case RunForward(rows) => ForwardKeepsInv(c, s, rows);
    case GpuStep => GpuKeepsInv(c, s);
    case Take => TakeKeepsInv(c, s);
    case _ => hide InFlight, FramesOk, Spaced, DeviceAfter;
  }

  lemma RunUnfold(c: Config, s: State, acts: seq<Act>, a: Act)
    requires c.Valid()
    ensures Run(c, s, []) == s && Run(c, s, acts + [a]) == Apply(c, Run(c, s, acts), a)
  {
    assert (acts + [a])[..|acts + [a]| - 1] == acts;
  }

  /** Every run of hooks, GPU progress, publisher and failures keeps the handshake. */
  lemma {:induction false} RunKeepsInv(c: Config, s: State, acts: seq<Act>)
    requires c.Valid() && Start(s)
    ensures Inv(c, Run(c, s, acts))
  {
    hide Apply;
    if acts != [] {
      RunKeepsInv(c, s, acts[..|acts| - 1]);
      ApplyKeepsInv(c, Run(c, s, acts[..|acts| - 1]), acts[|acts| - 1]);
    }
  }

  /** The host buffers change only when the one pending copy runs: never between its completion and its delivery. */
  lemma HostSafe(c: Config, s: State, acts: seq<Act>, a: Act)
    requires c.Valid() && Start(s)
    ensures var x, y := Run(c, s, acts), Apply(c, Run(c, s, acts), a);
            y.gpu.host != x.gpu.host ==>
              a.GpuStep? && x.transfer.pending.Some? && !x.gpu.done && y.transfer == x.transfer && y.gpu.done
  {
    RunKeepsInv(c, s, acts);
    hide Run, FramesOk, Spaced, StepOk, Deliver, Due, HostAfter;
  }

  // ----- when a frame's data is of its own step

  /** Event i installs a batch. */
  ghost predicate Installs(c: Config, s: State, acts: seq<Act>, i: nat)
    requires c.Valid() && i < |acts|
  {
    acts[i].SetBatch? && Live(c, Run(c, s, acts[..i]).hooks)
  }

  /** What a frame carries: the device data, the sampled rows and the accepted counts. */
  datatype What = Data | Rows | Counts

  /** Event i sets it: a forward whose hooks record (the rows only while the hooks are live), or the sampler. */
  ghost predicate Sets(c: Config, s: State, acts: seq<Act>, i: nat, what: What)
    requires c.Valid() && i < |acts|
  {
    SetBy(c, Run(c, s, acts[..i]).hooks, acts[i], what)
  }

  predicate SetBy(c: Config, h: Hooks, a: Act, what: What)
  {
    match what
    case Data => a.RunForward? && h.ready
    case Rows => a.RunForward? && h.ready && Live(c, h)
    case Counts => a.Sampled? && Live(c, h)
  }

  /** Among the first k events it was set after the last batch was installed. */
  ghost predicate SetSince(c: Config, s: State, acts: seq<Act>, k: nat, what: What)
    requires c.Valid() && k <= |acts|
  {
    exists j :: 0 <= j < k && Sets(c, s, acts, j, what) && forall i :: j < i < k ==> !Installs(c, s, acts, i)
  }

  lemma SetSinceStep(c: Config, s: State, acts: seq<Act>, k: nat, what: What)
    requires c.Valid() && k < |acts|
    ensures SetSince(c, s, acts, k + 1, what) <==>
              Sets(c, s, acts, k, what) || (SetSince(c, s, acts, k, what) && !Installs(c, s, acts, k))
  {
    hide Run;
    assert !(Sets(c, s, acts, k, what) && Installs(c, s, acts, k));
    hide Sets;
    if Sets(c, s, acts, k, what) {
      assert SetSince(c, s, acts, k + 1, what);
    }
    if SetSince(c, s, acts, k + 1, what) && !Sets(c, s, acts, k, what) {
      var j :| 0 <= j < k + 1 && Sets(c, s, acts, j, what) && forall i :: j < i < k + 1 ==> !Installs(c, s, acts, i);
      assert j < k;
    }
    if SetSince(c, s, acts, k, what) && !Installs(c, s, acts, k) {
      var j :| 0 <= j < k && Sets(c, s, acts, j, what) && forall i :: j < i < k ==> !Installs(c, s, acts, i);
      assert forall i :: j < i < k + 1 ==> !Installs(c, s, acts, i);
    }
  }

  /** The hooks' history says it is of the installed step (before any batch is installed there is none). */
  predicate OfStep(h: Hooks, what: What)
  {
    match what
    case Data => h.current
    case Rows => h.step > 0 && h.rowsStep == h.step
    case Counts => h.step > 0 && h.accStep == h.step
  }

  /** What the hooks' history says is what the run says, and the device buffers, once the stream has drained, hold data
      of the installed step exactly when a forward was recorded since its installation. */
  lemma CurrentIff(c: Config, s: State, acts: seq<Act>, k: nat, what: What)
    requires c.Valid() && Start(s) && k <= |acts|
    ensures var r := Run(c, s, acts[..k]);
            && (r.hooks.step > 0 ==> (OfStep(r.hooks, what) <==> SetSince(c, s, acts, k, what)))
            && (r.hooks.step > 0 ==> (DeviceAfter(r.gpu).step == r.hooks.step <==> SetSince(c, s, acts, k, Data)))
  {
    RunKeepsInv(c, s, acts[..k]);
    hide Run, SetSince, InFlight, FramesOk, Spaced, DeviceAfter;
    HistoryIff(c, s, acts, k, what);
    HistoryIff(c, s, acts, k, Data);
  }

  lemma {:induction false} HistoryIff(c: Config, s: State, acts: seq<Act>, k: nat, what: What)
    requires c.Valid() && Start(s) && k <= |acts|
    ensures var h := Run(c, s, acts[..k]).hooks; h.step > 0 ==> (OfStep(h, what) <==> SetSince(c, s, acts, k, what))
  {
    if k > 0 {
      HistoryIff(c, s, acts, k - 1, what);
      SetSinceStep(c, s, acts, k - 1, what);
      assert acts[..k - 1] + [acts[k - 1]] == acts[..k];
      RunUnfold(c, s, acts[..k - 1], acts[k - 1]);
      RunKeepsInv(c, s, acts[..k - 1]);
      hide Run, Enqueue, Execute, SetSince, InFlight, FramesOk, Spaced, DeviceAfter, Live, SetBy, OfStep;
      HistoryStep(c, Run(c, s, acts[..k - 1]), acts[k - 1], what);
    }
  }

  lemma HistoryStep(c: Config, s: State, a: Act, what: What)
    requires c.Valid() && s.hooks.rowsStep <= s.hooks.step && s.hooks.accStep <= s.hooks.step
    ensures var h := Apply(c, s, a).hooks;
            h.step > 0 ==>
              (OfStep(h, what) <==>
                 SetBy(c, s.hooks, a, what)
                 || (s.hooks.step > 0 && OfStep(s.hooks, what) && !(a.SetBatch? && Live(c, s.hooks))))
    ensures s.hooks.step == 0 < Apply(c, s, a).hooks.step ==> a.SetBatch? && Live(c, s.hooks)
  {
    hide Pump, Enqueue, Execute, Live;
  }

  /** Record p was made by event k: it describes what the hooks and the stream held just before it. */
  ghost predicate QueuedAt(c: Config, s: State, acts: seq<Act>, k: nat, p: Pending)
    requires c.Valid() && k < |acts|
  {
    var r := Run(c, s, acts[..k]);
    acts[k].SetBatch? && Describes(c, r.hooks, r.gpu, p)
  }

  ghost predicate WasQueued(c: Config, s: State, acts: seq<Act>, p: Pending)
    requires c.Valid()
  {
    exists k :: 0 <= k < |acts| && QueuedAt(c, s, acts, k, p)
  }

  lemma StillQueued(c: Config, s: State, acts: seq<Act>, a: Act, p: Pending)
    requires c.Valid() && WasQueued(c, s, acts, p)
    ensures WasQueued(c, s, acts + [a], p)
  {
    var k :| 0 <= k < |acts| && QueuedAt(c, s, acts, k, p);
    assert (acts + [a])[..k] == acts[..k];
    assert QueuedAt(c, s, acts + [a], k, p);
  }

  /** Event a runs the pump. */
  predicate Pumps(c: Config, s: State, a: Act)
  {
    a.SetBatch? && c.on && !s.hooks.dead && !s.hooks.off && s.hooks.ready && !a.capturing
  }

  /** What one event does: a pump sends the completed copy, with what is in the host buffers, unless the queue is full;
      it then starts a copy, and records it, iff none is in flight, the last one is 1 / hz ago and the batch has tokens;
      no other event does either. */
  lemma Additions(c: Config, s: State, a: Act)
    requires c.Valid()
    ensures var x, y := s.transfer, Apply(c, s, a).transfer;
            var ends := Pumps(c, s, a) && x.pending.Some? && s.gpu.done;
            var frames := if ends && |x.queue| < c.room then [Frame(s.gpu.host, x.pending.value)] else [];
            var starts := Pumps(c, s, a) && (x.pending.None? || s.gpu.done) && a.now - x.lastCopy >= 1.0 / c.hz
                          && Tokens(s.hooks.batch) > 0 && c.maxT > 0;
            && y.sent == x.sent + frames
            && y.queue == (if a.Take? && x.queue != [] then x.queue[1..] else x.queue + frames)
            && y.copies == x.copies + (if starts then [a.now] else [])
            && y.lastCopy == (if starts then a.now else x.lastCopy)
            && (if starts then y.pending.Some? && Describes(c, s.hooks, s.gpu, y.pending.value)
                else y.pending == if ends then None else x.pending)
  {
    hide Tokens, DeviceAfter, Enqueue, Execute;
  }

  /** Every pending or sent record was made by some set_batch of the run. */
  lemma {:induction false} RecordsWereQueued(c: Config, s: State, acts: seq<Act>)
    requires c.Valid() && Start(s)
    ensures var x := Run(c, s, acts).transfer;
            && (x.pending.Some? ==> WasQueued(c, s, acts, x.pending.value))
            && forall i :: 0 <= i < |x.sent| ==> WasQueued(c, s, acts, x.sent[i].recorded)
  {
    if acts != [] {
      var n := |acts| - 1;
      var before, a := acts[..n], acts[n];
      RecordsWereQueued(c, s, before);
      RunUnfold(c, s, before, a);
      assert before + [a] == acts;
      var r := Run(c, s, before);
      Additions(c, r, a);
      hide Run, Apply, Record, Describes, Tokens;
      var y := Run(c, s, acts).transfer;
      if y.pending.Some? {
        if y.pending == r.transfer.pending {
          StillQueued(c, s, before, a, y.pending.value);
        } else {
          assert QueuedAt(c, s, acts, n, y.pending.value);
        }
      }
      forall i | 0 <= i < |y.sent|
        ensures WasQueued(c, s, acts, y.sent[i].recorded)
      {
        if i < |r.transfer.sent| {
          assert y.sent[i] == r.transfer.sent[i];
        }
        StillQueued(c, s, before, a, y.sent[i].recorded);
      }
    }
  }

  // ----- what a record carries, in terms of the events

  /** The last of the first k values that are given, `start` if none is. */
  function LastGiven<V>(given: nat -> Option<V>, start: V, k: nat): V
  {
    if k == 0 then start
    else if given(k - 1).Some? then given(k - 1).value
    else LastGiven(given, start, k - 1)
  }

  /** How many of the first k are given. */
  function Givens<V>(given: nat -> Option<V>, k: nat): nat
  {
    if k == 0 then 0 else Givens(given, k - 1) + if given(k - 1).Some? then 1 else 0
  }

  /** The hooks take event i: they are on, none has failed and the rank is the one that publishes. */
  predicate TakenAt(c: Config, s: State, acts: seq<Act>, i: nat)
    requires c.Valid() && i < |acts|
  {
    var h := Run(c, s, acts[..i]).hooks;
    c.on && !h.dead && !h.off
  }

  function BatchGiven(c: Config, s: State, acts: seq<Act>): nat -> Option<Batch>
    requires c.Valid()
  {
    (i: nat) => if i < |acts| && acts[i].SetBatch? && TakenAt(c, s, acts, i) then Some(acts[i].next) else None
  }

  function CountsGiven(c: Config, s: State, acts: seq<Act>): nat -> Option<seq<(string, nat)>>
    requires c.Valid()
  {
    (i: nat) => if i < |acts| && acts[i].Sampled? && TakenAt(c, s, acts, i) then Some(acts[i].counts) else None
  }

  function RowsGiven(c: Config, s: State, acts: seq<Act>): nat -> Option<nat>
    requires c.Valid()
  {
    (i: nat) =>
      if i < |acts| && acts[i].RunForward? && TakenAt(c, s, acts, i) && Run(c, s, acts[..i]).hooks.ready
      then Some(acts[i].sampledRows) else None
  }

  /** The hooks hold the last batch installed, the number of batches, and the rows and the counts given last. */
  lemma {:induction false} HooksHold(c: Config, s: State, acts: seq<Act>, k: nat)
    requires c.Valid() && Start(s) && k <= |acts|
    ensures var h := Run(c, s, acts[..k]).hooks;
            && h.batch == LastGiven(BatchGiven(c, s, acts), [], k) && h.step == Givens(BatchGiven(c, s, acts), k)
            && h.rows == LastGiven(RowsGiven(c, s, acts), s.hooks.rows, k)
            && h.acc == LastGiven(CountsGiven(c, s, acts), s.hooks.acc, k)
  {
    if k == 0 {
      assert acts[..0] == [];
    } else {
      HooksHold(c, s, acts, k - 1);
      assert acts[..k - 1] + [acts[k - 1]] == acts[..k];
      RunUnfold(c, s, acts[..k - 1], acts[k - 1]);
      hide Run;
      HooksTake(c, Run(c, s, acts[..k - 1]), acts[k - 1]);
    }
  }

  /** What one event does to what the hooks hold and to whether they run. */
  lemma HooksTake(c: Config, s: State, a: Act)
    requires c.Valid()
    ensures var h, h' := s.hooks, Apply(c, s, a).hooks;
            var taken := c.on && !h.dead && !h.off;
            && h'.batch == (if a.SetBatch? && taken then a.next else h.batch)
            && h'.step == h.step + (if a.SetBatch? && taken then 1 else 0)
            && h'.rows == (if a.RunForward? && taken && h.ready then a.sampledRows else h.rows)
            && h'.acc == (if a.Sampled? && taken then a.counts else h.acc)
            && h'.dead == (h.dead || a.Disarm?)
            && h'.ready == (h.ready || (a.Init? && taken && a.rankZero))
            && h'.off == (h.off || (a.Init? && taken && !h.ready && !a.rankZero))
  {
    hide Deliver, Enqueue, Execute, Queued, Due;
  }

  /** Record p carries, of the events before event k: the batch installed last and its number, the acceptance counts the
      sampler reported last, and the tokens and the last forward's sampled rows cut to the buffers. */
  ghost predicate Carries(c: Config, s: State, acts: seq<Act>, k: nat, p: Pending)
    requires c.Valid()
  {
    var rows := LastGiven(RowsGiven(c, s, acts), s.hooks.rows, k);
    && p.batch == LastGiven(BatchGiven(c, s, acts), [], k) && p.step == Givens(BatchGiven(c, s, acts), k)
    && p.acc == LastGiven(CountsGiven(c, s, acts), s.hooks.acc, k)
    && p.rows == (if rows <= c.maxT then rows else c.maxT)
    && p.t == (if Tokens(p.batch) <= c.maxT then Tokens(p.batch) else c.maxT)
  }

  /** Every frame sent was queued by one pump of the run and carries what the events before it left. */
  lemma FrameCarries(c: Config, s: State, acts: seq<Act>, i: nat)
    requires c.Valid() && Start(s) && i < |Run(c, s, acts).transfer.sent|
    ensures var p := Run(c, s, acts).transfer.sent[i].recorded;
            exists k :: 0 <= k < |acts| && acts[k].SetBatch? && Carries(c, s, acts, k, p)
  {
    RecordsWereQueued(c, s, acts);
    var p := Run(c, s, acts).transfer.sent[i].recorded;
    hide Run, Tokens, LastGiven, Givens, DeviceAfter, BatchGiven, CountsGiven, RowsGiven;
    var k :| 0 <= k < |acts| && QueuedAt(c, s, acts, k, p);
    HooksHold(c, s, acts, k);
    assert Carries(c, s, acts, k, p);
  }

  /** Every frame carries the data its own copy took from the device and what the events before that copy left; copies
      start at least 1 / hz apart, and the publisher's queue is the latest frames and within its room. */
  lemma FramesAndRate(c: Config, s: State, acts: seq<Act>)
    requires c.Valid() && Start(s)
    ensures var r := Run(c, s, acts).transfer;
            && (forall i :: 0 <= i < |r.sent| ==>
                  && r.sent[i].data == r.sent[i].recorded.source && r.sent[i].recorded.t > 0
                  && exists k :: 0 <= k < |acts| && acts[k].SetBatch? && Carries(c, s, acts, k, r.sent[i].recorded))
            && (forall i :: 0 < i < |r.copies| ==> r.copies[i] - r.copies[i - 1] >= 1.0 / c.hz)
            && |r.queue| <= c.room && |r.queue| <= |r.sent| && r.queue == r.sent[|r.sent| - |r.queue|..]
  {
    RunKeepsInv(c, s, acts);
    hide Run, InFlight, StepOk, Carries, Tokens;
    var sent := Run(c, s, acts).transfer.sent;
    forall i | 0 <= i < |sent|
      ensures sent[i].data == sent[i].recorded.source && sent[i].recorded.t > 0
      ensures exists k :: 0 <= k < |acts| && acts[k].SetBatch? && Carries(c, s, acts, k, sent[i].recorded)
    {
      assert FrameOk(c, sent[i]);
      FrameCarries(c, s, acts, i);
    }
  }

  /** The tokens of a batch are those of its requests together. */
  lemma {:induction false} TokensAdd(a: Batch, b: Batch)
    ensures Tokens(a + b) == Tokens(a) + Tokens(b)
    ensures |a| == 1 ==> Tokens(a) == a[0].2
  {
    if a == [] {
      assert a + b == b;
    } else {
      assert (a + b)[1..] == a[1..] + b;
      TokensAdd(a[1..], b);
    }
  }

  /** What the frame carries is of the step its record names. */
  predicate OwnStep(f: Frame, what: What)
  {
    match what
    case Data => f.data.step == f.recorded.step
    case Rows => f.recorded.rowsStep == f.recorded.step
    case Counts => f.recorded.accStep == f.recorded.step
  }

  /** A sent frame's data, rows or counts are of its record's own step exactly when they were set between the
      installation of that step's batch and the moment its copy was queued; its data is then of the record's batch. */
  lemma FrameOwnStepIff(c: Config, s: State, acts: seq<Act>, i: nat, k: nat, what: What)
    requires c.Valid() && Start(s) && i < |Run(c, s, acts).transfer.sent|
    requires k < |acts| && QueuedAt(c, s, acts, k, Run(c, s, acts).transfer.sent[i].recorded)
    ensures var f := Run(c, s, acts).transfer.sent[i];
            && (OwnStep(f, what) <==> SetSince(c, s, acts, k, what))
            && (OwnStep(f, Data) ==> f.data.batch == f.recorded.batch)
  {
    RunKeepsInv(c, s, acts);
    CurrentIff(c, s, acts, k, what);
    hide Run, Tokens, SetSince, DeviceAfter, InFlight, StepOk, Spaced;
    assert FrameOk(c, Run(c, s, acts).transfer.sent[i]);
  }

  /** Record p was queued by an event before which it was set since the batch was installed. */
  ghost predicate SetBeforeCopy(c: Config, s: State, acts: seq<Act>, p: Pending, what: What)
    requires c.Valid()
  {
    exists k :: 0 <= k < |acts| && QueuedAt(c, s, acts, k, p) && SetSince(c, s, acts, k, what)
  }

  lemma OwnStepIff(c: Config, s: State, acts: seq<Act>, i: nat, what: What)
    requires c.Valid() && Start(s) && i < |Run(c, s, acts).transfer.sent|
    ensures var f := Run(c, s, acts).transfer.sent[i];
            OwnStep(f, what) <==> SetBeforeCopy(c, s, acts, f.recorded, what)
  {
    RecordsWereQueued(c, s, acts);
    hide Run, SetSince, QueuedAt, OwnStep;
    var p := Run(c, s, acts).transfer.sent[i].recorded;
    var k :| 0 <= k < |acts| && QueuedAt(c, s, acts, k, p);
    FrameOwnStepIff(c, s, acts, i, k, what);
    if SetBeforeCopy(c, s, acts, p, what) {
      var j :| 0 <= j < |acts| && QueuedAt(c, s, acts, j, p) && SetSince(c, s, acts, j, what);
      FrameOwnStepIff(c, s, acts, i, j, what);
    }
  }

  /** All frames of a run carry data (rows, counts) of their own step exactly when every delivered copy was queued with
      these set since its batch was installed. */
  lemma AllFramesOwnStepIff(c: Config, s: State, acts: seq<Act>, what: What)
    requires c.Valid() && Start(s)
    ensures var sent := Run(c, s, acts).transfer.sent;
            (forall f :: f in sent ==> OwnStep(f, what)) <==>
                (forall f :: f in sent ==> SetBeforeCopy(c, s, acts, f.recorded, what))
  {
    var sent := Run(c, s, acts).transfer.sent;
    hide Run, OwnStep, SetBeforeCopy;
    forall i | 0 <= i < |sent|
      ensures OwnStep(sent[i], what) <==> SetBeforeCopy(c, s, acts, sent[i].recorded, what)
    {
      OwnStepIff(c, s, acts, i, what);
    }
  }

  // ----- a run without such a forward

  /** Ready, nothing in flight or delivered, and a stream of one forward of step 1. */
  ghost predicate OneForward(c: Config, s: State, a: Batch, b: Batch, step: nat)
  {
    && Live(c, s.hooks) && s.hooks.ready && s.hooks.batch == b && s.hooks.step == step
    && s.gpu.stream == [Forward(Snapshot(1, 1, a))] && s.transfer == Transfer(None, 0.0, [], [], [])
  }

  lemma FirstBatch(c: Config, s: State, a: Batch)
    requires c.Valid() && c.on && Start(s)
    ensures OneForward(c, Apply(c, Apply(c, Apply(c, s, Init(true)), SetBatch(a, 0.0, false)), RunForward(0)), a, a, 1)
  {
    hide DeviceAfter;
  }

  lemma TooEarly(c: Config, s: State, a: Batch, b: Batch)
    requires c.Valid() && OneForward(c, s, a, a, 1)
    ensures OneForward(c, Apply(c, s, SetBatch(b, 0.0, false)), a, b, 2)
  {
    assert c.Gap() > 0.0;
    hide Tokens, DeviceAfter;
  }

  /** A copy under way whose record is step 2's over step 1's data. */
  ghost predicate StaleCopy(c: Config, s: State, a: Batch, b: Batch, rest: seq<Op>)
  {
    && Live(c, s.hooks) && s.hooks.ready && s.gpu.stream == rest
    && s.transfer.pending.Some? && s.transfer.pending.value.batch == b && s.transfer.pending.value.step == 2
    && s.transfer.queue == [] && s.transfer.sent == []
    && (rest == [Copy] || rest == [] ==> s.gpu.device == Snapshot(1, 1, a))
    && (rest == [] ==> s.gpu.done && s.gpu.host == Snapshot(1, 1, a))
  }

  lemma StaleQueued(c: Config, s: State, a: Batch, b: Batch, next: Batch)
    requires c.Valid() && c.maxT > 0 && Tokens(b) > 0 && OneForward(c, s, a, b, 2)
    ensures StaleCopy(c, Apply(c, s, SetBatch(next, c.Gap(), false)), a, b, [Forward(Snapshot(1, 1, a)), Copy])
  {
    assert Due(c, s.hooks, s.transfer, c.Gap());
    hide Tokens, DeviceAfter;
  }

  lemma StaleCopied(c: Config, s: State, a: Batch, b: Batch)
    requires c.Valid() && StaleCopy(c, s, a, b, [Forward(Snapshot(1, 1, a)), Copy])
    ensures StaleCopy(c, Apply(c, Apply(c, s, GpuStep), GpuStep), a, b, [])
  {
    var s1 := Apply(c, s, GpuStep);
    assert s1.gpu.stream == [Copy];
    hide Pump;
  }

  /** The one frame sent holds step 1's data, of batch a, under step 2 and batch b. */
  ghost predicate Mispaired(s: State, a: Batch, b: Batch)
  {
    && |s.transfer.sent| == 1 && !OwnStep(s.transfer.sent[0], Data)
    && s.transfer.sent[0].data.batch == a && s.transfer.sent[0].recorded.batch == b
  }

  lemma StaleDelivered(c: Config, s: State, a: Batch, b: Batch, next: Batch)
    requires c.Valid() && c.room > 0 && StaleCopy(c, s, a, b, [])
    ensures Mispaired(Apply(c, s, SetBatch(next, c.Gap(), false)), a, b)
  {
    hide Tokens, DeviceAfter;
  }

  /** At every rate some run delivers one step's data under another step's batch: a batch and its forward, a second
      batch too early for a copy and without a forward, a third batch once a copy is due, and a fourth after it. */
  lemma SkippedForwardMispairs(c: Config, s: State, a: Batch, b: Batch) returns (acts: seq<Act>)
    requires c.Valid() && c.on && c.maxT > 0 && c.room > 0 && Start(s) && Tokens(b) > 0
    ensures Mispaired(Run(c, s, acts), a, b)
  {
    hide *;
    var set2, set3 := SetBatch(b, 0.0, false), SetBatch(a, c.Gap(), false);
    var p1 := [] + [Init(true)];
    var p2 := p1 + [SetBatch(a, 0.0, false)];
    var p3 := p2 + [RunForward(0)];
    RunUnfold(c, s, [], Init(true));
    RunUnfold(c, s, p1, SetBatch(a, 0.0, false));
    RunUnfold(c, s, p2, RunForward(0));
    FirstBatch(c, s, a);
    var p4 := p3 + [set2];
    RunUnfold(c, s, p3, set2);
    TooEarly(c, Run(c, s, p3), a, b);
    var p5 := p4 + [set3];
    RunUnfold(c, s, p4, set3);
    StaleQueued(c, Run(c, s, p4), a, b, a);
    var p6 := p5 + [GpuStep];
    var p7 := p6 + [GpuStep];
    RunUnfold(c, s, p5, GpuStep);
    RunUnfold(c, s, p6, GpuStep);
    StaleCopied(c, Run(c, s, p5), a, b);
    acts := p7 + [set3];
    RunUnfold(c, s, p7, set3);
    StaleDelivered(c, Run(c, s, p7), a, b, a);
  }

  // ----- the hooks of the model runner

  class Runtime {
    const c: Config
    var ready: bool
    var off: bool
    var dead: bool
    var batch: Batch
    var step: nat
    var rows: nat
    var acc: seq<(string, nat)>
    var forwards: nat
    var current: bool
    var rowsStep: nat
    var accStep: nat
    var stream: seq<Op>
    var device: Snapshot
    var host: Snapshot
    var done: bool
    var pending: Option<Pending>
    var lastCopy: real
    var queue: seq<Frame>
    ghost var sent: seq<Frame>
    ghost var copies: seq<real>

    constructor (c: Config)
      requires c.Valid()
      ensures this.c == c && Start(Now())
    {
      this.c := c;
      ready, off, dead, batch, step, rows, acc, forwards, current := false, false, false, [], 0, 0, [], 0, false;
      rowsStep, accStep := 0, 0;
      stream, device, host, done := [], Snapshot(0, 0, []), Snapshot(0, 0, []), false;
      pending, lastCopy, queue, sent, copies := None, 0.0, [], [], [];
    }

    function TheHooks(): Hooks
      reads this
    {
      Hooks(ready, off, dead, batch, step, rows, acc, forwards, current, rowsStep, accStep)
    }

    function TheGpu(): Gpu
      reads this
    {
      Gpu(stream, device, host, done)
    }

    ghost function TheTransfer(): Transfer
      reads this
    {
      Transfer(pending, lastCopy, queue, sent, copies)
    }

    ghost function Now(): State
      reads this
    {
      State(TheHooks(), TheGpu(), TheTransfer())
    }

    /** First half of the pump: a finished copy goes to the publisher; true while one is still in flight. */
    method DeliverCopy() returns (busy: bool)
      modifies this`pending, this`queue, this`sent
      ensures TheTransfer() == Deliver(c, TheGpu(), old(TheTransfer())) && busy == pending.Some?
    {
      if pending.None? || !done {
        return pending.Some?;
      }
      var f := Frame(host, pending.value);
      if |queue| < c.room {
        queue := queue + [f];
        sent := sent + [f];
      }
      pending := None;
      busy := false;
    }

    /** Second half: queue the next copy unless it is too soon or there is nothing to show. */
    method QueueCopy(now: real)
      requires c.Valid() && pending.None?
      modifies this`pending, this`lastCopy, this`stream, this`done, this`copies
      ensures if old(Due(c, TheHooks(), TheTransfer(), now))
              then TheGpu() == old(Enqueue(TheGpu(), Copy))
                  && TheTransfer() == old(Queued(c, TheHooks(), TheGpu(), TheTransfer(), now))
              else TheGpu() == old(TheGpu()) && TheTransfer() == old(TheTransfer())
    {
      hide DeviceAfter, Tokens;
      if now - lastCopy < 1.0 / c.hz {
        return;
      }
      var t := Min(Tokens(batch), c.maxT);
      if t <= 0 {
        return;
      }
      lastCopy := now;
      pending := Some(Record(c, TheHooks(), TheGpu()));
      stream := stream + [Copy];
      done := false;
      copies := copies + [now];
    }

    method PumpCopy(now: real)
      requires c.Valid()
      modifies this`pending, this`queue, this`sent, this`lastCopy, this`stream, this`done, this`copies
      ensures Now() == Pump(c, old(Now()), now)
    {
      var busy := DeliverCopy();
      hide Tokens, Deliver, Record;
      if busy {
        return;
      }
      QueueCopy(now);
    }

    /** Every step, before its forward: pump for the previous step, then install the new batch. */
    method InstallBatch(next: Batch, now: real, capturing: bool)
      requires c.Valid()
      modifies this
      ensures Now() == Apply(c, old(Now()), SetBatch(next, now, capturing))
    {
      if !c.on || dead || off {
        return;
      }
      if ready && !capturing {
        PumpCopy(now);
      }
      hide Pump;
      batch := next;
      step := step + 1;
      current := false;
    }
  }
}
