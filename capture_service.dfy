/**
  The capture service: the control-side lifecycle (`start`/`stop` of the worker process) and
  the worker's capture loop with its queue discipline.

  The worker runs concurrently with the control context, which sets and clears the two
  events. Seen from the worker, each loop iteration reads both events and receives one
  answer from the frame processor or the video source; a `Tick` holds those observations.
  The loop is specified by the functions `Iterate`, `RunLoop` and `Run`, and
  `RunCaptureLoop` is proved to change the three queues exactly as they say.
 */
module CaptureServices {
  import opened Wrappers
  import opened Json
  import opened Channels

  datatype Status = Info | Completed | Error

  /** A status message of the side channel: a tag and a free-text detail. */
  datatype StatusMessage = StatusMessage(status: Status, detail: string)

  /** A feature packet: named measurements of one frame. */
  type Packet = map<string, Value>

  /** A video frame, opaque apart from its identity. */
  datatype Frame = Frame(id: nat)

  /** Detail of the message sent when the video stream ends. */
  const CompletedDetail := "video playback completed"

  /** `if feature_packet:` is true for a non-empty packet only. */
  predicate Truthy(p: Option<Packet>)
  {
    p.Some? && |p.value| > 0
  }

  /** One call of `orchestrator.process_one_frame()`. */
  datatype ProcessOutcome =
    | Processed(packet: Option<Packet>, annotated: Option<Frame>)
    | ProcessRaised(error: string)

  /** One call of `orchestrator.video_source.get_frame()`. */
  datatype ReadOutcome =
    | FrameRead(ok: bool, frame: Option<Frame>)
    | ReadRaised(error: string)

  /** What one loop iteration observes: both events, and the answer of whichever collaborator
      its branch calls (`process` in analysis mode, `read` in preview mode). */
  datatype Tick = Tick(running: bool, analysisActive: bool, process: ProcessOutcome, read: ReadOutcome)

  /** Construction of the orchestrator (frame processor and video source). */
  datatype InitOutcome = InitOk | InitFailed(error: string)

  /** The three queues as the worker leaves them, and its counts of 1 s error pauses and of
      1 ms end-of-iteration naps (the `time.sleep(0.001)`). */
  datatype Worker = Worker(
    data: seq<Packet>, frames: seq<Frame>, status: seq<StatusMessage>,
    errorPauses: nat, naps: nat)

  /** The `maxsize` of the data and frame queues (0: unbounded). */
  datatype Limits = Limits(dataMax: nat, framesMax: nat)

  /** The iteration raised an exception other than `queue.Full`. */
  predicate Raised(t: Tick)
  {
    if t.analysisActive then t.process.ProcessRaised? else t.read.ReadRaised?
  }

  function RaisedDetail(t: Tick): string
    requires Raised(t)
  {
    if t.analysisActive then t.process.error else t.read.error
  }

  /** The video stream is exhausted: a preview read that is not ok. */
  predicate Exhausted(t: Tick)
  {
    !t.analysisActive && t.read.FrameRead? && !t.read.ok
  }

  /** The frame the iteration hands to the frame queue, if any. */
  function Annotated(t: Tick): Option<Frame>
  {
    if t.analysisActive then (if t.process.Processed? then t.process.annotated else None)
    else if t.read.FrameRead? && t.read.ok then t.read.frame
    else None
  }

  /** The iteration's feature packet is dropped because the data queue is full; the rest of
      the iteration is skipped. */
  predicate DataFull(w: Worker, t: Tick, lim: Limits)
  {
    t.analysisActive && t.process.Processed? && Truthy(t.process.packet) && IsFull(w.data, lim.dataMax)
  }

  /** The packet the iteration puts on the data queue: a truthy analysis-mode packet, when
      the queue has room for it. */
  function Delivered(w: Worker, t: Tick, lim: Limits): seq<Packet>
  {
    if t.analysisActive && t.process.Processed? && Truthy(t.process.packet) && !IsFull(w.data, lim.dataMax)
    then [t.process.packet.value]
    else []
  }

  /** The frame queue after the non-blocking drain of one stale frame. */
  function Drained(frames: seq<Frame>): (r: seq<Frame>)
    ensures frames == [] ==> r == []
    ensures frames != [] ==> frames == [frames[0]] + r && |r| == |frames| - 1
  {
    if frames == [] then [] else frames[1..]
  }

  /** Latest-wins write: drain one stale frame, then put; `true` when the put met `queue.Full`. */
  function WriteFrame(frames: seq<Frame>, f: Frame, framesMax: nat): (r: (seq<Frame>, bool))
    ensures !r.1 ==> r.0 == Drained(frames) + [f]
    ensures r.1 ==> r.0 == Drained(frames)
    ensures |frames| <= 1 ==> r == ([f], false)
  {
    var kept := Drained(frames);
    assert |frames| <= 1 ==> kept == [] && kept + [f] == [f];
    if IsFull(kept, framesMax) then (kept, true) else (kept + [f], false)
  }

  /** The end of an iteration that produced `annotated`: the frame write, then the 1 ms yield,
      which a `queue.Full` on the frame write skips. */
  function FinishIteration(w: Worker, annotated: Option<Frame>, lim: Limits): Worker
  {
    if annotated.None? then w.(naps := w.naps + 1)
    else
      var (frames, full) := WriteFrame(w.frames, annotated.value, lim.framesMax);
      if full then w.(frames := frames) else w.(frames := frames, naps := w.naps + 1)
  }

  /** The latest-wins frame write on the queue itself: `if not frame_queue.empty():
      frame_queue.get_nowait()`, then `frame_queue.put(frame, timeout=1)`. */
  method PutLatest(frames: Channel<Frame>, f: Frame) returns (full: bool)
    modifies frames
    ensures (frames.items, full) == WriteFrame(old(frames.items), f, frames.maxsize)
  {
    if !frames.Empty() {
      var _ := frames.GetNowait();
    }
    full := frames.Put(f);
  }

  /** The body of the `while` loop, entered with `running` set. The flag says the loop breaks. */
  function Iterate(w: Worker, t: Tick, lim: Limits): (r: (Worker, bool))
    // The loop is left only when the preview stream is exhausted, with one COMPLETED status.
    ensures r.1 <==> Exhausted(t)
    ensures r.1 ==> r.0 == w.(status := w.status + [StatusMessage(Completed, CompletedDetail)])
    // An exception is reported once as ERROR, followed by a pause, and the loop goes on.
    ensures Raised(t) ==>
      r.0 == w.(status := w.status + [StatusMessage(Error, RaisedDetail(t))],
                errorPauses := w.errorPauses + 1, naps := w.naps + 1)
    ensures !Raised(t) && !r.1 ==> r.0.status == w.status && r.0.errorPauses == w.errorPauses
    // Feature packets are written in analysis mode only, and only when truthy.
    ensures r.0.data == w.data + Delivered(w, t, lim)
    // queue.Full on the data queue skips the frame write and the yield; nothing is reported.
    ensures DataFull(w, t, lim) ==> r == (w, false)
    // Latest-wins: a frame queue holding at most one item holds only the new frame afterwards.
    ensures !r.1 && !Raised(t) && !DataFull(w, t, lim) && Annotated(t).Some? && |w.frames| <= 1 ==>
      r.0.frames == [Annotated(t).value]
    ensures Annotated(t).None? || r.1 || Raised(t) ==> r.0.frames == w.frames
    ensures |w.frames| <= 1 ==> |r.0.frames| <= 1
  {
    if t.analysisActive then
      match t.process
      case ProcessRaised(e) =>
        (w.(status := w.status + [StatusMessage(Error, e)],
            errorPauses := w.errorPauses + 1, naps := w.naps + 1), false)
      case Processed(packet, annotated) =>
        if Truthy(packet) then
          if IsFull(w.data, lim.dataMax) then (w, false)
          else (FinishIteration(w.(data := w.data + [packet.value]), annotated, lim), false)
        else (FinishIteration(w, annotated, lim), false)
    else
      match t.read
      case ReadRaised(e) =>
        (w.(status := w.status + [StatusMessage(Error, e)],
            errorPauses := w.errorPauses + 1, naps := w.naps + 1), false)
      case FrameRead(ok, frame) =>
        if !ok then (w.(status := w.status + [StatusMessage(Completed, CompletedDetail)]), true)
        else (FinishIteration(w, frame, lim), false)
  }

  /** `while running_event.is_set(): ...` over the iterations' observations. Latest wins over
      a whole run: a frame queue that starts with at most one frame never holds more than one. */
  function RunLoop(w: Worker, ticks: seq<Tick>, lim: Limits): (r: Worker)
    ensures |w.frames| <= 1 ==> |r.frames| <= 1
    decreases |ticks|
  {
    if ticks == [] || !ticks[0].running then w
    else
      var (w', exit) := Iterate(w, ticks[0], lim);
      if exit then w' else RunLoop(w', ticks[1..], lim)
  }

  /** The whole worker, `_run_capture_loop`, and the number of `orchestrator.release()` calls. */
  datatype RunResult = RunResult(w: Worker, releases: nat)

  function Run(init: InitOutcome, w: Worker, ticks: seq<Tick>, lim: Limits): (r: RunResult)
    // A failed initialisation reports one ERROR, never enters the loop, releases nothing.
    ensures init.InitFailed? ==>
      r.releases == 0 && r.w == w.(status := w.status + [StatusMessage(Error, init.error)])
    // Otherwise the orchestrator is released exactly once, however the loop ends.
    ensures init.InitOk? ==> r.releases == 1
  {
    match init
    case InitFailed(e) => RunResult(w.(status := w.status + [StatusMessage(Error, e)]), 0)
    case InitOk => RunResult(RunLoop(w, ticks, lim), 1)
  }

  /** The worker never removes or reorders packets or status messages: both queues only grow
      at their end, so FIFO order among the written items is kept. */
  lemma {:induction false} RunLoopAppendsOnly(w: Worker, ticks: seq<Tick>, lim: Limits)
    ensures var r := RunLoop(w, ticks, lim);
      && |w.data| <= |r.data| && r.data[..|w.data|] == w.data
      && |w.status| <= |r.status| && r.status[..|w.status|] == w.status
    decreases |ticks|
  {
    if ticks != [] && ticks[0].running {
      var (w', exit) := Iterate(w, ticks[0], lim);
      if !exit {
        RunLoopAppendsOnly(w', ticks[1..], lim);
        var r := RunLoop(w', ticks[1..], lim);
        assert r.data[..|w.data|] == r.data[..|w'.data|][..|w.data|];
        assert r.status[..|w.status|] == r.status[..|w'.status|][..|w.status|];
      }
    }
  }

  /** The feature packets a run delivers, oldest first: the truthy analysis-mode packets of
      the iterations up to the loop's exit that found room on the data queue. */
  function Produced(w: Worker, ticks: seq<Tick>, lim: Limits): seq<Packet>
    decreases |ticks|
  {
    if ticks == [] || !ticks[0].running then []
    else
      var (w', exit) := Iterate(w, ticks[0], lim);
      Delivered(w, ticks[0], lim) + (if exit then [] else Produced(w', ticks[1..], lim))
  }

  /** The data queue receives exactly the produced packets, in production order, after what it
      already held. */
  lemma {:induction false} RunLoopDeliversProduced(w: Worker, ticks: seq<Tick>, lim: Limits)
    ensures RunLoop(w, ticks, lim).data == w.data + Produced(w, ticks, lim)
    decreases |ticks|
  {
    if ticks != [] && ticks[0].running {
      var (w', exit) := Iterate(w, ticks[0], lim);
      if !exit {
        RunLoopDeliversProduced(w', ticks[1..], lim);
        assert w'.data + Produced(w', ticks[1..], lim)
            == w.data + (Delivered(w, ticks[0], lim) + Produced(w', ticks[1..], lim));
      }
    }
  }

  /** The preview branch never writes to the data queue. */
  lemma {:induction false} PreviewWritesNoData(w: Worker, ticks: seq<Tick>, lim: Limits)
    requires forall i :: 0 <= i < |ticks| ==> !ticks[i].analysisActive
    ensures RunLoop(w, ticks, lim).data == w.data
    decreases |ticks|
  {
    if ticks != [] && ticks[0].running {
      var (w', exit) := Iterate(w, ticks[0], lim);
      if !exit {
        PreviewWritesNoData(w', ticks[1..], lim);
      }
    }
  }

  /** The worker honours a cleared `running` at the next iteration: nothing it observes after
      the first iteration that finds `running` cleared has any effect. */
  lemma {:induction false} ClearedRunningEndsLoop(w: Worker, ticks: seq<Tick>, lim: Limits, k: nat)
    requires k < |ticks| && !ticks[k].running
    ensures RunLoop(w, ticks, lim) == RunLoop(w, ticks[..k], lim)
    decreases k
  {
    if k > 0 && ticks[0].running {
      var (w', exit) := Iterate(w, ticks[0], lim);
      if !exit {
        ClearedRunningEndsLoop(w', ticks[1..], lim, k - 1);
        assert ticks[1..][..k - 1] == ticks[..k][1..];
      }
    }
  }

  /** Number of messages with the given tag. */
  function CountStatus(s: seq<StatusMessage>, tag: Status): nat
  {
    if s == [] then 0
    else CountStatus(s[..|s| - 1], tag) + (if s[|s| - 1].status == tag then 1 else 0)
  }

  lemma CountStatusAppend(s: seq<StatusMessage>, m: StatusMessage, tag: Status)
    ensures CountStatus(s + [m], tag) == CountStatus(s, tag) + (if m.status == tag then 1 else 0)
  {
    assert (s + [m])[..|s|] == s;
  }

  /** A run emits at most one COMPLETED: the loop stops right after sending it. */
  lemma {:induction false} AtMostOneCompleted(w: Worker, ticks: seq<Tick>, lim: Limits)
    ensures CountStatus(RunLoop(w, ticks, lim).status, Completed) <= CountStatus(w.status, Completed) + 1
    decreases |ticks|
  {
    if ticks != [] && ticks[0].running {
      var (w', exit) := Iterate(w, ticks[0], lim);
      if exit {
        CountStatusAppend(w.status, StatusMessage(Completed, CompletedDetail), Completed);
      } else {
        if Raised(ticks[0]) {
          CountStatusAppend(w.status, StatusMessage(Error, RaisedDetail(ticks[0])), Completed);
        }
        assert CountStatus(w'.status, Completed) == CountStatus(w.status, Completed);
        AtMostOneCompleted(w', ticks[1..], lim);
      }
    }
  }

  /** A preview iteration that reads a frame continues the loop and leaves the status and
      data queues alone. */
  lemma PreviewFrameStep(w: Worker, t: Tick, lim: Limits)
    requires !t.analysisActive && t.read.FrameRead? && t.read.ok
    ensures var (w', exit) := Iterate(w, t, lim); !exit && w'.status == w.status && w'.data == w.data
  {
  }

  /** Preview with a stream that delivers frames and is exhausted at read `k`: the loop ends
      there with exactly one COMPLETED as its last status, and no feature packet is written. */
  lemma {:induction false} ExhaustionCompletesOnce(w: Worker, ticks: seq<Tick>, lim: Limits, k: nat)
    requires k < |ticks|
    requires forall i :: 0 <= i <= k ==> ticks[i].running && !ticks[i].analysisActive && ticks[i].read.FrameRead?
    requires forall i :: 0 <= i < k ==> ticks[i].read.ok
    requires !ticks[k].read.ok
    ensures var r := RunLoop(w, ticks, lim);
      && CountStatus(r.status, Completed) == CountStatus(w.status, Completed) + 1
      && r.status[|r.status| - 1] == StatusMessage(Completed, CompletedDetail)
      && r.data == w.data
    decreases k
  {
    var t := ticks[0];
    var (w', exit) := Iterate(w, t, lim);
    if k == 0 {
      assert RunLoop(w, ticks, lim) == w';
      CountStatusAppend(w.status, StatusMessage(Completed, CompletedDetail), Completed);
    } else {
      PreviewFrameStep(w, t, lim);
      var rest := ticks[1..];
      assert RunLoop(w, ticks, lim) == RunLoop(w', rest, lim);
      assert forall i :: 0 <= i <= k - 1 ==> rest[i] == ticks[i + 1];
      ExhaustionCompletesOnce(w', rest, lim, k - 1);
    }
  }

  /** One pass of the `while` body, entered with `running` set; `exit` is its `break`. The
      worker's `continue`s are the early returns. */
  method RunIteration(
    data: Channel<Packet>, frames: Channel<Frame>, status: Channel<StatusMessage>,
    t: Tick, errorPauses0: nat, naps0: nat)
    returns (errorPauses: nat, naps: nat, exit: bool)
    requires status.maxsize == 0
    modifies data, frames, status
    ensures (Worker(data.items, frames.items, status.items, errorPauses, naps), exit)
         == Iterate(Worker(old(data.items), old(frames.items), old(status.items), errorPauses0, naps0),
                    t, Limits(data.maxsize, frames.maxsize))
  {
    errorPauses, naps, exit := errorPauses0, naps0, false;
    var annotated: Option<Frame>;
    if t.analysisActive {
      match t.process
      case ProcessRaised(e) =>
        var _ := status.Put(StatusMessage(Error, e));
        errorPauses, naps := errorPauses + 1, naps + 1;
        return;
      case Processed(packet, f) =>
        if Truthy(packet) {
          var full := data.Put(packet.value);
          if full {
            return;
          }
        }
        annotated := f;
    } else {
      match t.read
      case ReadRaised(e) =>
        var _ := status.Put(StatusMessage(Error, e));
        errorPauses, naps := errorPauses + 1, naps + 1;
        return;
      case FrameRead(ok, f) =>
        if !ok {
          var _ := status.Put(StatusMessage(Completed, CompletedDetail));
          exit := true;
          return;
        }
        annotated := f;
    }
    if annotated.Some? {
      var full := PutLatest(frames, annotated.value);
      if full {
        return;
      }
    }
    naps := naps + 1;
  }

  /** `_run_capture_loop`. The worker only reads the two events (their values are in `ticks`)
      and may change nothing but the three queues. `ticks` ends with the iteration that finds
      `running` cleared, which the control context eventually does. */
  method RunCaptureLoop(
    data: Channel<Packet>, frames: Channel<Frame>, status: Channel<StatusMessage>,
    init: InitOutcome, ticks: seq<Tick>)
    returns (releases: nat, errorPauses: nat, naps: nat)
    requires status.maxsize == 0
    requires |ticks| > 0 && !ticks[|ticks| - 1].running
    modifies data, frames, status
    ensures var r := Run(init, Worker(old(data.items), old(frames.items), old(status.items), 0, 0),
                         ticks, Limits(data.maxsize, frames.maxsize));
      && data.items == r.w.data && frames.items == r.w.frames && status.items == r.w.status
      && errorPauses == r.w.errorPauses && naps == r.w.naps && releases == r.releases
  {
    ghost var lim := Limits(data.maxsize, frames.maxsize);
    ghost var start := Worker(data.items, frames.items, status.items, 0, 0);
    errorPauses, naps := 0, 0;
    if init.InitFailed? {
      var _ := status.Put(StatusMessage(Error, init.error));
      return 0, 0, 0;
    }
    var i := 0;
    while ticks[i].running
      invariant 0 <= i < |ticks|
      invariant RunLoop(start, ticks, lim)
             == RunLoop(Worker(data.items, frames.items, status.items, errorPauses, naps), ticks[i..], lim)
      decreases |ticks| - i
    {
      ghost var rest := ticks[i..];
      var exit;
      errorPauses, naps, exit := RunIteration(data, frames, status, ticks[i], errorPauses, naps);
      i := i + 1;
      assert rest[1..] == ticks[i..];
      if exit {
        break;
      }
    }
    releases := 1;
  }

  /** A set inside a one-element set holds at most one element. */
  lemma SubsetOfSingleton<T>(s: set<T>, x: T)
    requires s <= {x}
    ensures |s| <= 1
  {
    if s != {} {
      assert s == {x};
    }
  }

  /** A worker process handle; `id` tells successive spawns apart. */
  datatype Proc = Proc(id: nat)

  class CaptureService {
    const dataQueue: Channel<Packet>
    const frameQueue: Channel<Frame>
    const statusQueue: Channel<StatusMessage>
    const config: map<string, Value>
    /** Shared with the mode handler, which alone sets and clears it. */
    const analysisActive: Event
    /** Created with the service and reused by every start. */
    const running: Event
    /** `self._process`. */
    var process: Option<Proc>
    /** Number of worker processes spawned, joined and terminated so far. */
    var spawned: nat
    var joins: nat
    var terminations: nat
    /** The spawned processes that may still be alive: none that `is_alive()` has reported
        dead, that a join found finished, or that was terminated. */
    ghost var mayBeAlive: set<Proc>

    /** The running signal is set exactly when the service holds a worker process, and no
        worker but the held one may be alive, so there is at most one. */
    ghost predicate Valid()
      reads this, running
    {
      && running != analysisActive
      && (running.flag <==> process.Some?)
      && mayBeAlive <= (if process.Some? then {process.value} else {})
    }

    constructor (dataQueue: Channel<Packet>, frameQueue: Channel<Frame>, statusQueue: Channel<StatusMessage>,
                 config: map<string, Value>, analysisActive: Event)
      ensures Valid() && fresh(running)
      ensures this.dataQueue == dataQueue && this.frameQueue == frameQueue && this.statusQueue == statusQueue
      ensures this.config == config && this.analysisActive == analysisActive
      ensures process == None && spawned == 0 && joins == 0 && terminations == 0 && mayBeAlive == {}
    {
      this.dataQueue := dataQueue;
      this.frameQueue := frameQueue;
      this.statusQueue := statusQueue;
      this.config := config;
      this.analysisActive := analysisActive;
      running := new Event();
      process := None;
      spawned, joins, terminations := 0, 0, 0;
      mayBeAlive := {};
    }

    /** `start()`. `alive` is what `is_alive()` reports for the current process (asked only
        when there is one). A live process makes this a no-op; otherwise `running` is set and
        then a new worker is spawned, so the service never holds two live workers. */
    method Start(alive: bool)
      requires Valid()
      modifies this, running
      ensures Valid() && |mayBeAlive| <= 1
      ensures old(process).Some? && alive ==>
        process == old(process) && running.flag == old(running.flag) && spawned == old(spawned)
        && mayBeAlive == old(mayBeAlive)
      ensures !(old(process).Some? && alive) ==>
        running.flag && process == Some(Proc(old(spawned))) && spawned == old(spawned) + 1
        && mayBeAlive == {Proc(old(spawned))}
      ensures joins == old(joins) && terminations == old(terminations)
    {
      if process.Some? && alive {
        SubsetOfSingleton(mayBeAlive, process.value);
        return;
      }
      running.Set();
      process := Some(Proc(spawned));
      mayBeAlive := {Proc(spawned)};
      spawned := spawned + 1;
    }

    /** `stop()`. `running` is cleared in every case; a held process is joined and, if
        `is_alive()` still reports it alive after the 2 s join (`aliveAfterJoin`), terminated.
        The service is left without a process. */
    method Stop(aliveAfterJoin: bool)
      requires Valid()
      modifies this, running
      ensures Valid()
      ensures !running.flag && process == None && spawned == old(spawned) && mayBeAlive == {}
      ensures joins == old(joins) + (if old(process).Some? then 1 else 0)
      ensures terminations == old(terminations) + (if old(process).Some? && aliveAfterJoin then 1 else 0)
    {
      running.Clear();
      if process.Some? {
        joins := joins + 1;
        if aliveAfterJoin {
          terminations := terminations + 1;
        }
      }
      process := None;
      mayBeAlive := {};
    }
  }
}
