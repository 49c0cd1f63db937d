/**
 * The frame source: a capture loop that grabs frames into a single slot,
 * a `read` that hands the latest frame to the processing side, and `stop`.
 * The capture thread is not modelled; one pass of its loop is an atomic step.
 */
module FrameSource {
  /** A decoded image; its contents do not matter to the handshake. */
  type Frame = seq<seq<int>>

  /** What one `stream.read()` of the capture device returned. */
  datatype Capture = Capture(grabbed: bool, frame: Frame)

  /** The fields of the stream object. */
  datatype StreamState = StreamState(
    waitForRead: bool,
    grabbed: bool,
    frame: Frame,
    timestamp: int,
    frameNumber: int,
    frameRead: bool,
    stopped: bool)

  /** What `read` returns. */
  datatype FrameInfo = FrameInfo(stopped: bool, frame: Frame, number: int, timestamp: int)

  /** How one pass of the capture loop ended: the thread returned, it waited, or it grabbed. */
  datatype StepResult = Exited | Waited | Grabbed

  /** The state after construction: `isFile` says whether the source is a video file. */
  function Initial(isFile: bool, first: Capture, now: int): (s: StreamState)
    ensures s.frameNumber == 1 && !s.frameRead && !s.stopped
    ensures s.waitForRead <==> isFile
    ensures s.grabbed == first.grabbed && s.frame == first.frame && s.timestamp == now
  {
    StreamState(isFile, first.grabbed, first.frame, now, 1, false, false)
  }

  /** One pass of the capture loop, given what the device would return and the clock. */
  function UpdateStep(s: StreamState, cap: Capture, now: int): (StreamState, StepResult) {
    if s.stopped then (s, Exited)
    else if s.waitForRead && !s.frameRead then (s, Waited)
    else
      (s.(grabbed := cap.grabbed, frame := cap.frame, timestamp := now,
          frameNumber := s.frameNumber + 1, frameRead := false,
          stopped := !cap.grabbed),
       Grabbed)
  }

  function ReadStep(s: StreamState): (StreamState, FrameInfo) {
    (s.(frameRead := true), FrameInfo(s.stopped, s.frame, s.frameNumber, s.timestamp))
  }

  function StopStep(s: StreamState): StreamState {
    s.(stopped := true)
  }

  /** A stopped stream is never changed by the capture loop, which just exits. */
  lemma StoppedIsTerminal(s: StreamState, cap: Capture, now: int)
    requires s.stopped
    ensures UpdateStep(s, cap, now) == (s, Exited)
  {
  }

  /** Reading a file: until the current frame has been read, the loop only waits. */
  lemma FileModeWaitsForRead(s: StreamState, cap: Capture, now: int)
    requires !s.stopped && s.waitForRead && !s.frameRead
    ensures UpdateStep(s, cap, now) == (s, Waited)
  {
  }

  /** From a camera the loop grabs on every pass while running, read or not. */
  lemma CameraModeAlwaysGrabs(s: StreamState, cap: Capture, now: int)
    requires !s.stopped && !s.waitForRead
    ensures UpdateStep(s, cap, now).1 == Grabbed
  {
  }

  /** A grab advances the frame number by one, marks the frame unread, and stops on a failed read. */
  lemma GrabSpec(s: StreamState, cap: Capture, now: int)
    requires UpdateStep(s, cap, now).1 == Grabbed
    ensures var t := UpdateStep(s, cap, now).0;
            && t.frameNumber == s.frameNumber + 1 && !t.frameRead
            && t.frame == cap.frame && t.timestamp == now
            && (t.stopped <==> !cap.grabbed)
            && t.waitForRead == s.waitForRead
  {
  }

  /** `read` reports the current frame and only marks it read. */
  lemma ReadSpec(s: StreamState)
    ensures var (t, info) := ReadStep(s);
            && info.number == s.frameNumber && info.stopped == s.stopped && info.frame == s.frame
            && info.timestamp == s.timestamp
            && t.frameRead && t.frameNumber == s.frameNumber && t.stopped == s.stopped
            && t.frame == s.frame && t.timestamp == s.timestamp
            && t.grabbed == s.grabbed && t.waitForRead == s.waitForRead
  {
  }

  /** An operation on the stream: a pass of the capture loop, a `read`, or a `stop`. */
  datatype StreamOp = Update(cap: Capture, now: int) | Read | Stop

  function Apply(s: StreamState, op: StreamOp): StreamState {
    match op
    case Update(cap, now) => UpdateStep(s, cap, now).0
    case Read => ReadStep(s).0
    case Stop => StopStep(s)
  }

  function Run(s: StreamState, ops: seq<StreamOp>): StreamState
    decreases |ops|
  {
    if ops == [] then s else Run(Apply(s, ops[0]), ops[1..])
  }

  /** The number of passes in a run that grab a frame. */
  function Grabs(s: StreamState, ops: seq<StreamOp>): nat
    decreases |ops|
  {
    if ops == [] then 0
    else
      (if ops[0].Update? && UpdateStep(s, ops[0].cap, ops[0].now).1 == Grabbed then 1 else 0)
      + Grabs(Apply(s, ops[0]), ops[1..])
  }

  function Reads(ops: seq<StreamOp>): nat
    decreases |ops|
  {
    if ops == [] then 0 else (if ops[0].Read? then 1 else 0) + Reads(ops[1..])
  }

  /** The frame number counts the grabs exactly. */
  lemma {:induction false} FrameNumberCountsGrabs(s: StreamState, ops: seq<StreamOp>)
    ensures Run(s, ops).frameNumber == s.frameNumber + Grabs(s, ops)
    decreases |ops|
  {
    if ops != [] {
      FrameNumberCountsGrabs(Apply(s, ops[0]), ops[1..]);
    }
  }

  /** Two reads separated by `ops` report the same frame number exactly when no pass in between grabbed. */
  lemma TwoReadsAgreeIffNoGrab(s: StreamState, ops: seq<StreamOp>)
    ensures var (t, first) := ReadStep(s);
            var (_, second) := ReadStep(Run(t, ops));
            first.number == second.number <==> Grabs(t, ops) == 0
  {
    FrameNumberCountsGrabs(ReadStep(s).0, ops);
  }

  /** Once stopped, a stream stays stopped and never grabs again, whatever happens. */
  lemma {:induction false} StoppedStaysStopped(s: StreamState, ops: seq<StreamOp>)
    requires s.stopped
    ensures Run(s, ops).stopped && Grabs(s, ops) == 0
    ensures Run(s, ops).frameNumber == s.frameNumber && Run(s, ops).frame == s.frame
    decreases |ops|
  {
    if ops != [] {
      StoppedStaysStopped(Apply(s, ops[0]), ops[1..]);
    }
  }

  /**
   * Reading a file, the decoder never runs ahead of the consumer: every grab
   * after the first needs a `read` in between (the frame numbers grabbed are
   * at most the reads, plus one if the current frame was already read).
   */
  lemma {:induction false} FileModeGrabsBoundedByReads(s: StreamState, ops: seq<StreamOp>)
    requires s.waitForRead
    ensures Grabs(s, ops) + (if Run(s, ops).frameRead then 1 else 0) <= Reads(ops) + (if s.frameRead then 1 else 0)
    decreases |ops|
  {
    if ops != [] {
      FileModeGrabsBoundedByReads(Apply(s, ops[0]), ops[1..]);
    }
  }

  class WebcamVideoStream {
    const waitForRead: bool
    var grabbed: bool
    var frame: Frame
    var timestamp: int
    var frameNumber: int
    var frameRead: bool
    var stopped: bool

    function State(): StreamState
      reads this
    {
      StreamState(waitForRead, grabbed, frame, timestamp, frameNumber, frameRead, stopped)
    }

    /** Opening the source and reading its first frame, whose result is `first`. */
    constructor (isFile: bool, first: Capture, now: int)
      ensures State() == Initial(isFile, first, now)
    {
      waitForRead := isFile;
      grabbed, frame := first.grabbed, first.frame;
      timestamp := now;
      frameNumber := 1;
      frameRead := false;
      stopped := false;
    }

    /** One pass of the `update` loop; `cap` is what the device returns if it is asked for a frame. */
    method UpdateOnce(cap: Capture, now: int) returns (r: StepResult)
      modifies this
      ensures (State(), r) == UpdateStep(old(State()), cap, now)
    {
      if stopped {
        return Exited;
      }
      if waitForRead && !frameRead {
        return Waited;
      }
      grabbed, frame := cap.grabbed, cap.frame;
      timestamp := now;
      frameNumber := frameNumber + 1;
      frameRead := false;
      if !grabbed {
        stopped := true;
      }
      return Grabbed;
    }

    method Read() returns (info: FrameInfo)
      modifies this
      ensures (State(), info) == ReadStep(old(State()))
    {
      frameRead := true;
      info := FrameInfo(stopped, frame, frameNumber, timestamp);
    }

    method Stop()
      modifies this
      ensures State() == StopStep(old(State()))
    {
      stopped := true;
    }
  }
}
