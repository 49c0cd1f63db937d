/**
 * The per-frame controller of the tracking loop: it counts frames, skips the
 * frames the background model needs to warm up, and, while flipper A is
 * untrained, decides when to take a training snapshot and when to press A.
 * Time is integer microseconds (the precision of the program's timestamps).
 */
module TrackBall {
  /** Frames 1 .. WarmUpFrames only feed the background model. */
  const WarmUpFrames: int := 120
  /** A snapshot is taken within 100 ms of a press. */
  const SnapshotWindowMicros: int := 100000
  /** The command line's default cooldown, in milliseconds. */
  const DefaultCooldownMs: int := 300

  datatype Stage = TrainingA | TrainingB | Game

  /** The decision of one processed frame. `PressA` carries the time the press is recorded with. */
  datatype Action = NoAction | SnapshotA | PressA(time: int)

  /** The fields of the program's `State` that the loop reads or writes for its decisions. */
  datatype ControllerState = ControllerState(
    frameNumber: int,
    timePressA: int,
    timePressB: int,
    flipperATrained: bool,
    flipperBTrained: bool,
    contourSent: bool)

  /**
   * The inputs of one pass of the loop: whether a frame was grabbed, the
   * clock read to compute the time since the last press, the clock read when
   * a press is recorded, and whether the 'q' key was pressed.
   */
  datatype FrameInput = FrameInput(grabbed: bool, checkTime: int, pressTime: int, quit: bool)

  datatype Outcome = EndOfVideo | WarmUp | Processed(stage: Stage, action: Action)

  /** The press times are the two clock readings taken at start; nothing is trained or sent; no frame yet. */
  function InitialState(startA: int, startB: int): ControllerState {
    ControllerState(0, startA, startB, false, false, false)
  }

  function StageOf(s: ControllerState): Stage {
    if !s.flipperATrained then TrainingA
    else if !s.flipperBTrained then TrainingB
    else Game
  }

  /** One pass of the main loop up to its decision. */
  function Step(s: ControllerState, inp: FrameInput, cooldownMs: int): (ControllerState, Outcome) {
    var s := s.(frameNumber := s.frameNumber + 1);
    if !inp.grabbed then (s, EndOfVideo)
    else if s.frameNumber < WarmUpFrames + 1 then (s, WarmUp)
    else if !s.flipperATrained then
      var delta := inp.checkTime - s.timePressA;
      if delta < SnapshotWindowMicros && !s.contourSent then
        (s.(contourSent := true), Processed(TrainingA, SnapshotA))
      else if delta > cooldownMs * 1000 then
        (s.(timePressA := inp.pressTime, contourSent := false), Processed(TrainingA, PressA(inp.pressTime)))
      else
        (s, Processed(TrainingA, NoAction))
    else if !s.flipperBTrained then (s, Processed(TrainingB, NoAction))
    else (s, Processed(Game, NoAction))
  }

  /** The loop leaves after this pass: the video ended, or 'q' was pressed on a processed frame. */
  predicate Ends(o: Outcome, inp: FrameInput) {
    o.EndOfVideo? || (o.Processed? && inp.quit)
  }

  function PressesOf(o: Outcome): seq<int> {
    if o.Processed? && o.action.PressA? then [o.action.time] else []
  }

  /** The last state, the press times in order, and how many inputs the loop consumed. */
  datatype RunResult = RunResult(final: ControllerState, presses: seq<int>, consumed: nat)

  function Run(s: ControllerState, inputs: seq<FrameInput>, cooldownMs: int): RunResult
    decreases |inputs|
  {
    if inputs == [] then RunResult(s, [], 0)
    else
      var (t, o) := Step(s, inputs[0], cooldownMs);
      if Ends(o, inputs[0]) then RunResult(t, PressesOf(o), 1)
      else
        var r := Run(t, inputs[1..], cooldownMs);
        RunResult(r.final, PressesOf(o) + r.presses, 1 + r.consumed)
  }

  /** Every pass counts one frame, the end-of-video pass included. */
  lemma StepCountsFrame(s: ControllerState, inp: FrameInput, cooldownMs: int)
    ensures Step(s, inp, cooldownMs).0.frameNumber == s.frameNumber + 1
  {
  }

  /** During warm-up no decision is taken and only the frame counter moves. */
  lemma WarmUpMakesNoDecision(s: ControllerState, inp: FrameInput, cooldownMs: int)
    requires inp.grabbed && s.frameNumber + 1 < WarmUpFrames + 1
    ensures Step(s, inp, cooldownMs) == (s.(frameNumber := s.frameNumber + 1), WarmUp)
  {
  }

  /** A processed frame works in the stage the trained flags select; only training A acts. */
  lemma StageSelection(s: ControllerState, inp: FrameInput, cooldownMs: int)
    requires Step(s, inp, cooldownMs).1.Processed?
    ensures var o := Step(s, inp, cooldownMs).1;
            && o.stage == StageOf(s)
            && (o.stage != TrainingA ==> o.action == NoAction && Step(s, inp, cooldownMs).0 == s.(frameNumber := s.frameNumber + 1))
            && s.frameNumber + 1 >= WarmUpFrames + 1
  {
  }

  /** Within 100 ms of the last press, and no snapshot sent yet: send one and do not press. */
  lemma SnapshotDecision(s: ControllerState, inp: FrameInput, cooldownMs: int)
    requires inp.grabbed && s.frameNumber + 1 >= WarmUpFrames + 1 && !s.flipperATrained
    requires inp.checkTime - s.timePressA < SnapshotWindowMicros && !s.contourSent
    ensures Step(s, inp, cooldownMs)
            == (s.(frameNumber := s.frameNumber + 1, contourSent := true), Processed(TrainingA, SnapshotA))
  {
  }

  /** A press happens exactly when the snapshot rule does not apply and the cooldown has passed; it records the time and clears the flag. */
  lemma PressDecision(s: ControllerState, inp: FrameInput, cooldownMs: int)
    ensures var (t, o) := Step(s, inp, cooldownMs);
            var delta := inp.checkTime - s.timePressA;
            && (o.Processed? && o.action.PressA? <==>
                  && inp.grabbed && s.frameNumber + 1 >= WarmUpFrames + 1 && !s.flipperATrained
                  && !(delta < SnapshotWindowMicros && !s.contourSent)
                  && delta > cooldownMs * 1000)
            && (o.Processed? && o.action.PressA? ==>
                  o.action.time == inp.pressTime && t.timePressA == inp.pressTime && !t.contourSent)
  {
  }

  /** Between the snapshot window and the cooldown, or with a snapshot already sent, nothing changes but the frame count. */
  lemma IdleDecision(s: ControllerState, inp: FrameInput, cooldownMs: int)
    requires inp.grabbed && s.frameNumber + 1 >= WarmUpFrames + 1 && !s.flipperATrained
    requires var delta := inp.checkTime - s.timePressA;
             (SnapshotWindowMicros <= delta <= cooldownMs * 1000) || (delta < SnapshotWindowMicros && s.contourSent && delta <= cooldownMs * 1000)
    ensures Step(s, inp, cooldownMs) == (s.(frameNumber := s.frameNumber + 1), Processed(TrainingA, NoAction))
  {
  }

  /** The loop consumes inputs one frame each, stops at most once, and never sets a trained flag. */
  lemma {:induction false} RunCountsFramesAndNeverTrains(s: ControllerState, inputs: seq<FrameInput>, cooldownMs: int)
    ensures var r := Run(s, inputs, cooldownMs);
            && r.consumed <= |inputs| && (|inputs| > 0 ==> r.consumed >= 1)
            && r.final.frameNumber == s.frameNumber + r.consumed
            && r.final.flipperATrained == s.flipperATrained
            && r.final.flipperBTrained == s.flipperBTrained
            && StageOf(r.final) == StageOf(s)
    decreases |inputs|
  {
    if inputs != [] {
      RunCountsFramesAndNeverTrains(Step(s, inputs[0], cooldownMs).0, inputs[1..], cooldownMs);
    }
  }

  /** From the start the loop stays in training A for its whole run. */
  lemma StaysInTrainingA(startA: int, startB: int, inputs: seq<FrameInput>, cooldownMs: int)
    ensures StageOf(Run(InitialState(startA, startB), inputs, cooldownMs).final) == TrainingA
  {
    RunCountsFramesAndNeverTrains(InitialState(startA, startB), inputs, cooldownMs);
  }

  /**
   * The clock never runs backward: not from the last press to the first
   * reading, not within a pass, and not from one pass to the next.
   */
  ghost predicate ClockMonotone(t0: int, inputs: seq<FrameInput>) {
    && (|inputs| > 0 ==> t0 <= inputs[0].checkTime)
    && (forall k :: 0 <= k < |inputs| ==> inputs[k].checkTime <= inputs[k].pressTime)
    && (forall k :: 0 < k < |inputs| ==> inputs[k - 1].pressTime <= inputs[k].checkTime)
  }

  lemma ClockMonotoneTail(t0: int, inputs: seq<FrameInput>, t1: int)
    requires |inputs| > 0 && ClockMonotone(t0, inputs) && t1 <= inputs[0].pressTime
    ensures ClockMonotone(t1, inputs[1..])
  {
    var rest := inputs[1..];
    if |rest| > 0 {
      assert rest[0] == inputs[1];
    }
    forall k | 0 < k < |rest|
      ensures rest[k - 1].pressTime <= rest[k].checkTime
    {
      assert rest[k - 1] == inputs[k] && rest[k] == inputs[k + 1];
    }
  }

  /** One pass presses at most once, more than the cooldown after the last press, and records that press. */
  lemma StepPressSpacing(s: ControllerState, inp: FrameInput, cooldownMs: int)
    requires s.timePressA <= inp.checkTime <= inp.pressTime
    ensures var (t, o) := Step(s, inp, cooldownMs);
            && |PressesOf(o)| <= 1
            && t.timePressA <= inp.pressTime
            && (PressesOf(o) == [] ==> t.timePressA == s.timePressA)
            && (PressesOf(o) != [] ==> PressesOf(o)[0] == t.timePressA && t.timePressA - s.timePressA > cooldownMs * 1000)
  {
  }

  /**
   * The cooldown holds: with a clock that never runs backward, the first
   * press is more than the cooldown after the last recorded one, and any two
   * successive presses are more than the cooldown apart.
   */
  lemma {:induction false} PressesRespectCooldown(s: ControllerState, inputs: seq<FrameInput>, cooldownMs: int)
    requires ClockMonotone(s.timePressA, inputs)
    ensures var r := Run(s, inputs, cooldownMs);
            && (|r.presses| > 0 ==> r.presses[0] - s.timePressA > cooldownMs * 1000)
            && (forall k :: 0 < k < |r.presses| ==> r.presses[k] - r.presses[k - 1] > cooldownMs * 1000)
            && r.final.timePressA == (if |r.presses| > 0 then r.presses[|r.presses| - 1] else s.timePressA)
    decreases |inputs|
  {
    if inputs != [] {
      var step := Step(s, inputs[0], cooldownMs);
      var t, first := step.0, PressesOf(step.1);
      StepPressSpacing(s, inputs[0], cooldownMs);
      if !Ends(step.1, inputs[0]) {
        var rest := inputs[1..];
        ClockMonotoneTail(s.timePressA, inputs, t.timePressA);
        PressesRespectCooldown(t, rest, cooldownMs);
        var r := Run(t, rest, cooldownMs);
        assert Run(s, inputs, cooldownMs) == RunResult(r.final, first + r.presses, 1 + r.consumed);
        var all := first + r.presses;
        forall k | 0 < k < |all|
          ensures all[k] - all[k - 1] > cooldownMs * 1000
        {
          if first == [] {
            assert all[k] == r.presses[k] && all[k - 1] == r.presses[k - 1];
          } else if k == 1 {
            assert all[0] == t.timePressA && all[1] == r.presses[0];
          } else {
            assert all[k] == r.presses[k - 1] && all[k - 1] == r.presses[k - 2];
          }
        }
      } else {
        assert Run(s, inputs, cooldownMs) == RunResult(t, first, 1);
      }
    }
  }

  class State {
    var frameNumber: int
    var timePressA: int
    var timePressB: int
    var flipperATrained: bool
    var flipperBTrained: bool
    var contourSent: bool

    function Snapshot(): ControllerState
      reads this
    {
      ControllerState(frameNumber, timePressA, timePressB, flipperATrained, flipperBTrained, contourSent)
    }

    constructor (startA: int, startB: int)
      ensures Snapshot() == InitialState(startA, startB)
    {
      frameNumber := 0;
      timePressA, timePressB := startA, startB;
      flipperATrained, flipperBTrained := false, false;
      contourSent := false;
    }

    /** One pass of the main loop, as far as the controller's fields and decision go. */
    method Iterate(inp: FrameInput, cooldownMs: int := DefaultCooldownMs) returns (o: Outcome)
      modifies this
      ensures (Snapshot(), o) == Step(old(Snapshot()), inp, cooldownMs)
    {
      frameNumber := frameNumber + 1;
      if !inp.grabbed {
        return EndOfVideo;
      }
      if frameNumber < WarmUpFrames + 1 {
        return WarmUp;
      }
      if !flipperATrained {
        var delta := inp.checkTime - timePressA;
        if delta < SnapshotWindowMicros && !contourSent {
          contourSent := true;
          o := Processed(TrainingA, SnapshotA);
        } else if delta > cooldownMs * 1000 {
          timePressA := inp.pressTime;
          contourSent := false;
          o := Processed(TrainingA, PressA(inp.pressTime));
        } else {
          o := Processed(TrainingA, NoAction);
        }
      } else if !flipperBTrained {
        o := Processed(TrainingB, NoAction);
      } else {
        o := Processed(Game, NoAction);
      }
    }
  }

  /** The main loop over a finite run of inputs; it returns the times of the presses of A. */
  method MainLoop(state: State, inputs: seq<FrameInput>, cooldownMs: int := DefaultCooldownMs) returns (presses: seq<int>, consumed: nat)
    modifies state
    ensures var r := Run(old(state.Snapshot()), inputs, cooldownMs);
            state.Snapshot() == r.final && presses == r.presses && consumed == r.consumed
  {
    presses, consumed := [], 0;
    while consumed < |inputs|
      invariant consumed <= |inputs|
      invariant var r := Run(state.Snapshot(), inputs[consumed..], cooldownMs);
                Run(old(state.Snapshot()), inputs, cooldownMs) == RunResult(r.final, presses + r.presses, consumed + r.consumed)
    {
      var inp := inputs[consumed];
      ghost var before := state.Snapshot();
      assert inputs[consumed..][0] == inp && inputs[consumed..][1..] == inputs[consumed + 1..];
      var o := state.Iterate(inp, cooldownMs);
      if o.Processed? && o.action.PressA? {
        presses := presses + [o.action.time];
      }
      consumed := consumed + 1;
      if Ends(o, inp) {
        return;
      }
    }
  }
}
