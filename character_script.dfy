/**
 * The per-frame behaviour of the character script: the animation edge
 * detector in `Update` and the velocity push of `UpdateTransform2`.
 *
 * The engine calls the script makes (start and stop sprite animation, set
 * the displayed frame, set the character's velocity) are recorded as
 * `EngineCall` values. `FrameCalls` says which calls one running frame
 * makes; the class `CharacterScript` holds the script's fields and records
 * the calls of its `Update` in a ghost trace.
 */
module Character {
  import opened InputStates
  import opened FrameTable
  import opened Velocities

  /** The playback mode the script asks for; it only ever loops forever. */
  datatype RepeatMode = LoopInfinite

  /** A call into the engine. */
  datatype EngineCall =
    | PlayAnimation(frames: seq<int>, mode: RepeatMode, rate: int)
    | StopAnimation
    | SetCurrentFrame(frame: int)
    | SetVelocity(velocity: Velocity)

  /** Playback rate passed to every animation start. */
  const PlaybackRate: int := 15

  /** The movement speed that `Initialize` sets. */
  const Speed: int := 60

  /** The frames of direction `d`, found by the first-match flag search. */
  function Frames(d: InputState): (frames: seq<int>)
    requires IsDirection(d)
    ensures |frames| == 4
    ensures KeyLookup(AnimationFrames, d) == Found(frames)
  {
    FramesForDirection(d);
    FramesForIsOwnEntry(d);
    FramesFor(d).frames
  }

  /**
   * Animation calls of one running frame, from the previous state `prev` and
   * the sampled state `s`: stop and reset to the first frame of the previous
   * direction when input falls to `None`, start looped playback when the
   * direction changes to a new one, nothing otherwise.
   */
  function AnimationCalls(prev: InputState, s: InputState): (calls: seq<EngineCall>)
    requires IsInputState(prev) && IsInputState(s)
    ensures calls == [] <==> s == prev
    ensures s == None && prev != None ==>
      KeyLookup(AnimationFrames, prev).Found? && |KeyLookup(AnimationFrames, prev).frames| == 4 &&
      calls == [StopAnimation, SetCurrentFrame(KeyLookup(AnimationFrames, prev).frames[0])]
    ensures s != None && s != prev ==>
      KeyLookup(AnimationFrames, s).Found? &&
      calls == [PlayAnimation(KeyLookup(AnimationFrames, s).frames, LoopInfinite, PlaybackRate)]
  {
    if s == None then
      if prev != None then [StopAnimation, SetCurrentFrame(Frames(prev)[0])] else []
    else if prev != s then [PlayAnimation(Frames(s), LoopInfinite, PlaybackRate)]
    else []
  }

  /** All calls of one running frame: the animation calls, then the velocity push. */
  function FrameCalls(prev: InputState, s: InputState, speed: int): seq<EngineCall>
    requires IsInputState(prev) && IsInputState(s)
  {
    AnimationCalls(prev, s) + [SetVelocity(VelocityFor(s, speed))]
  }

  /** The kinds of engine call, for counting them. */
  datatype CallKind = PlayKind | StopKind | FrameKind | VelocityKind

  function KindOf(c: EngineCall): CallKind
  {
    match c
    case PlayAnimation(_, _, _) => PlayKind
    case StopAnimation => StopKind
    case SetCurrentFrame(_) => FrameKind
    case SetVelocity(_) => VelocityKind
  }

  /** Number of calls of kind `k` in `calls`. */
  function Count(calls: seq<EngineCall>, k: CallKind): nat
  {
    if calls == [] then 0
    else (if KindOf(calls[0]) == k then 1 else 0) + Count(calls[1..], k)
  }

  lemma {:induction false} CountAppend(a: seq<EngineCall>, b: seq<EngineCall>, k: CallKind)
    ensures Count(a + b, k) == Count(a, k) + Count(b, k)
  {
    if a == [] {
      assert a + b == b;
    } else {
      assert (a + b)[1..] == a[1..] + b;
      CountAppend(a[1..], b, k);
    }
  }

  /**
   * Play is issued exactly when the sampled state is a direction other than
   * the previous state, once, as the frame's first call, with the direction's
   * own frames, looping forever at rate 15.
   */
  lemma PlayExactlyOnNewDirection(prev: InputState, s: InputState, speed: int)
    requires IsInputState(prev) && IsInputState(s)
    ensures Count(FrameCalls(prev, s, speed), PlayKind) == (if s != None && s != prev then 1 else 0)
    ensures s != None && s != prev ==>
      KeyLookup(AnimationFrames, s).Found? &&
      FrameCalls(prev, s, speed)[0] == PlayAnimation(KeyLookup(AnimationFrames, s).frames, LoopInfinite, PlaybackRate)
  {
    CountAppend(AnimationCalls(prev, s), [SetVelocity(VelocityFor(s, speed))], PlayKind);
    if s != None && s != prev {
      var _ := Frames(s);
    }
  }

  /**
   * Stop is issued exactly when the sampled state is `None` and the previous
   * one was not; it is followed by resetting the displayed frame to the first
   * frame of the previous direction's own sequence.
   */
  lemma StopExactlyOnRelease(prev: InputState, s: InputState, speed: int)
    requires IsInputState(prev) && IsInputState(s)
    ensures Count(FrameCalls(prev, s, speed), StopKind) == (if s == None && prev != None then 1 else 0)
    ensures Count(FrameCalls(prev, s, speed), FrameKind) == Count(FrameCalls(prev, s, speed), StopKind)
    ensures s == None && prev != None ==>
      KeyLookup(AnimationFrames, prev).Found? &&
      FrameCalls(prev, s, speed)[..2] == [StopAnimation, SetCurrentFrame(KeyLookup(AnimationFrames, prev).frames[0])]
  {
    CountAppend(AnimationCalls(prev, s), [SetVelocity(VelocityFor(s, speed))], StopKind);
    CountAppend(AnimationCalls(prev, s), [SetVelocity(VelocityFor(s, speed))], FrameKind);
    if s == None && prev != None {
      var _ := Frames(prev);
    }
  }

  /**
   * Every running frame ends by pushing the velocity of the sampled state,
   * and pushes no other velocity.
   */
  lemma VelocityEveryFrame(prev: InputState, s: InputState, speed: int)
    requires IsInputState(prev) && IsInputState(s)
    ensures var calls := FrameCalls(prev, s, speed);
      Count(calls, VelocityKind) == 1 && calls[|calls| - 1] == SetVelocity(VelocityFor(s, speed))
  {
    CountAppend(AnimationCalls(prev, s), [SetVelocity(VelocityFor(s, speed))], VelocityKind);
  }

  /** The states sampled over a run of frames. */
  function Sampled(frames: seq<KeySample>): (states: seq<InputState>)
    ensures |states| == |frames|
    ensures forall i :: 0 <= i < |frames| ==> states[i] == GetInputState(frames[i])
  {
    if frames == [] then [] else [GetInputState(frames[0])] + Sampled(frames[1..])
  }

  /** The calls of a run of running frames, starting from previous state `prev`. */
  function Replay(prev: InputState, frames: seq<KeySample>, speed: int): seq<EngineCall>
    requires IsInputState(prev)
    decreases |frames|
  {
    if frames == [] then []
    else
      var s := GetInputState(frames[0]);
      FrameCalls(prev, s, speed) + Replay(s, frames[1..], speed)
  }

  /** Number of frames whose state is a direction different from the frame before. */
  function Starts(prev: InputState, states: seq<InputState>): nat
    decreases |states|
  {
    if states == [] then 0
    else (if states[0] != None && states[0] != prev then 1 else 0) + Starts(states[0], states[1..])
  }

  /** Number of frames whose state is `None` while the frame before had a direction. */
  function Releases(prev: InputState, states: seq<InputState>): nat
    decreases |states|
  {
    if states == [] then 0
    else (if states[0] == None && prev != None then 1 else 0) + Releases(states[0], states[1..])
  }

  /**
   * Over a run of frames, playback starts once per change to a new
   * direction, stops once per release to `None`, and the velocity is pushed
   * once per frame.
   */
  lemma {:induction false} ReplayCounts(prev: InputState, frames: seq<KeySample>, speed: int)
    requires IsInputState(prev)
    ensures Count(Replay(prev, frames, speed), PlayKind) == Starts(prev, Sampled(frames))
    ensures Count(Replay(prev, frames, speed), StopKind) == Releases(prev, Sampled(frames))
    ensures Count(Replay(prev, frames, speed), VelocityKind) == |frames|
    decreases |frames|
  {
    if frames != [] {
      var s := GetInputState(frames[0]);
      var rest := frames[1..];
      assert Sampled(frames) == [s] + Sampled(rest);
      assert Sampled(frames)[1..] == Sampled(rest);
      ReplayCounts(s, rest, speed);
      PlayExactlyOnNewDirection(prev, s, speed);
      StopExactlyOnRelease(prev, s, speed);
      VelocityEveryFrame(prev, s, speed);
      CountAppend(FrameCalls(prev, s, speed), Replay(s, rest, speed), PlayKind);
      CountAppend(FrameCalls(prev, s, speed), Replay(s, rest, speed), StopKind);
      CountAppend(FrameCalls(prev, s, speed), Replay(s, rest, speed), VelocityKind);
    }
  }

  /** Holding the same direction, or staying idle, issues no further start or stop. */
  lemma {:induction false} HoldingIssuesNoAnimation(prev: InputState, frames: seq<KeySample>, speed: int)
    requires IsInputState(prev)
    requires forall i :: 0 <= i < |frames| ==> GetInputState(frames[i]) == prev
    ensures Count(Replay(prev, frames, speed), PlayKind) == 0
    ensures Count(Replay(prev, frames, speed), StopKind) == 0
  {
    if frames != [] {
      var rest := frames[1..];
      assert forall i :: 0 <= i < |rest| ==> rest[i] == frames[i + 1];
      HoldingIssuesNoAnimation(prev, rest, speed);
      PlayExactlyOnNewDirection(prev, prev, speed);
      StopExactlyOnRelease(prev, prev, speed);
      CountAppend(FrameCalls(prev, prev, speed), Replay(prev, rest, speed), PlayKind);
      CountAppend(FrameCalls(prev, prev, speed), Replay(prev, rest, speed), StopKind);
    }
  }

  const Idle := KeySample(false, false, false, false)
  const LeftKey := KeySample(true, false, false, false)
  const UpKey := KeySample(false, false, true, false)

  /**
   * Inputs None, Left, Left, None from idle: nothing, then play Left's frames,
   * then nothing, then stop with the displayed frame reset to 4; the velocity
   * is pushed on every frame.
   */
  lemma LeftTapExample()
    ensures Replay(None, [Idle, LeftKey, LeftKey, Idle], Speed) == [
      SetVelocity(Zero),
      PlayAnimation([4, 5, 6, 7], LoopInfinite, 15), SetVelocity(Polar(2, 60)),
      SetVelocity(Polar(2, 60)),
      StopAnimation, SetCurrentFrame(4), SetVelocity(Zero)]
  {
    FramesForValues();
    var frames := [Idle, LeftKey, LeftKey, Idle];
    assert GetInputState(Idle) == None && GetInputState(LeftKey) == Left;
    assert FrameCalls(None, None, Speed) == [SetVelocity(Zero)];
    assert FrameCalls(None, Left, Speed) == [PlayAnimation([4, 5, 6, 7], LoopInfinite, 15), SetVelocity(Polar(2, 60))];
    assert FrameCalls(Left, Left, Speed) == [SetVelocity(Polar(2, 60))];
    assert FrameCalls(Left, None, Speed) == [StopAnimation, SetCurrentFrame(4), SetVelocity(Zero)];
    assert Replay(Left, frames[3..], Speed) == [StopAnimation, SetCurrentFrame(4), SetVelocity(Zero)]
      by { assert frames[3..][1..] == []; }
    assert Replay(Left, frames[2..], Speed) == [SetVelocity(Polar(2, 60))] + Replay(Left, frames[3..], Speed)
      by { assert frames[2..][1..] == frames[3..]; }
    assert Replay(None, frames[1..], Speed) ==
      [PlayAnimation([4, 5, 6, 7], LoopInfinite, 15), SetVelocity(Polar(2, 60))] + Replay(Left, frames[2..], Speed)
      by { assert frames[1..][1..] == frames[2..]; }
  }

  /** Up held for three frames: one start, then velocity (0, 60) on each frame. */
  lemma UpHeldExample()
    ensures Replay(None, [UpKey, UpKey, UpKey], Speed) == [
      PlayAnimation([8, 9, 10, 11], LoopInfinite, 15), SetVelocity(Polar(1, 60)),
      SetVelocity(Polar(1, 60)),
      SetVelocity(Polar(1, 60))]
    ensures IdealComponents(Polar(1, Speed)) == (0, 60)
  {
    FramesForValues();
    var frames := [UpKey, UpKey, UpKey];
    assert Replay(Up, frames[2..], Speed) == [SetVelocity(Polar(1, 60))]
      by { assert frames[2..][1..] == []; }
    assert Replay(Up, frames[1..], Speed) == [SetVelocity(Polar(1, 60))] + Replay(Up, frames[2..], Speed)
      by { assert frames[1..][1..] == frames[2..]; }
  }

  /** The script's fields; `Calls` records the engine calls it has made. */
  class CharacterScript {
    var oldInputState: InputState
    var speed: int
    var velocity: Velocity
    ghost var Calls: seq<EngineCall>

    /**
     * The remembered state is always one of the five named values, and the
     * speed is its initial 0 or the 60 that `Initialize` sets.
     */
    ghost predicate Valid()
      reads this
    {
      IsInputState(oldInputState) && (speed == 0 || speed == Speed)
    }

    /** The field initialisers: no previous input, speed and velocity zero. */
    constructor ()
      ensures Valid()
      ensures oldInputState == None && speed == 0 && velocity == Zero && Calls == []
    {
      oldInputState := None;
      speed := 0;
      velocity := Zero;
      Calls := [];
    }

    /** Called from `Start`: zero velocity and the movement speed 60. */
    method Initialize()
      requires Valid()
      modifies this`speed, this`velocity
      ensures Valid()
      ensures velocity == Zero && speed == Speed
    {
      velocity := Zero;
      speed := Speed;
    }

    /**
     * One frame. When the game is not running nothing happens; otherwise the
     * frame's animation calls and velocity push are made and the sampled
     * state is remembered.
     */
    method Update(running: bool, keys: KeySample)
      requires Valid()
      modifies this`oldInputState, this`velocity, this`Calls
      ensures Valid()
      ensures !running ==>
        oldInputState == old(oldInputState) && velocity == old(velocity) && Calls == old(Calls)
      ensures running ==>
        && oldInputState == GetInputState(keys)
        && velocity == VelocityFor(GetInputState(keys), speed)
        && Calls == old(Calls) + FrameCalls(old(oldInputState), GetInputState(keys), speed)
    {
      if running {
        var inputState := GetInputState(keys);
        if inputState == None {
          if oldInputState != None {
            Calls := Calls + [StopAnimation];
            FramesForDirection(oldInputState);
            Calls := Calls + [SetCurrentFrame(FramesFor(oldInputState).frames[0])];
            oldInputState := None;
          }
        } else {
          if oldInputState != inputState {
            FramesForDirection(inputState);
            Calls := Calls + [PlayAnimation(FramesFor(inputState).frames, LoopInfinite, PlaybackRate)];
          }
        }
        oldInputState := inputState;
        UpdateTransform2(keys);
      }
    }

    /** Compute the velocity of the sampled state and push it to the engine. */
    method UpdateTransform2(keys: KeySample)
      modifies this`velocity, this`Calls
      ensures velocity == VelocityFor(GetInputState(keys), speed)
      ensures Calls == old(Calls) + [SetVelocity(velocity)]
    {
      var inputState := GetInputState(keys);
      var angle := AngleOf(inputState);
      if inputState == None {
        velocity := Zero;
      } else {
        velocity := Polar(angle, speed);
      }
      Calls := Calls + [SetVelocity(velocity)];
    }
  }

  /** The script's own contracts determine the calls of a short Left tap. */
  method LeftTapScenario()
  {
    var script := new CharacterScript();
    script.Initialize();
    script.Update(true, Idle);
    script.Update(true, LeftKey);
    script.Update(true, LeftKey);
    script.Update(false, Idle);
    script.Update(true, Idle);
    FramesForValues();
    assert script.Calls == [
      SetVelocity(Zero),
      PlayAnimation([4, 5, 6, 7], LoopInfinite, 15), SetVelocity(Polar(2, 60)),
      SetVelocity(Polar(2, 60)),
      StopAnimation, SetCurrentFrame(4), SetVelocity(Zero)];
  }
}
