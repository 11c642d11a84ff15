/**
 * The stand-alone push-up counter of main.py: two local variables, counter
 * and stage, updated in place by the frame loop from the left elbow angle,
 * with thresholds 90 (bent) and 140 (straight).
 *
 * Unlike the detector class, "down" can only be entered from "up", and a
 * straight elbow moves any stage other than "up" to "up", counting only
 * when it comes from "down".
 */
module StandaloneCounter {

  import opened Wrappers
  import opened AngleGeometry
  import opened MovementDetection

  const DownThreshold := 90.0
  const UpThreshold := 140.0

  /** The loop's two variables. */
  datatype Tally = Tally(counter: nat, stage: Stage)

  /** counter = 0 and stage = None before the first frame. */
  const Start := Tally(0, Unset)

  predicate IsBent(frame: Frame)
  {
    frame.Some? && JointAngle(frame.value) < DownThreshold
  }

  predicate IsStraight(frame: Frame)
  {
    frame.Some? && JointAngle(frame.value) > UpThreshold
  }

  /**
   * One pass of the counting logic. "down" is entered only from "up" on a
   * bent elbow; "up" is entered only on a straight elbow, and counts exactly
   * when it leaves "down"; anything else, including a frame whose landmark
   * extraction failed, leaves both variables alone.
   */
  function MainStep(s: Tally, frame: Frame): (t: Tally)
    ensures t.counter == s.counter || t.counter == s.counter + 1
    ensures t.counter == s.counter + 1 <==> s.stage == Down && t.stage == Up
    ensures t.stage == Down && s.stage != Down ==> s.stage == Up && IsBent(frame)
    ensures t.stage == Up && s.stage != Up ==> IsStraight(frame)
    ensures IsStraight(frame) && s.stage != Up ==> t.stage == Up
    ensures !IsBent(frame) && !IsStraight(frame) ==> t == s
    ensures IsBent(frame) && s.stage == Up ==> t == s.(stage := Down)
    ensures IsStraight(frame) && s.stage == Down ==> t == Tally(s.counter + 1, Up)
    ensures IsStraight(frame) && s.stage == Unset ==> t == s.(stage := Up)
    ensures !(IsBent(frame) && s.stage == Up) && !(IsStraight(frame) && s.stage != Up) ==> t == s
  {
    match frame
    case None => s
    case Some(sighting) =>
      var angle := JointAngle(sighting);
      if angle < DownThreshold && s.stage == Up then
        s.(stage := Down)
      else if angle > UpThreshold && s.stage == Down then
        Tally(s.counter + 1, Up)
      else if angle > UpThreshold && s.stage != Up then
        s.(stage := Up)
      else
        s
  }

  /** The variables after a sequence of frames. */
  function Count(s: Tally, frames: seq<Frame>): (t: Tally)
    decreases |frames|
    ensures s.counter <= t.counter <= s.counter + |frames|
  {
    if frames == [] then s
    else MainStep(Count(s, frames[..|frames| - 1]), frames[|frames| - 1])
  }

  /** How many frames show a bent elbow. */
  function BentFrames(frames: seq<Frame>): (n: nat)
    decreases |frames|
    ensures n <= |frames|
  {
    if frames == [] then 0
    else
      var last := if IsBent(frames[|frames| - 1]) then 1 else 0;
      BentFrames(frames[..|frames| - 1]) + last
  }

  /** How many frames show a straight elbow. */
  function StraightFrames(frames: seq<Frame>): (n: nat)
    decreases |frames|
    ensures n <= |frames|
  {
    if frames == [] then 0
    else
      var last := if IsStraight(frames[|frames| - 1]) then 1 else 0;
      StraightFrames(frames[..|frames| - 1]) + last
  }

  function InDown(s: Tally): nat
  {
    if s.stage == Down then 1 else 0
  }

  function Started(s: Tally): nat
  {
    if s.stage != Unset then 1 else 0
  }

  /**
   * Each repetition needs its own bent frame (the "down" half of an
   * up-down-up cycle): reps plus a pending "down" never exceed the bent frames.
   */
  lemma {:induction false} RepsNeedBentFrames(s: Tally, frames: seq<Frame>)
    ensures var t := Count(s, frames);
      t.counter + InDown(t) <= s.counter + InDown(s) + BentFrames(frames)
    decreases |frames|
  {
    if frames != [] {
      RepsNeedBentFrames(s, frames[..|frames| - 1]);
    }
  }

  /**
   * Each repetition needs its own straight frame, on top of the straight
   * frame that first left stage None: n reps need n + 1 straight frames.
   */
  lemma {:induction false} RepsNeedStraightFrames(s: Tally, frames: seq<Frame>)
    ensures var t := Count(s, frames);
      t.counter + Started(t) <= s.counter + Started(s) + StraightFrames(frames)
    decreases |frames|
  {
    if frames != [] {
      RepsNeedStraightFrames(s, frames[..|frames| - 1]);
    }
  }

  /** From the start, n counted push-ups took at least n bent and n + 1 straight frames. */
  lemma RepsNeedFullCycles(frames: seq<Frame>)
    ensures Count(Start, frames).counter <= BentFrames(frames)
    ensures Count(Start, frames).counter > 0 ==> Count(Start, frames).counter + 1 <= StraightFrames(frames)
  {
    RepsNeedBentFrames(Start, frames);
    RepsNeedStraightFrames(Start, frames);
  }

  /** Counting a + b is counting a, then b. */
  lemma {:induction false} CountAppend(s: Tally, a: seq<Frame>, b: seq<Frame>)
    ensures Count(s, a + b) == Count(Count(s, a), b)
    decreases |b|
  {
    if b == [] {
      assert a + b == a;
    } else {
      var last := |b| - 1;
      assert (a + b)[..|a + b| - 1] == a + b[..last];
      assert (a + b)[|a + b| - 1] == b[last];
      CountAppend(s, a, b[..last]);
    }
  }

  /** A sequence with a bent-frame count above zero holds a bent frame. */
  lemma {:induction false} BentFrameWitness(frames: seq<Frame>)
    requires BentFrames(frames) > 0
    ensures exists k :: 0 <= k < |frames| && IsBent(frames[k])
    decreases |frames|
  {
    var last := |frames| - 1;
    if !IsBent(frames[last]) {
      BentFrameWitness(frames[..last]);
      var k :| 0 <= k < last && IsBent(frames[..last][k]);
      assert frames[k] == frames[..last][k];
    }
  }

  /** Frame k counts a push-up. */
  predicate CountsAt(s: Tally, frames: seq<Frame>, k: nat)
    requires k < |frames|
  {
    Count(s, frames[..k + 1]).counter == Count(s, frames[..k]).counter + 1
  }

  /**
   * The up-down-up order: between two counted push-ups, at frames i and j,
   * some frame strictly between them showed a bent elbow.
   */
  lemma RepsSeparatedByBentFrame(s: Tally, frames: seq<Frame>, i: nat, j: nat)
    requires i < j < |frames|
    requires CountsAt(s, frames, i) && CountsAt(s, frames, j)
    ensures exists k :: i < k < j && IsBent(frames[k])
  {
    var afterRep := Count(s, frames[..i + 1]);
    assert frames[..i + 1][..i] == frames[..i];
    assert afterRep.stage == Up;
    var between := frames[i + 1..j];
    assert frames[..j] == frames[..i + 1] + between;
    CountAppend(s, frames[..i + 1], between);
    var beforeRep := Count(afterRep, between);
    assert frames[..j + 1][..j] == frames[..j];
    assert beforeRep.stage == Down;
    RepsNeedBentFrames(afterRep, between);
    BentFrameWitness(between);
    var k :| 0 <= k < |between| && IsBent(between[k]);
    assert between[k] == frames[i + 1 + k];
  }

  /** n up-down-up cycles: a bent frame then a straight frame, n times over. */
  function Cycles(bent: Frame, straight: Frame, n: nat): (frames: seq<Frame>)
    ensures |frames| == 2 * n
    decreases n
  {
    if n == 0 then [] else Cycles(bent, straight, n - 1) + [bent, straight]
  }

  /** From "up", every bent-then-straight cycle counts exactly one push-up and returns to "up". */
  lemma {:induction false} CyclesCount(s: Tally, bent: Frame, straight: Frame, n: nat)
    requires s.stage == Up && IsBent(bent) && IsStraight(straight)
    ensures Count(s, Cycles(bent, straight, n)) == Tally(s.counter + n, Up)
    decreases n
  {
    if n > 0 {
      var before := Cycles(bent, straight, n - 1);
      CyclesCount(s, bent, straight, n - 1);
      CountAppend(s, before, [bent, straight]);
      var mid := Count(s, before);
      var pair := [bent, straight];
      assert pair[..1] == [bent] && pair[..1][..0] == [];
      assert Count(mid, [bent]) == mid.(stage := Down);
      assert Count(mid, pair) == Tally(mid.counter + 1, Up);
    }
  }

  /** Elbow angles 30, 30, 170, 170 count nothing: a bent elbow before the first "up" does not start a cycle. */
  lemma BentBeforeUpCountsNothing()
    ensures Count(Start, [At(30.0), At(30.0), At(170.0), At(170.0)]) == Tally(0, Up)
  {
    var fs := [At(30.0), At(30.0), At(170.0), At(170.0)];
    assert fs[..3][..2][..1][..0] == [];
    assert fs[..3][..2] == fs[..2] && fs[..2][..1] == fs[..1] && fs[..4] == fs;
    assert Count(Start, fs[..1]) == Start;
    assert Count(Start, fs[..2]) == Start;
    assert Count(Start, fs[..3]) == Tally(0, Up);
  }

  /** Elbow angles 170, 20, 170, 20 count one push-up here: the first 170 only leaves stage None. */
  lemma MainTrace()
    ensures Count(Start, [At(170.0), At(20.0), At(170.0), At(20.0)]) == Tally(1, Down)
  {
    var fs := [At(170.0), At(20.0), At(170.0), At(20.0)];
    assert fs[..3][..2][..1][..0] == [];
    assert fs[..3][..2] == fs[..2] && fs[..2][..1] == fs[..1] && fs[..4] == fs;
    assert Count(Start, fs[..1]) == Tally(0, Up);
    assert Count(Start, fs[..2]) == Tally(0, Down);
    assert Count(Start, fs[..3]) == Tally(1, Up);
  }

  /**
   * The frame loop of main: counter and stage start at 0 and None and are
   * updated in place, frame by frame, until the frames run out (the video
   * ends or 'q' is pressed).
   */
  method CountPushups(frames: seq<Frame>) returns (counter: nat, stage: Stage)
    ensures Tally(counter, stage) == Count(Start, frames)
  {
    counter := 0;
    stage := Unset;
    var i := 0;
    while i < |frames|
      invariant 0 <= i <= |frames|
      invariant Tally(counter, stage) == Count(Start, frames[..i])
    {
      match frames[i] {
        case None =>
        case Some(sighting) =>
          var elbowAngle := JointAngle(sighting);
          if elbowAngle < DownThreshold && stage == Up {
            stage := Down;
          } else if elbowAngle > UpThreshold && stage == Down {
            stage := Up;
            counter := counter + 1;
          } else if elbowAngle > UpThreshold && stage != Up {
            stage := Up;
          }
      }
      assert frames[..i + 1][..i] == frames[..i];
      i := i + 1;
    }
    assert frames[..i] == frames;
  }
}
