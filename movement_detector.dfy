/**
 * The repetition detector of movement_detector.py: MovementDetector counts
 * push-ups from the left elbow angle, SquatDetector counts squats from the
 * left knee angle. The subclass is modelled as a variant tag on one class.
 *
 * A frame reaches the counting branch as an optional joint sighting: None
 * stands for the pose estimator finding no landmarks, the exception that the
 * source catches.
 */
module MovementDetection {

  import opened Wrappers
  import opened AngleGeometry

  /** The stage field: None (Unset) before any transition, then "down" or "up". */
  datatype Stage = Unset | Down | Up

  /** Which detector class the session built. */
  datatype Exercise = Pushup | Squat

  /** What the pose estimator yields for one frame: a sighting of the three joints, or nothing. */
  type Frame = Option<JointSighting>

  /** The detector's own fields: counter, stage and feedback. */
  datatype DetectorState = DetectorState(counter: nat, stage: Stage, feedback: string)

  /** A freshly constructed detector. */
  const Initial := DetectorState(0, Unset, "")

  const GoodForm := "Good form!"
  const AdjustPosition := "Adjust position"

  /** The angle test that sets stage "down": an over-straight elbow, or a knee bent below 90 degrees. */
  predicate EntersDown(exercise: Exercise, angle: real)
  {
    match exercise
    case Pushup => angle > 160.0
    case Squat => angle < 90.0
  }

  /** The angle test that, from stage "down", completes a repetition. */
  predicate CompletesRep(exercise: Exercise, angle: real)
  {
    match exercise
    case Pushup => angle < 30.0
    case Squat => angle > 160.0
  }

  /** The feedback shown on entering "down". */
  function DownFeedback(exercise: Exercise): string
  {
    match exercise
    case Pushup => "Elbows too straight!"
    case Squat => "Go deeper!"
  }

  /** True of a frame whose angle sets stage "down". */
  predicate IsDownEntry(exercise: Exercise, frame: Frame)
  {
    frame.Some? && EntersDown(exercise, JointAngle(frame.value))
  }

  /**
   * One call of process_frame on the detector's fields. A repetition is
   * counted exactly on a "down" to "up" edge, never more than one per frame,
   * "down" is only ever entered by a down-entry frame, and a frame without
   * landmarks changes nothing but the feedback.
   */
  function Step(exercise: Exercise, s: DetectorState, frame: Frame): (t: DetectorState)
    ensures t.counter == s.counter || t.counter == s.counter + 1
    ensures t.counter == s.counter + 1 <==> s.stage == Down && t.stage == Up
    ensures t.stage == Down ==> s.stage == Down || IsDownEntry(exercise, frame)
    ensures IsDownEntry(exercise, frame) ==> t.stage == Down && t.counter == s.counter
    ensures frame.None? ==> t == s.(feedback := AdjustPosition)
  {
    match frame
    case None => s.(feedback := AdjustPosition)
    case Some(sighting) =>
      var angle := JointAngle(sighting);
      if EntersDown(exercise, angle) then
        s.(stage := Down, feedback := DownFeedback(exercise))
      else if CompletesRep(exercise, angle) && s.stage == Down then
        DetectorState(s.counter + 1, Up, GoodForm)
      else
        s.(feedback := "")
  }

  /** The detector after a sequence of frames, processed in order. */
  function Run(exercise: Exercise, s: DetectorState, frames: seq<Frame>): (t: DetectorState)
    decreases |frames|
    ensures s.counter <= t.counter <= s.counter + |frames|
  {
    if frames == [] then s
    else Step(exercise, Run(exercise, s, frames[..|frames| - 1]), frames[|frames| - 1])
  }

  /** The number of frames in a sequence that set stage "down". */
  function DownEntries(exercise: Exercise, frames: seq<Frame>): (n: nat)
    decreases |frames|
    ensures n <= |frames|
  {
    if frames == [] then 0
    else
      var last := if IsDownEntry(exercise, frames[|frames| - 1]) then 1 else 0;
      DownEntries(exercise, frames[..|frames| - 1]) + last
  }

  /** 1 while the detector sits in stage "down", a repetition waiting to be completed. */
  function Pending(s: DetectorState): nat
  {
    if s.stage == Down then 1 else 0
  }

  // ---------------------------------------------------------------------
  // The counting branch, variant by variant

  /** Push-up: the three branches of the counting logic, with their thresholds and feedback. */
  lemma PushupThresholds(s: DetectorState, sighting: JointSighting)
    ensures var t := Step(Pushup, s, Some(sighting));
      var angle := JointAngle(sighting);
      (angle > 160.0 ==> t == DetectorState(s.counter, Down, "Elbows too straight!")) &&
      (angle < 30.0 && s.stage == Down ==> t == DetectorState(s.counter + 1, Up, "Good form!")) &&
      (30.0 <= angle <= 160.0 || (angle < 30.0 && s.stage != Down) ==> t == s.(feedback := ""))
  {
  }

  /** Squat: the three branches of the counting logic, with their thresholds and feedback. */
  lemma SquatThresholds(s: DetectorState, sighting: JointSighting)
    ensures var t := Step(Squat, s, Some(sighting));
      var angle := JointAngle(sighting);
      (angle < 90.0 ==> t == DetectorState(s.counter, Down, "Go deeper!")) &&
      (angle > 160.0 && s.stage == Down ==> t == DetectorState(s.counter + 1, Up, "Good form!")) &&
      (90.0 <= angle <= 160.0 || (angle > 160.0 && s.stage != Down) ==> t == s.(feedback := ""))
  {
  }

  // ---------------------------------------------------------------------
  // Properties of a whole run

  /** Processing a + b is processing a, then b. */
  lemma {:induction false} RunAppend(exercise: Exercise, s: DetectorState, a: seq<Frame>, b: seq<Frame>)
    ensures Run(exercise, s, a + b) == Run(exercise, Run(exercise, s, a), b)
    decreases |b|
  {
    if b == [] {
      assert a + b == a;
    } else {
      var last := |b| - 1;
      assert (a + b)[..|a + b| - 1] == a + b[..last];
      assert (a + b)[|a + b| - 1] == b[last];
      RunAppend(exercise, s, a, b[..last]);
    }
  }

  /**
   * No double counting: every counted repetition is paid for by a frame that
   * entered "down" (or by the "down" stage the run started in).
   */
  lemma {:induction false} RepsBoundedByDownEntries(exercise: Exercise, s: DetectorState, frames: seq<Frame>)
    ensures var t := Run(exercise, s, frames);
      t.counter + Pending(t) <= s.counter + Pending(s) + DownEntries(exercise, frames)
    decreases |frames|
  {
    if frames != [] {
      RepsBoundedByDownEntries(exercise, s, frames[..|frames| - 1]);
    }
  }

  /** A sequence with a down-entry count above zero holds a down-entry frame. */
  lemma {:induction false} DownEntryWitness(exercise: Exercise, frames: seq<Frame>)
    requires DownEntries(exercise, frames) > 0
    ensures exists k :: 0 <= k < |frames| && IsDownEntry(exercise, frames[k])
    decreases |frames|
  {
    var last := |frames| - 1;
    if !IsDownEntry(exercise, frames[last]) {
      DownEntryWitness(exercise, frames[..last]);
      var k :| 0 <= k < last && IsDownEntry(exercise, frames[..last][k]);
      assert frames[k] == frames[..last][k];
    }
  }

  /** Frame k of a run counts a repetition. */
  predicate CountsAt(exercise: Exercise, s: DetectorState, frames: seq<Frame>, k: nat)
    requires k < |frames|
  {
    Run(exercise, s, frames[..k + 1]).counter == Run(exercise, s, frames[..k]).counter + 1
  }

  /**
   * Between two counted repetitions, at frames i and j, some frame strictly
   * between them re-entered "down".
   */
  lemma RepsSeparatedByDownEntry(exercise: Exercise, s: DetectorState, frames: seq<Frame>, i: nat, j: nat)
    requires i < j < |frames|
    requires CountsAt(exercise, s, frames, i) && CountsAt(exercise, s, frames, j)
    ensures exists k :: i < k < j && IsDownEntry(exercise, frames[k])
  {
    var afterRep := Run(exercise, s, frames[..i + 1]);
    assert frames[..i + 1][..i] == frames[..i];
    assert afterRep.stage == Up;
    var between := frames[i + 1..j];
    assert frames[..j] == frames[..i + 1] + between;
    RunAppend(exercise, s, frames[..i + 1], between);
    var beforeRep := Run(exercise, afterRep, between);
    assert frames[..j + 1][..j] == frames[..j];
    assert beforeRep.stage == Down;
    RepsBoundedByDownEntries(exercise, afterRep, between);
    DownEntryWitness(exercise, between);
    var k :| 0 <= k < |between| && IsDownEntry(exercise, between[k]);
    assert between[k] == frames[i + 1 + k];
  }

  /** Two states that differ only in feedback lead to the same counter and stage, and to the same state after any frame. */
  lemma {:induction false} RunIgnoresFeedback(exercise: Exercise, s: DetectorState, s': DetectorState, frames: seq<Frame>)
    requires s.counter == s'.counter && s.stage == s'.stage
    ensures Run(exercise, s, frames).counter == Run(exercise, s', frames).counter
    ensures Run(exercise, s, frames).stage == Run(exercise, s', frames).stage
    ensures frames != [] ==> Run(exercise, s, frames) == Run(exercise, s', frames)
    decreases |frames|
  {
    if frames != [] {
      RunIgnoresFeedback(exercise, s, s', frames[..|frames| - 1]);
    }
  }

  /**
   * A frame without landmarks, slipped in anywhere, changes neither counter
   * nor stage; once any later frame has been processed no trace of it is left.
   */
  lemma AbsentFrameTransparent(exercise: Exercise, s: DetectorState, before: seq<Frame>, after: seq<Frame>)
    ensures var withGap := Run(exercise, s, before + [None] + after);
      var without := Run(exercise, s, before + after);
      withGap.counter == without.counter && withGap.stage == without.stage &&
      (after != [] ==> withGap == without) &&
      (after == [] ==> withGap.feedback == AdjustPosition)
  {
    var mid := Run(exercise, s, before);
    RunAppend(exercise, s, before + [None], after);
    RunAppend(exercise, s, before, [None]);
    RunAppend(exercise, s, before, after);
    var gapOnly: seq<Frame> := [None];
    assert gapOnly[..0] == [];
    var gap := Run(exercise, mid, [None]);
    assert gap == mid.(feedback := AdjustPosition);
    RunIgnoresFeedback(exercise, gap, mid, after);
  }

  // ---------------------------------------------------------------------
  // Concrete runs

  /** A sighting whose joint angle is the given number of degrees. */
  function At(degrees: Direction): (f: Frame)
    requires 0.0 <= degrees
    ensures f.Some? && JointAngle(f.value) == degrees
  {
    Some(JointSighting(0.0, degrees))
  }

  /** Push-up elbow angles 170, 20, 170, 20 count two repetitions and end in "up". */
  lemma PushupTwoReps()
    ensures var t := Run(Pushup, Initial, [At(170.0), At(20.0), At(170.0), At(20.0)]);
      t.counter == 2 && t.stage == Up
  {
    var fs := [At(170.0), At(20.0), At(170.0), At(20.0)];
    assert fs[..3][..2][..1][..0] == [];
    assert fs[..3][..2] == fs[..2] && fs[..2][..1] == fs[..1] && fs[..4] == fs;
    assert Run(Pushup, Initial, fs[..1]) == DetectorState(0, Down, "Elbows too straight!");
    assert Run(Pushup, Initial, fs[..2]) == DetectorState(1, Up, GoodForm);
    assert Run(Pushup, Initial, fs[..3]) == DetectorState(1, Down, "Elbows too straight!");
  }

  /** Squat knee angles 80 then 170 count one repetition; 170 then 80 count none and end in "down". */
  lemma SquatTraces()
    ensures var t := Run(Squat, Initial, [At(80.0), At(170.0)]);
      t.counter == 1 && t.stage == Up
    ensures var t := Run(Squat, Initial, [At(170.0), At(80.0)]);
      t.counter == 0 && t.stage == Down
  {
    assert [At(80.0), At(170.0)][..1][..0] == [];
    assert [At(170.0), At(80.0)][..1][..0] == [];
  }

  // ---------------------------------------------------------------------
  // The detector object

  /** MovementDetector (variant Pushup) and SquatDetector (variant Squat). */
  class MovementDetector {
    const exercise: Exercise
    var counter: nat
    var stage: Stage
    var feedback: string

    /** The counting fields as one value. */
    function State(): DetectorState
      reads this
    {
      DetectorState(counter, stage, feedback)
    }

    constructor (exercise: Exercise)
      ensures this.exercise == exercise
      ensures State() == Initial
    {
      this.exercise := exercise;
      counter := 0;
      stage := Unset;
      feedback := "";
    }

    /**
     * process_frame: updates the fields by one Step and returns the counter,
     * the joint angle (None when the landmarks were missing) and the feedback.
     */
    method ProcessFrame(frame: Frame) returns (count: nat, angle: Option<real>, feedbackText: string)
      modifies this
      ensures State() == Step(exercise, old(State()), frame)
      ensures count == counter && feedbackText == feedback
      ensures angle.Some? <==> frame.Some?
      ensures frame.Some? ==> angle.value == JointAngle(frame.value)
    {
      angle := None;
      match frame {
        case None =>
          feedback := AdjustPosition;
        case Some(sighting) =>
          var a := JointAngle(sighting);
          angle := Some(a);
          if EntersDown(exercise, a) {
            stage := Down;
            feedback := DownFeedback(exercise);
          } else if CompletesRep(exercise, a) && stage == Down {
            stage := Up;
            counter := counter + 1;
            feedback := GoodForm;
          } else {
            feedback := "";
          }
      }
      count, feedbackText := counter, feedback;
    }
  }
}
