/**
 * The session controller of gui.py: VideoThread owns one workout session
 * (detector choice, the frame loop with its target check, the teardown that
 * saves the workout and emits the completion), and PushupCounterApp turns the
 * start button into a start/stop toggle and unlocks achievements.
 *
 * The worker thread is modelled sequentially. Run is given the passes of its
 * loop as a finite sequence of ticks; a stop() issued from the window between
 * two passes is a tick of its own. When the ticks run out while the run flag
 * is still set, the thread is still inside its loop (Looping), and a later
 * Stop finishes it.
 */
module SessionControl {

  import opened Wrappers
  import opened AngleGeometry
  import opened MovementDetection
  import opened WorkoutStore

  /** What one pass of the run loop sees. */
  datatype Tick =
    | Read(frame: Frame)   // cap.read() delivered a frame; its pose may still be missing
    | ReadFailed           // cap.read() returned ret = False: the pass does nothing
    | StopRequested        // stop() cleared the run flag before this pass

  /** The value carried by workout_completed_signal. */
  datatype Completion = Completion(exerciseType: string, completedReps: int)

  // ---------------------------------------------------------------------
  // Choosing the detector and parsing the target

  /** The detector class built for an exercise name: "Squat" gets the squat detector, every other name the push-up one. */
  function SelectExercise(name: string): (exercise: Exercise)
    ensures exercise == Squat <==> name == "Squat"
    ensures name == "Pushup" ==> exercise == Pushup
  {
    if name == "Pushup" then Pushup
    else if name == "Squat" then Squat
    else Pushup
  }

  predicate IsDigit(c: char)
  {
    '0' <= c <= '9'
  }

  /** str.isdigit: a non-empty text of digits. */
  predicate IsDigits(text: string)
  {
    |text| > 0 && forall i :: 0 <= i < |text| ==> IsDigit(text[i])
  }

  function DigitValue(c: char): nat
    requires IsDigit(c)
  {
    c as int - '0' as int
  }

  /** int(text) for a text of decimal digits. */
  function DecimalValue(text: string): nat
    requires forall i :: 0 <= i < |text| ==> IsDigit(text[i])
    decreases |text|
  {
    if text == [] then 0
    else 10 * DecimalValue(text[..|text| - 1]) + DigitValue(text[|text| - 1])
  }

  /** The rep target typed into the target box: its value when it is all digits, otherwise 0 (no target). */
  function ParseTargetReps(text: string): (target: nat)
    ensures !IsDigits(text) ==> target == 0
  {
    if IsDigits(text) then DecimalValue(text) else 0
  }

  /** The decimal text of a number, as str() writes it. */
  function DecimalText(n: nat): (text: string)
    ensures IsDigits(text)
    decreases n
  {
    var last := [('0' as int + n % 10) as char];
    if n < 10 then last else DecimalText(n / 10) + last
  }

  /** The target parse reads back every number written in decimal. */
  lemma {:induction false} ParseDecimalText(n: nat)
    ensures ParseTargetReps(DecimalText(n)) == n
    decreases n
  {
    var text := DecimalText(n);
    var last := text[|text| - 1];
    assert DigitValue(last) == n % 10;
    if n < 10 {
      assert text[..|text| - 1] == [];
      assert DecimalValue(text) == DigitValue(last);
    } else {
      ParseDecimalText(n / 10);
      assert text[..|text| - 1] == DecimalText(n / 10);
      assert DecimalValue(text) == 10 * (n / 10) + n % 10;
    }
  }

  /** A leading zero does not change a digit text's value. */
  lemma {:induction false} DecimalValueLeadingZero(text: string)
    requires forall i :: 0 <= i < |text| ==> IsDigit(text[i])
    ensures DecimalValue(['0'] + text) == DecimalValue(text)
    decreases |text|
  {
    var padded := ['0'] + text;
    if text == [] {
      assert padded[..0] == [];
    } else {
      var last := |text| - 1;
      assert padded[..|padded| - 1] == ['0'] + text[..last];
      assert padded[|padded| - 1] == text[last];
      DecimalValueLeadingZero(text[..last]);
    }
  }

  /** The target parse ignores leading zeros: "007" is read as 7. */
  lemma ParseIgnoresLeadingZero(text: string)
    requires IsDigits(text)
    ensures ParseTargetReps(['0'] + text) == ParseTargetReps(text)
  {
    var padded := ['0'] + text;
    assert forall i :: 0 < i < |padded| ==> padded[i] == text[i - 1];
    DecimalValueLeadingZero(text);
  }

  // ---------------------------------------------------------------------
  // The run loop

  /** Where the loop leaves the detector, and whether it ended (run flag cleared). */
  datatype LoopOutcome = LoopOutcome(state: DetectorState, stopped: bool)

  /** The passes of the run loop from a detector state: it ends at a stop request or as soon as a nonzero target is reached. */
  function RunLoop(exercise: Exercise, target: int, s: DetectorState, ticks: seq<Tick>): (out: LoopOutcome)
    decreases |ticks|
    ensures out.state.counter >= s.counter
    ensures target > 0 && s.counter < target ==> out.state.counter <= target
    ensures target > 0 && s.counter < target && !out.stopped ==> out.state.counter < target
  {
    if ticks == [] then LoopOutcome(s, false)
    else
      match ticks[0]
      case StopRequested => LoopOutcome(s, true)
      case ReadFailed => RunLoop(exercise, target, s, ticks[1..])
      case Read(frame) =>
        var t := Step(exercise, s, frame);
        if target > 0 && t.counter >= target then LoopOutcome(t, true)
        else RunLoop(exercise, target, t, ticks[1..])
  }

  /** The frames the loop hands to the detector. */
  function FramesOf(ticks: seq<Tick>): (frames: seq<Frame>)
    ensures |frames| <= |ticks|
    decreases |ticks|
  {
    if ticks == [] then []
    else if ticks[0].Read? then [ticks[0].frame] + FramesOf(ticks[1..])
    else FramesOf(ticks[1..])
  }

  /** With target 0 the count never ends the loop: only a stop request does. */
  lemma {:induction false} NoTargetNeverAutoStops(exercise: Exercise, s: DetectorState, ticks: seq<Tick>)
    requires StopRequested !in ticks
    ensures !RunLoop(exercise, 0, s, ticks).stopped
    decreases |ticks|
  {
    if ticks != [] {
      assert ticks[0] != StopRequested;
      assert forall k :: 0 <= k < |ticks| - 1 ==> ticks[1..][k] == ticks[k + 1];
      match ticks[0]
      case ReadFailed => NoTargetNeverAutoStops(exercise, s, ticks[1..]);
      case Read(frame) => NoTargetNeverAutoStops(exercise, Step(exercise, s, frame), ticks[1..]);
    }
  }

  /** Without a stop request, a loop that ended did so with the counter exactly at the target. */
  lemma {:induction false} AutoStopAtTarget(exercise: Exercise, target: int, s: DetectorState, ticks: seq<Tick>)
    requires StopRequested !in ticks
    requires target > 0 && s.counter < target
    ensures RunLoop(exercise, target, s, ticks).stopped ==> RunLoop(exercise, target, s, ticks).state.counter == target
    decreases |ticks|
  {
    if ticks != [] {
      assert ticks[0] != StopRequested;
      assert forall k :: 0 <= k < |ticks| - 1 ==> ticks[1..][k] == ticks[k + 1];
      match ticks[0]
      case ReadFailed => AutoStopAtTarget(exercise, target, s, ticks[1..]);
      case Read(frame) =>
        var t := Step(exercise, s, frame);
        if t.counter < target {
          AutoStopAtTarget(exercise, target, t, ticks[1..]);
        }
    }
  }

  /**
   * A loop that has not ended has handed every frame to the detector in
   * order: its detector is the detector run over those frames. Failed reads
   * are skipped; they do not end the loop.
   */
  lemma {:induction false} RunningLoopRunsDetector(exercise: Exercise, target: int, s: DetectorState, ticks: seq<Tick>)
    ensures !RunLoop(exercise, target, s, ticks).stopped ==>
      RunLoop(exercise, target, s, ticks).state == Run(exercise, s, FramesOf(ticks))
    decreases |ticks|
  {
    if ticks != [] {
      match ticks[0]
      case StopRequested =>
      case ReadFailed => RunningLoopRunsDetector(exercise, target, s, ticks[1..]);
      case Read(frame) =>
        var t := Step(exercise, s, frame);
        RunningLoopRunsDetector(exercise, target, t, ticks[1..]);
        RunAppend(exercise, s, [frame], FramesOf(ticks[1..]));
        assert [frame][..0] == [];
    }
  }

  /**
   * However the loop ends, its detector is the detector run over the frames
   * of the passes made so far: the count a stopped loop saves and emits is
   * the count of the frames it read, in order.
   */
  lemma {:induction false} LoopStateIsDetectorRun(exercise: Exercise, target: int, s: DetectorState, ticks: seq<Tick>)
    ensures exists n :: (0 <= n <= |ticks| &&
      RunLoop(exercise, target, s, ticks).state == Run(exercise, s, FramesOf(ticks[..n])))
    decreases |ticks|
  {
    if ticks == [] || ticks[0] == StopRequested {
      assert ticks[..0] == [];
    } else {
      var rest := ticks[1..];
      match ticks[0]
      case ReadFailed =>
        LoopStateIsDetectorRun(exercise, target, s, rest);
        var n :| 0 <= n <= |rest| && RunLoop(exercise, target, s, rest).state == Run(exercise, s, FramesOf(rest[..n]));
        assert ticks[..n + 1][1..] == rest[..n];
        assert FramesOf(ticks[..n + 1]) == FramesOf(rest[..n]);
      case Read(frame) =>
        var t := Step(exercise, s, frame);
        var single: seq<Frame> := [frame];
        assert single[..0] == [];
        assert Run(exercise, s, single) == t;
        if target > 0 && t.counter >= target {
          assert ticks[..1][1..] == [];
          assert FramesOf(ticks[..1]) == single;
        } else {
          LoopStateIsDetectorRun(exercise, target, t, rest);
          var n :| 0 <= n <= |rest| && RunLoop(exercise, target, t, rest).state == Run(exercise, t, FramesOf(rest[..n]));
          assert ticks[..n + 1][1..] == rest[..n];
          assert FramesOf(ticks[..n + 1]) == single + FramesOf(rest[..n]);
          RunAppend(exercise, s, single, FramesOf(rest[..n]));
        }
    }
  }

  /**
   * A stop request ends the loop: if the passes before it have not ended the
   * loop, the loop ends at the request, with the detector run over exactly
   * the frames read before it.
   */
  lemma {:induction false} StopRequestEndsLoop(exercise: Exercise, target: int, s: DetectorState, ticks: seq<Tick>, k: nat)
    requires k < |ticks| && ticks[k] == StopRequested
    requires !RunLoop(exercise, target, s, ticks[..k]).stopped
    ensures RunLoop(exercise, target, s, ticks) == LoopOutcome(Run(exercise, s, FramesOf(ticks[..k])), true)
    decreases k
  {
    if k == 0 {
      assert ticks[..0] == [];
    } else {
      var rest := ticks[1..];
      assert ticks[..k][0] == ticks[0];
      assert ticks[..k][1..] == rest[..k - 1];
      assert rest[k - 1] == StopRequested;
      match ticks[0]
      case StopRequested =>
      case ReadFailed =>
        StopRequestEndsLoop(exercise, target, s, rest, k - 1);
      case Read(frame) =>
        var t := Step(exercise, s, frame);
        StopRequestEndsLoop(exercise, target, t, rest, k - 1);
        var single: seq<Frame> := [frame];
        assert single[..0] == [];
        assert FramesOf(ticks[..k]) == single + FramesOf(rest[..k - 1]);
        RunAppend(exercise, s, single, FramesOf(rest[..k - 1]));
    }
  }

  // ---------------------------------------------------------------------
  // What a finished session leaves in the store

  const FirstHundred := "First 100 Pushups!"

  /** The achievement rule of check_achievements. */
  predicate UnlocksFirstHundred(exerciseType: string, completedReps: int)
  {
    exerciseType == "Pushup" && completedReps >= 100
  }

  /** check_achievements on the store: only a push-up session of 100 reps or more can change it, and only its achievements. */
  function AchievementCheck(t: Tables, now: int, engineOk: bool, exerciseType: string, completedReps: int): (r: Tables)
    ensures r.workouts == t.workouts && r.connected == t.connected
    ensures r != t ==> UnlocksFirstHundred(exerciseType, completedReps)
    ensures UnlocksFirstHundred(exerciseType, completedReps) && t.connected && engineOk ==> HasAchievement(r.achievements, FirstHundred)
    ensures WellFormed(t) ==> WellFormed(r)
  {
    if UnlocksFirstHundred(exerciseType, completedReps) then SaveAchievementSpec(t, now, engineOk, FirstHundred) else t
  }

  /**
   * The store after a finished session: the thread's workout save, then the
   * window's achievement check on the reps it reports. The two saves go
   * through two connections, so each has its own engine outcome.
   */
  function AfterSession(t: Tables, now: int, workoutOk: bool, achievementOk: bool, exerciseType: string, completedReps: int, durationSeconds: int): (r: Tables)
    ensures WellFormed(t) ==> WellFormed(r)
    ensures r.connected == t.connected
    ensures t.workouts <= r.workouts && t.achievements <= r.achievements
    ensures |r.workouts| == |t.workouts| + (if t.connected && workoutOk then 1 else 0)
    ensures t.connected && workoutOk ==>
      r.workouts[|t.workouts|] == WorkoutRow(t.lastWorkoutId + 1, now, exerciseType, completedReps, Some(durationSeconds))
    ensures !(t.connected && workoutOk) ==> r.workouts == t.workouts
    ensures r.achievements != t.achievements ==> UnlocksFirstHundred(exerciseType, completedReps) && t.connected && achievementOk
    ensures UnlocksFirstHundred(exerciseType, completedReps) && t.connected && achievementOk ==> HasAchievement(r.achievements, FirstHundred)
  {
    var saved := SaveWorkoutSpec(t, now, workoutOk, exerciseType, completedReps, Some(durationSeconds));
    SavesKeepExistingRows(t, now, workoutOk, exerciseType, completedReps, Some(durationSeconds), FirstHundred);
    SavesKeepExistingRows(saved, now, achievementOk, exerciseType, completedReps, Some(durationSeconds), FirstHundred);
    AchievementCheck(saved, now, achievementOk, exerciseType, completedReps)
  }

  /** Two push-up sessions of 100 reps or more leave one "First 100 Pushups!" record, and two workout rows. */
  lemma RepeatedHundredOneAchievement(t: Tables, now: int, later: int, reps: int, reps': int, duration: int, duration': int)
    requires WellFormed(t) && t.connected && !HasAchievement(t.achievements, FirstHundred)
    requires reps >= 100 && reps' >= 100
    ensures var once := AfterSession(t, now, true, true, "Pushup", reps, duration);
      var twice := AfterSession(once, later, true, true, "Pushup", reps', duration');
      twice.achievements == once.achievements &&
      once.achievements == t.achievements + [AchievementRow(t.lastAchievementId + 1, now, FirstHundred)] &&
      |twice.workouts| == |t.workouts| + 2
  {
  }

  /** A push-up session with target 2 over elbow angles 170, 20, 170, 20 ends by itself at 2 reps; it saves one workout and no achievement. */
  lemma PushupTargetTwoSession(t: Tables, startAt: int, endAt: int)
    requires WellFormed(t) && t.connected
    ensures var out := RunLoop(Pushup, 2, Initial, [Read(At(170.0)), Read(At(20.0)), Read(At(170.0)), Read(At(20.0))]);
      out.stopped && out.state.counter == 2 &&
      var r := AfterSession(t, endAt, true, true, "Pushup", out.state.counter, endAt - startAt);
      r.achievements == t.achievements &&
      r.workouts == t.workouts + [WorkoutRow(t.lastWorkoutId + 1, endAt, "Pushup", 2, Some(endAt - startAt))]
  {
  }

  // ---------------------------------------------------------------------
  // The worker thread

  /** Qt's view of the worker: not yet started, inside run's loop, or returned from run. */
  datatype Phase = Created | Looping | Finished

  class VideoThread {
    const exerciseType: string
    const targetReps: int
    const detector: MovementDetector
    const store: DatabaseManager
    var runFlag: bool
    var startTime: Option<int>
    var phase: Phase
    var completions: seq<Completion>

    ghost predicate Valid()
      reads this, store
    {
      store.Valid() &&
      (phase == Created ==> startTime == None) &&
      (phase == Looping ==> startTime.Some? && runFlag)
    }

    /** QThread.isRunning(). */
    predicate IsRunning()
      reads this
    {
      phase == Looping
    }

    /** __init__: picks the detector by exercise name; the store stands for the thread's DatabaseManager on the shared database file. */
    constructor (exerciseType: string, targetReps: int, store: DatabaseManager)
      requires store.Valid()
      ensures Valid()
      ensures this.exerciseType == exerciseType && this.targetReps == targetReps && this.store == store
      ensures fresh(detector) && detector.exercise == SelectExercise(exerciseType) && detector.State() == Initial
      ensures runFlag && startTime == None && phase == Created && completions == []
    {
      this.exerciseType := exerciseType;
      this.targetReps := targetReps;
      this.store := store;
      detector := new MovementDetector(SelectExercise(exerciseType));
      runFlag := true;
      startTime := None;
      phase := Created;
      completions := [];
    }

    /** _save_workout_data: saves the final count with the elapsed seconds, only if the session had started. */
    method SaveWorkoutData(endAt: int, engineOk: bool)
      requires store.Valid()
      modifies store
      ensures store.Valid()
      ensures startTime.None? ==> store.Snapshot() == old(store.Snapshot())
      ensures startTime.Some? ==> (store.Snapshot() ==
        SaveWorkoutSpec(old(store.Snapshot()), endAt, engineOk, exerciseType, detector.counter, Some(endAt - startTime.value)))
    {
      if startTime.Some? {
        var duration := endAt - startTime.value;
        store.SaveWorkout(endAt, engineOk, exerciseType, detector.counter, Some(duration));
      }
    }

    /** What follows the loop: release the source, save the workout once, emit the completion with the same count. */
    method Teardown(endAt: int, engineOk: bool)
      requires store.Valid()
      modifies this, store
      ensures store.Valid() && phase == Finished && runFlag == old(runFlag) && startTime == old(startTime)
      ensures old(startTime).None? ==> store.Snapshot() == old(store.Snapshot())
      ensures old(startTime).Some? ==> (store.Snapshot() ==
        SaveWorkoutSpec(old(store.Snapshot()), endAt, engineOk, exerciseType, detector.counter, Some(endAt - old(startTime).value)))
      ensures completions == old(completions) + [Completion(exerciseType, detector.counter)]
    {
      SaveWorkoutData(endAt, engineOk);
      completions := completions + [Completion(exerciseType, detector.counter)];
      phase := Finished;
    }

    /**
     * run: returns at once, saving and emitting nothing, when the video source
     * does not open; otherwise records the start time and loops over the
     * ticks while the run flag holds, feeding each frame to the detector and
     * clearing the flag once a nonzero target is reached. If the loop ends,
     * the workout is saved and the completion emitted exactly once, both with
     * the detector's final counter.
     */
    method Run(sourceOpened: bool, startAt: int, ticks: seq<Tick>, endAt: int, engineOk: bool)
      requires Valid() && phase == Created && runFlag
      modifies this, detector, store
      ensures Valid()
      ensures !sourceOpened ==> (!runFlag && phase == Finished && startTime == None &&
        unchanged(detector) && unchanged(store) && completions == old(completions))
      ensures sourceOpened ==> (startTime == Some(startAt) &&
        var out := RunLoop(detector.exercise, targetReps, old(detector.State()), ticks);
        detector.State() == out.state && runFlag == !out.stopped &&
        phase == (if out.stopped then Finished else Looping) &&
        store.Snapshot() == (if out.stopped
          then SaveWorkoutSpec(old(store.Snapshot()), endAt, engineOk, exerciseType, out.state.counter, Some(endAt - startAt))
          else old(store.Snapshot())) &&
        completions == old(completions) + (if out.stopped then [Completion(exerciseType, out.state.counter)] else []))
    {
      if !sourceOpened {
        runFlag := false;
        phase := Finished;
        return;
      }
      startTime := Some(startAt);
      phase := Looping;
      ghost var start := detector.State();
      var i := 0;
      while runFlag && i < |ticks|
        invariant 0 <= i <= |ticks|
        invariant phase == Looping && startTime == Some(startAt) && completions == old(completions)
        invariant unchanged(store)
        invariant runFlag ==> (RunLoop(detector.exercise, targetReps, start, ticks) ==
          RunLoop(detector.exercise, targetReps, detector.State(), ticks[i..]))
        invariant !runFlag ==> RunLoop(detector.exercise, targetReps, start, ticks) == LoopOutcome(detector.State(), true)
      {
        match ticks[i] {
          case StopRequested =>
            runFlag := false;
          case ReadFailed =>
          case Read(frame) =>
            var counter, angle, feedback := detector.ProcessFrame(frame);
            if targetReps > 0 && counter >= targetReps {
              // stop() from inside the thread: wait() on itself returns at once
              runFlag := false;
            }
        }
        i := i + 1;
      }
      if !runFlag {
        Teardown(endAt, engineOk);
      }
    }

    /** stop: clears the run flag and waits; a thread inside its loop leaves it and tears down before the wait returns. */
    method Stop(endAt: int, engineOk: bool)
      requires Valid()
      modifies this, store
      ensures Valid() && !runFlag && startTime == old(startTime)
      ensures old(phase) == Looping ==> (phase == Finished &&
        store.Snapshot() == SaveWorkoutSpec(old(store.Snapshot()), endAt, engineOk, exerciseType, detector.counter, Some(endAt - old(startTime).value)) &&
        completions == old(completions) + [Completion(exerciseType, detector.counter)])
      ensures old(phase) != Looping ==> (phase == old(phase) &&
        store.Snapshot() == old(store.Snapshot()) && completions == old(completions))
    {
      runFlag := false;
      if phase == Looping {
        Teardown(endAt, engineOk);
      }
    }
  }

  // ---------------------------------------------------------------------
  // The window's session logic

  class PushupCounterApp {
    var thread: VideoThread?
    const store: DatabaseManager

    ghost predicate Valid()
      reads this, store, thread
    {
      store.Valid() && (thread != null ==> thread.store == store && thread.Valid())
    }

    /** __init__: no session yet; the store stands for the window's DatabaseManager. */
    constructor (connects: bool)
      ensures Valid() && thread == null && fresh(store)
      ensures store.Snapshot() == EmptyTables(connects)
    {
      thread := null;
      store := new DatabaseManager(connects);
    }

    /** check_achievements, the slot of workout_completed_signal. */
    method CheckAchievements(now: int, engineOk: bool, exerciseType: string, completedReps: int)
      requires store.Valid()
      modifies store
      ensures store.Valid()
      ensures store.Snapshot() == AchievementCheck(old(store.Snapshot()), now, engineOk, exerciseType, completedReps)
    {
      if exerciseType == "Pushup" && completedReps >= 100 {
        store.SaveAchievement(now, engineOk, FirstHundred);
      }
    }

    /** The stop half of start_workout: stop the running session; its completion then reaches CheckAchievements. */
    method StopSession(endAt: int, workoutOk: bool, achievementOk: bool)
      requires Valid() && thread != null && thread.IsRunning()
      modifies store, thread
      ensures Valid() && thread == old(thread) && !thread.IsRunning()
      ensures store.Snapshot() == AfterSession(old(store.Snapshot()), endAt, workoutOk, achievementOk,
        thread.exerciseType, thread.detector.counter, endAt - old(thread.startTime).value)
    {
      var session := thread;
      session.Stop(endAt, workoutOk);
      var done := session.completions[|session.completions| - 1];
      assert done == Completion(session.exerciseType, session.detector.counter);
      CheckAchievements(endAt, achievementOk, done.exerciseType, done.completedReps);
    }

    /** The start half of start_workout: a new thread for the chosen exercise and parsed target, run over the ticks. */
    method LaunchSession(exerciseName: string, targetText: string, sourceOpened: bool, startAt: int, ticks: seq<Tick>, endAt: int, workoutOk: bool, achievementOk: bool)
      requires Valid()
      modifies this, store
      ensures Valid()
      ensures thread != null && fresh(thread) && fresh(thread.detector)
      ensures thread.exerciseType == exerciseName && thread.targetReps == ParseTargetReps(targetText)
      ensures thread.detector.exercise == SelectExercise(exerciseName)
      ensures !sourceOpened ==> (!thread.IsRunning() && store.Snapshot() == old(store.Snapshot()))
      ensures sourceOpened ==> (
        var out := RunLoop(SelectExercise(exerciseName), ParseTargetReps(targetText), Initial, ticks);
        thread.detector.State() == out.state &&
        thread.IsRunning() == !out.stopped &&
        store.Snapshot() == (if out.stopped
          then AfterSession(old(store.Snapshot()), endAt, workoutOk, achievementOk, exerciseName, out.state.counter, endAt - startAt)
          else old(store.Snapshot())))
    {
      var targetReps := ParseTargetReps(targetText);
      var session := new VideoThread(exerciseName, targetReps, store);
      session.Run(sourceOpened, startAt, ticks, endAt, workoutOk);
      thread := session;
      if !session.IsRunning() && |session.completions| > 0 {
        var done := session.completions[|session.completions| - 1];
        CheckAchievements(endAt, achievementOk, done.exerciseType, done.completedReps);
      }
    }

    /**
     * start_workout, the toggle of the start button. While a session runs it
     * only stops that session and starts nothing; otherwise it starts a new one.
     */
    method StartWorkout(exerciseName: string, targetText: string, sourceOpened: bool, startAt: int, ticks: seq<Tick>, endAt: int, workoutOk: bool, achievementOk: bool)
      requires Valid()
      modifies this, store, thread
      ensures Valid()
      ensures old(thread) != null && old(thread.IsRunning()) ==> (
        thread == old(thread) && !thread.IsRunning() &&
        store.Snapshot() == AfterSession(old(store.Snapshot()), endAt, workoutOk, achievementOk,
          thread.exerciseType, thread.detector.counter, endAt - old(thread.startTime).value))
      ensures !(old(thread) != null && old(thread.IsRunning())) ==> (
        thread != null && fresh(thread) && fresh(thread.detector) &&
        thread.exerciseType == exerciseName && thread.targetReps == ParseTargetReps(targetText) &&
        thread.detector.exercise == SelectExercise(exerciseName) &&
        (!sourceOpened ==> !thread.IsRunning() && store.Snapshot() == old(store.Snapshot())) &&
        (sourceOpened ==>
          var out := RunLoop(SelectExercise(exerciseName), ParseTargetReps(targetText), Initial, ticks);
          thread.detector.State() == out.state &&
          thread.IsRunning() == !out.stopped &&
          store.Snapshot() == (if out.stopped
            then AfterSession(old(store.Snapshot()), endAt, workoutOk, achievementOk, exerciseName, out.state.counter, endAt - startAt)
            else old(store.Snapshot()))))
    {
      if thread != null && thread.IsRunning() {
        StopSession(endAt, workoutOk, achievementOk);
        return;
      }
      LaunchSession(exerciseName, targetText, sourceOpened, startAt, ticks, endAt, workoutOk, achievementOk);
    }
  }
}
