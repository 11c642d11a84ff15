# Pushup-Counter core in Dafny

This project models the counting and bookkeeping core of the Pushup-Counter
application. The application counts push-ups and squats from the angle at
one joint (elbow or knee) that a pose estimator reports frame by frame. It
has four parts, and each has one Dafny module:

- `AngleGeometry` (`angle_geometry.dfy`) models `calculate_angle`. The two
  ray directions at the middle joint are inputs, in degrees. The model keeps
  the fold of their difference into [0, 180].
- `MovementDetection` (`movement_detector.dfy`) models `MovementDetector`
  and `SquatDetector` from movement_detector.py. The class
  `MovementDetector` has the fields counter, stage and feedback, which
  `ProcessFrame` updates in place. The pure function `Step` specifies one
  frame and `Run` specifies a sequence of frames. The lemmas bound the
  count, tie each repetition to its own "down" entry, and show that a frame
  without a pose changes only the feedback.
- `StandaloneCounter` (`main_counter.dfy`) models the frame loop of
  main.py. Its two local variables are updated by the method
  `CountPushups`, which is proved against the function `Count`. The
  thresholds are 90 and 140, and "down" can only be entered from "up".
- `WorkoutStore` (`database_manager.dfy`) models `DatabaseManager`. The
  workouts and achievements tables are sequences, with their AUTOINCREMENT
  counters beside them (gap-free; see "Left out"). `save_workout` always inserts.
  `save_achievement` inserts or ignores by unique name. The two getters
  return every row, newest first.
- `SessionControl` (`gui.dfy`) models `VideoThread` and the session logic of
  `PushupCounterApp`:
  - choosing the detector;
  - parsing the target reps;
  - the run loop with its target check;
  - the teardown, which saves the workout once and emits the completion once;
  - the start/stop toggle;
  - the "First 100 Pushups!" achievement.

Angles are exact reals. A frame is `Option<JointSighting>`: `None` stands for
a pose whose landmarks could not be read, which is the `except` branch of
`process_frame`. Several things are inputs rather than computed:
- the clock, as an integer number of seconds;
- whether the video source opened;
- whether the SQL engine accepted a statement (`engineOk`). The thread's
  workout save (`workoutOk`) and the window's achievement save
  (`achievementOk`) go through two connections, so each has its own outcome.

The worker thread is modelled sequentially. The passes of its loop are a
finite sequence of `Tick`s: a read frame, a failed read, or a stop request.

## Model

| member | source | states |
|---|---|---|
| AngleGeometry.Fold | movement_detector.py:37-43 | the folded angle lies in [0, 180], is either \|d\| or 360 - \|d\|, and is the smaller of the two |
| AngleGeometry.JointAngle | main.py:31-44 | the angle at the middle joint lies in [0, 180] |
| AngleGeometry.FoldEven | movement_detector.py:37-43 | the fold does not depend on the sign of the difference |
| AngleGeometry.JointAngleSymmetric | movement_detector.py:37-43 | swapping the first and end points leaves the angle unchanged |
| MovementDetection.MovementDetector.constructor | movement_detector.py:24-30 | a new detector has counter 0, no stage and empty feedback |
| MovementDetection.Step | movement_detector.py:56-82 | the counter grows by at most one, and grows exactly when the stage moves from down to up; "down" is entered only on a down-entry angle, and such an angle always leads to "down" without counting; a frame without a pose changes only the feedback, to "Adjust position" |
| MovementDetection.PushupThresholds | movement_detector.py:66-79 | push-up: above 160 sets "down" with "Elbows too straight!"; below 30 from "down" counts one with "Good form!"; anything else clears the feedback |
| MovementDetection.SquatThresholds | movement_detector.py:118-131 | squat: below 90 sets "down" with "Go deeper!"; above 160 from "down" counts one with "Good form!"; anything else clears the feedback |
| MovementDetection.MovementDetector.ProcessFrame | movement_detector.py:56-88 | the new counter, stage and feedback are one Step of the old ones; it returns the counter and the feedback, and an angle exactly when a pose was found |
| MovementDetection.Run | movement_detector.py:69-79 | over n frames the counter never decreases and grows by at most n |
| MovementDetection.RunAppend | movement_detector.py:45-88 | processing two runs of frames one after the other is processing their concatenation |
| MovementDetection.RepsBoundedByDownEntries | movement_detector.py:69-79 | the reps counted, plus a pending "down", never exceed the frames whose angle enters "down" |
| MovementDetection.DownEntryWitness | movement_detector.py:69-72 | a nonzero count of down entries points at a frame that is one |
| MovementDetection.RepsSeparatedByDownEntry | movement_detector.py:69-79 | between any two counted frames there is a frame that enters "down" again |
| MovementDetection.RunIgnoresFeedback | movement_detector.py:69-82 | the feedback a detector starts with never influences its counter or stage |
| MovementDetection.AbsentFrameTransparent | movement_detector.py:81-82 | a frame without a pose inserted anywhere leaves the final counter and stage unchanged |
| MovementDetection.At | movement_detector.py:66 | a sighting whose rays are the given angle apart is read as that angle |
| MovementDetection.PushupTwoReps | movement_detector.py:69-77 | elbow angles 170, 20, 170, 20 count two push-ups and end in "up" |
| MovementDetection.SquatTraces | movement_detector.py:121-128 | knee angles 80, 170 count one squat; 170, 80 count none |
| StandaloneCounter.MainStep | main.py:139-156 | every branch: "up" with a bent elbow (< 90) becomes "down"; "down" with a straight elbow (> 140) counts one and becomes "up"; None with a straight elbow becomes "up" without counting; every other frame, including one without a pose, changes nothing. Hence the count changes by at most one, and by one exactly from down to up |
| StandaloneCounter.Count | main.py:79-161 | over n frames the count never decreases and grows by at most n |
| StandaloneCounter.RepsNeedBentFrames | main.py:139-149 | reps plus a pending "down" never exceed the bent frames |
| StandaloneCounter.RepsNeedStraightFrames | main.py:144-156 | reps plus "has started" never exceed the straight frames |
| StandaloneCounter.RepsNeedFullCycles | main.py:139-156 | from the start, n reps took at least n bent frames and, when n > 0, n + 1 straight frames |
| StandaloneCounter.CountAppend | main.py:79-161 | counting two runs of frames one after the other is counting their concatenation |
| StandaloneCounter.BentFrameWitness | main.py:139 | a nonzero count of bent frames points at a bent frame |
| StandaloneCounter.RepsSeparatedByBentFrame | main.py:139-149 | the up-down-up order: between any two counted frames there is a frame with a bent elbow |
| StandaloneCounter.BentBeforeUpCountsNothing | main.py:139-156 | elbow angles 30, 30, 170, 170 count nothing and end in "up": a bent elbow before the first "up" starts no cycle |
| StandaloneCounter.CyclesCount | main.py:139-149 | from "up", n cycles of a bent frame then a straight frame count exactly n push-ups and end in "up" |
| StandaloneCounter.MainTrace | main.py:139-156 | elbow angles 170, 20, 170, 20 count one push-up and end in "down" |
| StandaloneCounter.CountPushups | main.py:70-161 | the loop leaves counter and stage equal to Count over all frames from (0, None) |
| WorkoutStore.EmptyTables | database_manager.py:20-48 | freshly created tables are well formed |
| WorkoutStore.SaveWorkoutSpec | database_manager.py:50-61 | with a connection and a working engine one row is appended, carrying the date, type, reps and duration and an id above every earlier one; otherwise nothing changes; achievements are never touched; well-formedness is preserved |
| WorkoutStore.SaveAchievementSpec | database_manager.py:63-74 | with a connection and a working engine the name is present afterwards, and a row is appended exactly when it was absent; otherwise nothing changes; workouts are never touched; unique names are preserved |
| WorkoutStore.SavesKeepExistingRows | database_manager.py:54-70 | both saves keep every existing row of both tables in place |
| WorkoutStore.SaveAchievementIdempotent | database_manager.py:67-70 | after a successful save of a name, saving it again changes nothing, whatever the engine does |
| WorkoutStore.SaveAchievementLeavesOneRecord | database_manager.py:43 | after a successful save exactly one row carries the name |
| WorkoutStore.InsertByDate | database_manager.py:79 | inserting a row into date-descending rows keeps them date-descending and adds exactly that row |
| WorkoutStore.SortByDateDesc | database_manager.py:79 | the result is date-descending and a permutation of the input |
| WorkoutStore.DatabaseManager.constructor | database_manager.py:5-48 | a new manager holds empty tables, connected or not |
| WorkoutStore.DatabaseManager.SaveWorkout | database_manager.py:50-61 | the new tables are SaveWorkoutSpec of the old ones, and stay well formed |
| WorkoutStore.DatabaseManager.SaveAchievement | database_manager.py:63-74 | the new tables are SaveAchievementSpec of the old ones, and stay well formed |
| WorkoutStore.DatabaseManager.GetAllWorkouts | database_manager.py:76-83 | without a connection, the empty list; otherwise every workout row, newest first |
| WorkoutStore.DatabaseManager.GetAllAchievements | database_manager.py:85-92 | without a connection, the empty list; otherwise every achievement row, newest first |
| SessionControl.SelectExercise | gui.py:39-44 | "Squat" and only "Squat" gets the squat detector; "Pushup" and any other name get the push-up one |
| SessionControl.ParseTargetReps | gui.py:196 | a text that is not all digits gives target 0 |
| SessionControl.DecimalText | gui.py:196 | the decimal text of a number is all digits |
| SessionControl.ParseDecimalText | gui.py:196 | parsing the decimal text of n gives n back |
| SessionControl.DecimalValueLeadingZero | gui.py:196 | a leading zero does not change the value of a digit text |
| SessionControl.ParseIgnoresLeadingZero | gui.py:196 | the target parse reads a digit text with a leading zero as the text without it ("007" is 7) |
| SessionControl.RunLoop | gui.py:59-75 | the count never decreases; with a target above the starting count it never passes the target, and stays below it while the loop runs |
| SessionControl.FramesOf | gui.py:60-62 | no more frames reach the detector than there were passes |
| SessionControl.NoTargetNeverAutoStops | gui.py:73 | with target 0 only a stop request ends the loop |
| SessionControl.AutoStopAtTarget | gui.py:73-75 | without a stop request, a loop that ends does so with the count exactly at the target |
| SessionControl.RunningLoopRunsDetector | gui.py:59-62 | while the loop runs, the detector state is the detector run over the frames read so far; failed reads are skipped |
| SessionControl.StopRequestEndsLoop | gui.py:59-82 | a stop request ends the loop: if the passes before it have not ended it, the loop ends at the request, with the detector run over exactly the frames read before it |
| SessionControl.LoopStateIsDetectorRun | gui.py:59-75 | however the loop ends, including at a stop request or at the target, its detector state (the count that is then saved and emitted) is the detector run over the frames of some prefix of the passes |
| SessionControl.AchievementCheck | gui.py:218-224 | only a push-up session of 100 reps or more can change the store, and only its achievements; with a working engine the achievement is then present |
| SessionControl.AfterSession | gui.py:77-93 | every earlier row of both tables is kept in place; a workout save the store accepts appends exactly one row, with the next id, the end time, the type, the reps and the duration, and a refused one leaves the workouts as they were; achievements change only by the 100-rep rule and only when the window's save is accepted, and then the achievement is present. The thread's save and the window's save succeed or fail independently |
| SessionControl.RepeatedHundredOneAchievement | gui.py:218-221 | assuming both saves of both sessions are accepted: two 100-rep push-up sessions leave two workout rows and a single "First 100 Pushups!" row |
| SessionControl.PushupTargetTwoSession | gui.py:59-79 | a push-up session with target 2 over angles 170, 20, 170, 20 ends by itself at 2 reps; assuming the store accepts the workout save, it adds one workout row and no achievement |
| SessionControl.VideoThread.constructor | gui.py:26-44 | the thread starts with the run flag set, no start time, and a fresh detector for the chosen exercise |
| SessionControl.VideoThread.SaveWorkoutData | gui.py:85-93 | nothing is saved unless the session started; otherwise one save of the detector's count with the elapsed seconds |
| SessionControl.VideoThread.Teardown | gui.py:77-79 | the workout is saved once and exactly one completion is emitted with the detector's count; the thread has finished |
| SessionControl.VideoThread.Run | gui.py:46-79 | an unopened source clears the flag and saves and emits nothing; otherwise the detector ends where RunLoop says, and if the loop ended the workout is saved and the completion emitted once with the final count |
| SessionControl.VideoThread.Stop | gui.py:81-83 | the run flag is cleared; a thread inside its loop tears down (one save, one completion) before stop returns; any other thread is left as it was |
| SessionControl.PushupCounterApp.constructor | gui.py:96-106 | no session yet; the store is freshly opened |
| SessionControl.PushupCounterApp.CheckAchievements | gui.py:218-224 | the store changes as AchievementCheck says |
| SessionControl.PushupCounterApp.StopSession | gui.py:189-192 | the running session stops, and the store changes as AfterSession says for its final count and elapsed time, with separate outcomes for the thread's workout save and the window's achievement save |
| SessionControl.PushupCounterApp.LaunchSession | gui.py:194-207 | a new thread for the chosen exercise and parsed target; the store changes only if its loop ended, and then as AfterSession says, with the thread's and the window's save outcomes given separately |
| SessionControl.PushupCounterApp.StartWorkout | gui.py:188-207 | with a session running, the button only stops it; otherwise it launches a new one |

## Left out

- Pose estimation (MediaPipe), image colour conversion, drawing and the Qt
  image conversion are left out. A frame is the pair of ray directions at
  the joint, or `None` when no pose was found.
- `calculate_angle`'s `arctan2` and the radian conversion are left out,
  because floating point and trigonometry are not modelled. The directions
  are inputs, in degrees, and only the fold into [0, 180] is modelled.
- `play_sound` and the audio cues of `process_frame` are left out. They are
  file and audio I/O and do not affect the count.
- main.py's console output, the right-elbow angle that it computes but never
  uses, and its window are left out. Opening the capture and the 'q' key
  only decide which frames reach the loop, so they are the end of the frame
  sequence.
- `cap.read()` and the window's `stop()` are not concurrent here. The
  interleaving of the Qt worker thread and the window is a sequence of
  ticks, and `wait()` is the teardown finishing before `Stop` returns.
- `change_pixmap_signal`, `update_counter_signal` and
  `update_feedback_signal` are left out. So are their slots and the
  "Congratulations" message, because they only update widgets.
  `workout_completed_signal` is modelled as the `completions` sequence.
- The widgets, settings.ini and its video-source settings, logging,
  `closeEvent`, `DatabaseManager.close` and the history, achievements and
  settings dialogs are left out. They are UI and file I/O.
- Actual SQLite and the `db_name` file are left out. The window and the
  thread each open their own `DatabaseManager` on the same file, and the
  model uses one shared store for both. A new store starts with empty
  tables, so rows already in an existing database file are not modelled.
- The getters' own `sqlite3.Error` path, which prints and returns `[]`, is
  not modelled. Their connected result is always every row.
- `datetime.now()` and the date text are left out. Timestamps are integer
  seconds given as inputs, ordered the same way as the date text.
- SessionControl.VideoThread.SaveWorkoutData: the duration is the
  difference of two integer timestamps. The sub-second truncation of
  `int(duration)` is not modelled.
- WorkoutStore.SortByDateDesc: rows with equal dates may come back in any
  order in SQLite, and the model fixes one order. Only sortedness and the
  permutation are promised.
- SessionControl.ParseTargetReps: `str.isdigit` also accepts non-ASCII
  digits, and only ASCII '0'-'9' are modelled. The `QIntValidator(0, 9999)`
  on the input box is not modelled, so any digit text is accepted.
- Integer widths are not modelled. Python's ints are unbounded, and so are
  the model's.
- WorkoutStore.SaveAchievementSpec: achievement ids are modelled without
  gaps, so an ignored insert of a name already present leaves the counter
  where it was, and the next new name gets the next id. SQLite allocates the
  AUTOINCREMENT rowid before the UNIQUE check, so after an `INSERT OR
  IGNORE` that inserted nothing it may skip an id. Only the exact next id
  is affected: ids stay unique and above every earlier one, and the rows
  and names are as modelled.
- SessionControl.AfterSession: `workoutOk = true` models the intended
  behaviour, not necessarily the code as written. The thread's
  `DatabaseManager` is opened in `VideoThread.__init__` (gui.py:37), which
  runs on the window's thread (gui.py:201). It is then used from `run()` on
  the worker thread (gui.py:78, 90). With sqlite3's default same-thread
  check, that statement raises `ProgrammingError`, a `sqlite3.Error` that
  database_manager.py:60-61 catches and prints. So as written the workout
  save plausibly always fails, which is the `workoutOk = false` case.
  Threads are not modelled, so the model does not decide this. The comment
  at gui.py:36 shows the store was meant to be opened inside the thread.
- A failed `cap.read()` does not end `VideoThread.run`'s loop
  (gui.py:59-61). The loop keeps polling until the run flag is cleared, and
  the model follows the code here: `ReadFailed` is skipped. main.py, in
  contrast, ends at the first failed read (main.py:83-85), and there that is
  the end of the frame sequence.
