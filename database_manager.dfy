/**
 * DatabaseManager of database_manager.py: a workouts table that only ever
 * grows by INSERT, and an achievements table whose name column is UNIQUE and
 * which is written with INSERT OR IGNORE.
 *
 * The SQL engine is replaced by two sequences in insertion order and the two
 * AUTOINCREMENT counters. The clock reading that becomes the date column is
 * an input (seconds; the source's "%Y-%m-%d %H:%M:%S" text sorts in the same
 * order as the instants it names), and so is whether the engine accepted a
 * statement: engineOk = false stands for the sqlite3.Error that the source
 * catches and prints.
 */
module WorkoutStore {

  import opened Wrappers

  datatype WorkoutRow = WorkoutRow(id: nat, date: int, exerciseType: string, completedReps: int, durationSeconds: Option<int>)

  datatype AchievementRow = AchievementRow(id: nat, date: int, name: string)

  /** Everything the store holds: whether conn is set, both tables, and both AUTOINCREMENT counters. */
  datatype Tables = Tables(
    connected: bool,
    workouts: seq<WorkoutRow>,
    achievements: seq<AchievementRow>,
    lastWorkoutId: nat,
    lastAchievementId: nat)

  /** A store with no connection, or with freshly created empty tables. */
  function EmptyTables(connected: bool): (t: Tables)
    ensures WellFormed(t) && t.connected == connected
  {
    Tables(connected, [], [], 0, 0)
  }

  predicate HasAchievement(rows: seq<AchievementRow>, name: string)
  {
    exists i :: 0 <= i < |rows| && rows[i].name == name
  }

  /**
   * What the schema and the engine guarantee: no id is above its table's
   * AUTOINCREMENT counter, achievement names are unique, and nothing exists
   * without a connection.
   */
  predicate WellFormed(t: Tables)
  {
    (forall i :: 0 <= i < |t.workouts| ==> t.workouts[i].id <= t.lastWorkoutId) &&
    (forall i :: 0 <= i < |t.achievements| ==> t.achievements[i].id <= t.lastAchievementId) &&
    (forall i, j :: 0 <= i < j < |t.achievements| ==> t.achievements[i].name != t.achievements[j].name) &&
    (!t.connected ==> t.workouts == [] && t.achievements == [])
  }

  /**
   * save_workout: with a connection and a working engine exactly one row is
   * appended, carrying the given values and an id above every earlier one;
   * otherwise nothing changes. Existing rows and the achievements table are
   * never touched.
   */
  function SaveWorkoutSpec(t: Tables, now: int, engineOk: bool, exerciseType: string, completedReps: int, durationSeconds: Option<int>): (r: Tables)
    ensures WellFormed(t) ==> WellFormed(r)
    ensures r.connected == t.connected && r.achievements == t.achievements
    ensures r.lastAchievementId == t.lastAchievementId
    ensures |r.workouts| == |t.workouts| + (if t.connected && engineOk then 1 else 0)
    ensures t.connected && engineOk ==>
      var row := r.workouts[|t.workouts|];
      row.date == now && row.exerciseType == exerciseType &&
      row.completedReps == completedReps && row.durationSeconds == durationSeconds &&
      (WellFormed(t) ==> forall i :: 0 <= i < |t.workouts| ==> t.workouts[i].id < row.id)
    ensures !(t.connected && engineOk) ==> r == t
  {
    if t.connected && engineOk then
      var id := t.lastWorkoutId + 1;
      t.(workouts := t.workouts + [WorkoutRow(id, now, exerciseType, completedReps, durationSeconds)],
         lastWorkoutId := id)
    else
      t
  }

  /**
   * save_achievement: INSERT OR IGNORE keyed by the unique name. With a
   * connection and a working engine the name is recorded afterwards, and a
   * row is appended only if it was not there before; existing rows and the
   * workouts table are never touched.
   */
  function SaveAchievementSpec(t: Tables, now: int, engineOk: bool, name: string): (r: Tables)
    ensures WellFormed(t) ==> WellFormed(r)
    ensures r.connected == t.connected && r.workouts == t.workouts
    ensures r.lastWorkoutId == t.lastWorkoutId
    ensures |r.achievements| == |t.achievements| +
      (if t.connected && engineOk && !HasAchievement(t.achievements, name) then 1 else 0)
    ensures t.connected && engineOk ==> HasAchievement(r.achievements, name)
    ensures |r.achievements| > |t.achievements| ==> r.achievements[|t.achievements|] == AchievementRow(t.lastAchievementId + 1, now, name)
    ensures HasAchievement(t.achievements, name) || !(t.connected && engineOk) ==> r == t
  {
    if t.connected && engineOk && !HasAchievement(t.achievements, name) then
      var id := t.lastAchievementId + 1;
      var r := t.(achievements := t.achievements + [AchievementRow(id, now, name)], lastAchievementId := id);
      assert r.achievements[|t.achievements|].name == name;
      r
    else
      t
  }

  /** Both saves only ever INSERT: every existing row of either table survives, unchanged and in place. */
  lemma SavesKeepExistingRows(t: Tables, now: int, engineOk: bool, exerciseType: string, completedReps: int, durationSeconds: Option<int>, name: string)
    ensures var r := SaveWorkoutSpec(t, now, engineOk, exerciseType, completedReps, durationSeconds);
      t.workouts <= r.workouts && t.achievements == r.achievements
    ensures var r := SaveAchievementSpec(t, now, engineOk, name);
      t.achievements <= r.achievements && t.workouts == r.workouts
  {
  }

  /** Unlocking an achievement that was stored is a no-op: saving it again changes nothing. */
  lemma SaveAchievementIdempotent(t: Tables, now: int, later: int, engineOk: bool, name: string)
    requires t.connected && engineOk
    ensures var once := SaveAchievementSpec(t, now, engineOk, name);
      forall ok :: SaveAchievementSpec(once, later, ok, name) == once
  {
  }

  /** After a successful save of a name, exactly one achievement row carries that name. */
  lemma {:induction false} SaveAchievementLeavesOneRecord(t: Tables, now: int, name: string)
    requires WellFormed(t) && t.connected
    ensures var r := SaveAchievementSpec(t, now, true, name);
      exists i :: 0 <= i < |r.achievements| && r.achievements[i].name == name &&
        forall j :: 0 <= j < |r.achievements| && r.achievements[j].name == name ==> j == i
  {
    var r := SaveAchievementSpec(t, now, true, name);
    var i :| 0 <= i < |r.achievements| && r.achievements[i].name == name;
  }

  // ---------------------------------------------------------------------
  // ORDER BY date DESC

  predicate SortedByDateDesc<T>(rows: seq<T>, date: T -> int)
  {
    forall i, j :: 0 <= i < j < |rows| ==> date(rows[i]) >= date(rows[j])
  }

  /** Inserts one row into rows already ordered newest first. */
  function InsertByDate<T(==)>(row: T, sorted: seq<T>, date: T -> int): (r: seq<T>)
    requires SortedByDateDesc(sorted, date)
    ensures SortedByDateDesc(r, date)
    ensures multiset(r) == multiset(sorted) + multiset{row}
    ensures |r| == |sorted| + 1
    ensures forall i :: 0 <= i < |r| ==> date(r[i]) <= date(row) || (0 < |sorted| && date(r[i]) <= date(sorted[0]))
    decreases |sorted|
  {
    if sorted == [] || date(row) >= date(sorted[0]) then
      [row] + sorted
    else
      var rest := InsertByDate(row, sorted[1..], date);
      assert sorted == [sorted[0]] + sorted[1..];
      [sorted[0]] + rest
  }

  /** The rows, newest first: the same rows, in an order by date descending. */
  function SortByDateDesc<T(==)>(rows: seq<T>, date: T -> int): (r: seq<T>)
    ensures SortedByDateDesc(r, date)
    ensures multiset(r) == multiset(rows)
    decreases |rows|
  {
    if rows == [] then []
    else
      assert rows == [rows[0]] + rows[1..];
      InsertByDate(rows[0], SortByDateDesc(rows[1..], date), date)
  }

  function WorkoutDate(w: WorkoutRow): int { w.date }

  function AchievementDate(a: AchievementRow): int { a.date }

  // ---------------------------------------------------------------------
  // The manager object

  class DatabaseManager {
    var connected: bool
    var workouts: seq<WorkoutRow>
    var achievements: seq<AchievementRow>
    var lastWorkoutId: nat
    var lastAchievementId: nat

    function Snapshot(): Tables
      reads this
    {
      Tables(connected, workouts, achievements, lastWorkoutId, lastAchievementId)
    }

    ghost predicate Valid()
      reads this
    {
      WellFormed(Snapshot())
    }

    /**
     * __init__: connects (connects = false when sqlite3.connect failed and conn
     * stayed None) and creates both tables if they do not exist yet.
     */
    constructor (connects: bool)
      ensures Valid()
      ensures Snapshot() == EmptyTables(connects)
    {
      connected := connects;
      workouts := [];
      achievements := [];
      lastWorkoutId := 0;
      lastAchievementId := 0;
    }

    /** save_workout; the duration defaults to None. */
    method SaveWorkout(now: int, engineOk: bool, exerciseType: string, completedReps: int, durationSeconds: Option<int> := None)
      requires Valid()
      modifies this
      ensures Valid()
      ensures Snapshot() == SaveWorkoutSpec(old(Snapshot()), now, engineOk, exerciseType, completedReps, durationSeconds)
    {
      if connected && engineOk {
        var id := lastWorkoutId + 1;
        workouts := workouts + [WorkoutRow(id, now, exerciseType, completedReps, durationSeconds)];
        lastWorkoutId := id;
      }
    }

    /** save_achievement. */
    method SaveAchievement(now: int, engineOk: bool, name: string)
      requires Valid()
      modifies this
      ensures Valid()
      ensures Snapshot() == SaveAchievementSpec(old(Snapshot()), now, engineOk, name)
    {
      if connected && engineOk {
        var present := false;
        var i := 0;
        while i < |achievements|
          invariant 0 <= i <= |achievements|
          invariant present <==> exists k :: 0 <= k < i && achievements[k].name == name
        {
          if achievements[i].name == name {
            present := true;
          }
          i := i + 1;
        }
        if !present {
          var id := lastAchievementId + 1;
          achievements := achievements + [AchievementRow(id, now, name)];
          lastAchievementId := id;
        }
      }
    }

    /** get_all_workouts: every row, newest first; the empty list without a connection. */
    method GetAllWorkouts() returns (rows: seq<WorkoutRow>)
      ensures !connected ==> rows == []
      ensures connected ==> SortedByDateDesc(rows, WorkoutDate) && multiset(rows) == multiset(workouts)
    {
      if connected {
        rows := SortByDateDesc(workouts, WorkoutDate);
      } else {
        rows := [];
      }
    }

    /** get_all_achievements: every row, newest first; the empty list without a connection. */
    method GetAllAchievements() returns (rows: seq<AchievementRow>)
      ensures !connected ==> rows == []
      ensures connected ==> SortedByDateDesc(rows, AchievementDate) && multiset(rows) == multiset(achievements)
    {
      if connected {
        rows := SortByDateDesc(achievements, AchievementDate);
      } else {
        rows := [];
      }
    }
  }
}
