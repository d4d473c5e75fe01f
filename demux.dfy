/**
 * The specification of `read_csv`: a value-level state machine over the
 * rows that `csv.reader` yields.
 *
 * The original links mutable objects: a routine's list and the session
 * dictionary hold the same session objects, so an exercise or cardio log
 * added through the dictionary is visible through the routine. Here every
 * session ever created is kept in `sessions`, in creation order, and both
 * the dictionary and the routine lists hold indexes into it (an index is
 * an object's identity). A session whose id is reused stays in its
 * routine's list but leaves the dictionary, exactly as in the original.
 */
module Demux {
  import opened Wrappers
  import opened Records
  import Logs

  type Row = seq<string>

  /** `epoch_to_datetime`: formats an epoch string as a start time, or fails. */
  type Clock = string -> Option<string>

  /** A workout session's current value (JefitWorkoutSession). */
  datatype SessionV = SessionV(id: string, startTime: string, exercises: seq<ExerciseLog>, cardioLogs: seq<CardioLog>)

  /** A routine (JefitRoutines); its sessions are identities in `Model.sessions`. */
  datatype RoutineV = RoutineV(id: string, name: string, workoutSessions: seq<nat>)

  /** The five collections `read_csv` builds, plus the session objects they share. */
  datatype Model = Model(
    setting: Option<Setting>,
    routines: map<string, RoutineV>,
    sessions: seq<SessionV>,
    workoutSessions: map<string, nat>,
    cardioLogs: seq<CardioLog>,
    notes: seq<Note>)

  /** Nothing read yet. */
  const Empty := Model(None, map[], [], map[], [], [])

  /**
   * Every identity points at a created session; a dictionary entry holds a
   * session with its own key as id, and a routine entry a routine with its
   * own key as id.
   */
  ghost predicate WF(m: Model)
  {
    (forall k :: k in m.workoutSessions ==>
      m.workoutSessions[k] < |m.sessions| && m.sessions[m.workoutSessions[k]].id == k) &&
    (forall k :: k in m.routines ==> m.routines[k].id == k) &&
    (forall k, j :: k in m.routines && 0 <= j < |m.routines[k].workoutSessions| ==>
      m.routines[k].workoutSessions[j] < |m.sessions|)
  }

  /** The session the dictionary holds under `k`. */
  function Session(m: Model, k: string): SessionV
    requires WF(m) && k in m.workoutSessions
  {
    m.sessions[m.workoutSessions[k]]
  }

  /** The identities the dictionary holds: the sessions a cardio row can reach. */
  function Live(m: Model): set<nat>
  {
    m.workoutSessions.Values
  }

  // ---------------------------------------------------------------------
  // Section markers

  datatype Section = Mass | RestDay | WorkoutTime | BelongSession | Speed | MyNote

  /** The literal field that marks a section's header row. */
  function Marker(s: Section): string
  {
    match s
    case Mass => "mass"
    case RestDay => "rest_day"
    case WorkoutTime => "workout_time"
    case BelongSession => "belongsession"
    case Speed => "speed"
    case MyNote => "mynote"
  }

  /** The position of a section in the order the markers are tested. */
  function Rank(s: Section): nat
  {
    match s
    case Mass => 0
    case RestDay => 1
    case WorkoutTime => 2
    case BelongSession => 3
    case Speed => 4
    case MyNote => 5
  }

  /**
   * The section a row opens: the first marker, in the fixed order, that is
   * one of the row's fields; none when the row holds no marker (an empty row
   * included).
   */
  function SectionOf(row: Row): (r: Option<Section>)
    ensures r.None? <==> forall s: Section :: Marker(s) !in row
    ensures r.Some? ==> Marker(r.value) in row
    ensures r.Some? ==> forall s: Section :: Rank(s) < Rank(r.value) ==> Marker(s) !in row
  {
    if "mass" in row then assert Marker(Mass) in row; Some(Mass)
    else if "rest_day" in row then assert Marker(RestDay) in row; Some(RestDay)
    else if "workout_time" in row then assert Marker(WorkoutTime) in row; Some(WorkoutTime)
    else if "belongsession" in row then assert Marker(BelongSession) in row; Some(BelongSession)
    else if "speed" in row then assert Marker(Speed) in row; Some(Speed)
    else if "mynote" in row then assert Marker(MyNote) in row; Some(MyNote)
    else
      NoMarkerIn(row);
      None
  }

  /** A row holding none of the six literal markers holds no marker at all. */
  lemma NoMarkerIn(row: Row)
    requires "mass" !in row && "rest_day" !in row && "workout_time" !in row
    requires "belongsession" !in row && "speed" !in row && "mynote" !in row
    ensures forall s: Section :: Marker(s) !in row
  {
    forall s: Section ensures Marker(s) !in row {
      match s
      case Mass =>
      case RestDay =>
      case WorkoutTime =>
      case BelongSession =>
      case Speed =>
      case MyNote =>
    }
  }

  /** The sections that read one data row; the others read until an empty row. */
  predicate SingleRow(s: Section)
  {
    s == Mass || s == RestDay
  }

  // ---------------------------------------------------------------------
  // Records built from one data row (fixed column offsets)

  /** A cardio row's record: columns 3, 5, 8 and 10, and the date from the last column. */
  function CardioOf(row: Row): CardioLog
    requires |row| >= 11
  {
    CardioLog(row[3], row[5], row[8], row[10], row[|row| - 1])
  }

  /** A note row's record: columns 4, 6 and 8. */
  function NoteOf(row: Row): Note
    requires |row| >= 9
  {
    Note(row[4], row[6], row[8])
  }

  /** An exercise row's record: name from column 9, logs split from column 4. */
  function ExerciseOf(row: Row): ExerciseLog
    requires |row| >= 12
  {
    ExerciseLog(row[9], Logs.SplitLogs(row[4]))
  }

  // ---------------------------------------------------------------------
  // The effect of one data row of each section

  /** A `mass` data row: the setting becomes column 8, whatever it was. */
  function SetMass(m: Model, row: Row): (r: Result<Model, Error>)
    ensures r.Err? <==> |row| < 9
    ensures r.Err? ==> r.error == ShortRow
  {
    if |row| < 9 then Err(ShortRow)
    else Ok(m.(setting := Some(Setting(row[8]))))
  }

  /**
   * A `rest_day` data row: registers one routine, id from column 4 and name
   * from column 5, with no sessions, replacing any routine with that id.
   */
  function AddRoutine(m: Model, row: Row): (r: Result<Model, Error>)
    ensures r.Err? <==> |row| < 6
    ensures r.Err? ==> r.error == ShortRow
  {
    if |row| < 6 then Err(ShortRow)
    else Ok(m.(routines := m.routines[row[4] := RoutineV(row[4], row[5], [])]))
  }

  /**
   * A `workout_time` data row: creates a session with id column 1 and the
   * start time converted from column 12, stores it under its id (replacing
   * any earlier one) and appends it to the routine named in column 4 when
   * that routine is known; no other routine changes.
   */
  function AddSession(m: Model, row: Row, clock: Clock): (r: Result<Model, Error>)
    ensures r.Err? <==> |row| < 13 || clock(row[12]).None?
    ensures r.Err? ==> r.error == if |row| < 13 then ShortRow else BadTimestamp(row[12])
  {
    if |row| < 13 then Err(ShortRow)
    else
      var workoutId, routineId, epoch := row[1], row[4], row[12];
      match clock(epoch)
      case None => Err(BadTimestamp(epoch))
      case Some(startTime) =>
        var identity := |m.sessions|;
        var routines :=
          if routineId in m.routines then
            var routine := m.routines[routineId];
            m.routines[routineId := routine.(workoutSessions := routine.workoutSessions + [identity])]
          else m.routines;
        Ok(m.(sessions := m.sessions + [SessionV(workoutId, startTime, [], [])],
              workoutSessions := m.workoutSessions[workoutId := identity],
              routines := routines))
  }

  /**
   * A `belongsession` data row: appends the exercise log of the row to the
   * session the dictionary holds under column 11, and to no other session;
   * fails when that id is not in the dictionary.
   */
  function AddExercise(m: Model, row: Row): (r: Result<Model, Error>)
    ensures r.Err? <==> |row| < 12 || row[11] !in m.workoutSessions
    ensures r.Err? ==> r.error == if |row| < 12 then ShortRow else UnknownSession(row[11])
  {
    if |row| < 12 then Err(ShortRow)
    else
      var log := ExerciseOf(row);
      var sessionId := row[11];
      if sessionId !in m.workoutSessions then Err(UnknownSession(sessionId))
      else
        Ok(m.(sessions := AppendExercise(m.sessions, m.workoutSessions[sessionId], log)))
  }

  /**
   * `log` appended to the exercises of the session with identity `i`. In a
   * well-formed model (WF) every identity in the dictionary names a session,
   * so the second branch is never taken on the way from `Empty`.
   */
  function AppendExercise(sessions: seq<SessionV>, i: nat, log: ExerciseLog): seq<SessionV>
  {
    if i < |sessions| then sessions[i := sessions[i].(exercises := sessions[i].exercises + [log])]
    else sessions
  }

  /** `c` attached to every session of `live` whose start time contains its date. */
  function AttachCardio(sessions: seq<SessionV>, live: set<nat>, c: CardioLog): (r: seq<SessionV>)
    ensures |r| == |sessions|
    ensures forall i :: 0 <= i < |sessions| ==>
              r[i].id == sessions[i].id && r[i].startTime == sessions[i].startTime &&
              r[i].exercises == sessions[i].exercises
    ensures forall i :: 0 <= i < |sessions| ==>
              r[i].cardioLogs == sessions[i].cardioLogs +
                if i in live && Contains(sessions[i].startTime, c.date) then [c] else []
  {
    seq(|sessions|, i requires 0 <= i < |sessions| =>
      if i in live && Contains(sessions[i].startTime, c.date)
      then sessions[i].(cardioLogs := sessions[i].cardioLogs + [c])
      else sessions[i])
  }

  /**
   * A `speed` data row: appends its cardio log to the cardio-log list and to
   * every session in the dictionary whose start time contains the log's date.
   */
  function AddCardio(m: Model, row: Row): (r: Result<Model, Error>)
    ensures r.Err? <==> |row| < 11
    ensures r.Err? ==> r.error == ShortRow
  {
    if |row| < 11 then Err(ShortRow)
    else
      var c := CardioOf(row);
      Ok(m.(cardioLogs := m.cardioLogs + [c], sessions := AttachCardio(m.sessions, Live(m), c)))
  }

  /** A `mynote` data row: appends its note to the note list; nothing else changes. */
  function AddNote(m: Model, row: Row): (r: Result<Model, Error>)
    ensures r.Err? <==> |row| < 9
    ensures r.Err? ==> r.error == ShortRow
  {
    if |row| < 9 then Err(ShortRow)
    else Ok(m.(notes := m.notes + [NoteOf(row)]))
  }

  /** The effect of one data row of section `s`. */
  function ApplyRow(s: Section, m: Model, row: Row, clock: Clock): (r: Result<Model, Error>)
  {
    match s
    case Mass => SetMass(m, row)
    case RestDay => AddRoutine(m, row)
    case WorkoutTime => AddSession(m, row, clock)
    case BelongSession => AddExercise(m, row)
    case Speed => AddCardio(m, row)
    case MyNote => AddNote(m, row)
  }

  // ---------------------------------------------------------------------
  // Reading the rows

  /**
   * A section body read from row `p` on: each non-empty row is applied in
   * turn, and the first empty row ends the section (it is consumed, the
   * result's index is the row after it). Running out of rows before that
   * empty row is `Truncated`.
   */
  function Loop(rows: seq<Row>, clock: Clock, s: Section, p: nat, m: Model): (r: Result<(Model, nat), Error>)
    ensures r.Ok? ==> p < r.value.1 <= |rows|
    decreases |rows| - p
  {
    if p >= |rows| then Err(Truncated)
    else if rows[p] == [] then Ok((m, p + 1))
    else
      match ApplyRow(s, m, rows[p], clock)
      case Err(e) => Err(e)
      case Ok(m') => Loop(rows, clock, s, p + 1, m')
  }

  /**
   * One turn of the outer `for` loop on row `pos`: a row without a marker is
   * passed over; a header row is followed by one data row (`mass`,
   * `rest_day`) or by a section body; the result's index is the first row
   * not yet consumed.
   */
  function Step(rows: seq<Row>, clock: Clock, pos: nat, m: Model): (r: Result<(Model, nat), Error>)
    requires pos < |rows|
    ensures r.Ok? ==> pos < r.value.1 <= |rows|
  {
    match SectionOf(rows[pos])
    case None => Ok((m, pos + 1))
    case Some(s) =>
      if SingleRow(s) then
        if pos + 1 >= |rows| then Err(Truncated)
        else
          match ApplyRow(s, m, rows[pos + 1], clock)
          case Err(e) => Err(e)
          case Ok(m') => Ok((m', pos + 2))
      else Loop(rows, clock, s, pos + 1, m)
  }

  /** All turns of the outer loop from row `pos` to the end of the input. */
  function Run(rows: seq<Row>, clock: Clock, pos: nat, m: Model): (r: Result<Model, Error>)
    requires pos <= |rows|
    decreases |rows| - pos
  {
    if pos == |rows| then Ok(m)
    else
      match Step(rows, clock, pos, m)
      case Err(e) => Err(e)
      case Ok((m', pos')) => Run(rows, clock, pos', m')
  }

  /** `read_csv` on the rows of an export: the five collections, or why it failed. */
  function Parse(rows: seq<Row>, clock: Clock): Result<Model, Error>
  {
    Run(rows, clock, 0, Empty)
  }
}
