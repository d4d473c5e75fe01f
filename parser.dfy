/**
 * `read_csv` as the original runs it: one pass over the rows with a cursor
 * that `next()` advances, dictionaries and lists updated in place, and
 * session objects shared between the session dictionary and the routines.
 * Every method is proved to have the effect of the corresponding function
 * of module Demux on the value `model` the objects stand for.
 */
module Parsing {
  import opened Wrappers
  import opened Records
  import opened Demux
  import opened Objects
  import Logs

  /** Attaching to one more session changes that session only, exactly as one `add_cardio_log` would. */
  lemma AttachCardioStep(sessions: seq<SessionV>, done: set<nat>, c: CardioLog, i: nat)
    requires i !in done && i < |sessions|
    ensures var prev := AttachCardio(sessions, done, c);
      AttachCardio(sessions, done + {i}, c) ==
        if Contains(prev[i].startTime, c.date)
        then prev[i := prev[i].(cardioLogs := prev[i].cardioLogs + [c])]
        else prev
  {
  }

  /**
   * Proof helper: taking an element out of a finite set makes it smaller,
   * stated as a ground fact for the cardio loop's termination measure.
   */
  lemma Shrinks<T>(s: set<T>, x: T)
    requires x in s
    ensures |s - {x}| < |s|
  {
  }

  /** Before the cardio loop no session has had its turn. */
  lemma AttachCardioNone(sessions: seq<SessionV>, c: CardioLog)
    ensures AttachCardio(sessions, {}, c) == sessions
  {
  }

  /** Like `Agrees`, for a result that also says where the cursor stops. */
  ghost predicate AgreesAt(err: Option<Error>, spec: Result<(Model, nat), Error>, now: Model, at: nat)
  {
    match spec
    case Ok((m, p)) => err.None? && now == m && at == p
    case Err(e) => err == Some(e)
  }

  /** Visiting `w` moves exactly the entries that hold `w` from to-do to done. */
  lemma TodoStep(stored: map<string, WorkoutSession>, todo: set<WorkoutSession>, done: set<nat>, w: WorkoutSession)
    requires forall k :: k in stored ==> (stored[k] in todo <==> stored[k].identity !in done)
    requires forall k :: k in stored ==> (stored[k] == w <==> stored[k].identity == w.identity)
    ensures forall k :: k in stored ==> (stored[k] in todo - {w} <==> stored[k].identity !in done + {w.identity})
  {
  }

  /** A method's outcome agrees with a specification result on the state `now`. */
  ghost predicate Agrees(err: Option<Error>, spec: Result<Model, Error>, now: Model)
  {
    match spec
    case Ok(m) => err.None? && now == m
    case Err(e) => err == Some(e)
  }

  /** The local state of `read_csv` while it reads `rows`. */
  class Parser {
    /** The rows `csv.reader` yields, and the cursor `next()` advances. */
    const rows: seq<Row>
    var pos: nat

    /** `epoch_to_datetime`. */
    const toStartTime: Clock

    var setting: Option<Setting>
    var routines: map<string, Routine>
    var workoutSessions: map<string, WorkoutSession>
    var cardioLogs: seq<CardioLog>
    var notes: seq<Note>

    /** Every session object created so far, in creation order. */
    ghost var created: seq<WorkoutSession>
    /** Every object the parser owns. */
    ghost var Repr: set<object>
    /** The value of the five collections and of the sessions they share. */
    ghost var model: Model

    /**
     * The objects agree with `model`: session `i` is the `i`-th object
     * created, the dictionaries and the routines' lists hold those very
     * objects (the dictionaries under their own ids), and each object's
     * current value is the one `model` records.
     */
    ghost predicate Valid()
      reads this, Repr
    {
      this in Repr && pos <= |rows| &&
      setting == model.setting && cardioLogs == model.cardioLogs && notes == model.notes &&
      |created| == |model.sessions| &&
      (forall i :: 0 <= i < |created| ==>
        created[i] in Repr && created[i].identity == i &&
        created[i].id == model.sessions[i].id && created[i].startTime == model.sessions[i].startTime &&
        created[i].exercises == model.sessions[i].exercises && created[i].cardioLogs == model.sessions[i].cardioLogs) &&
      workoutSessions.Keys == model.workoutSessions.Keys &&
      (forall k :: k in workoutSessions ==>
        model.workoutSessions[k] < |created| && created[model.workoutSessions[k]] == workoutSessions[k]) &&
      routines.Keys == model.routines.Keys &&
      (forall k :: k in routines ==>
        routines[k] in Repr && routines[k].id == k && model.routines[k].id == k &&
        routines[k].name == model.routines[k].name &&
        Identities(routines[k].workoutSessions) == model.routines[k].workoutSessions) &&
      (forall k, j :: k in routines && 0 <= j < |routines[k].workoutSessions| ==>
        routines[k].workoutSessions[j].identity < |created| &&
        created[routines[k].workoutSessions[j].identity] == routines[k].workoutSessions[j])
    }

    /** `read_csv`'s start: nothing read, nothing collected. */
    constructor (rows: seq<Row>, toStartTime: Clock)
      ensures Valid() && fresh(Repr)
      ensures this.rows == rows && this.toStartTime == toStartTime && pos == 0
      ensures model == Empty
    {
      this.rows := rows;
      this.toStartTime := toStartTime;
      pos := 0;
      setting := None;
      routines := map[];
      workoutSessions := map[];
      cardioLogs := [];
      notes := [];
      created := [];
      Repr := {this};
      model := Empty;
    }

    /** `next(csv_reader)`: the next row, or none when the rows are exhausted. */
    method Next() returns (line: Option<Row>)
      requires Valid()
      modifies this`pos
      ensures Valid()
      ensures old(pos) < |rows| ==> line == Some(rows[old(pos)]) && pos == old(pos) + 1
      ensures old(pos) >= |rows| ==> line == None && pos == old(pos)
    {
      if pos < |rows| {
        line := Some(rows[pos]);
        pos := pos + 1;
      } else {
        line := None;
      }
    }

    /** A `mass` data row. */
    method MassRow(line: Row) returns (err: Option<Error>)
      requires Valid()
      modifies this`setting, this`model
      ensures Valid() && Agrees(err, SetMass(old(model), line), model)
    {
      if |line| < 9 {
        return Some(ShortRow);
      }
      setting := Some(Setting(line[8]));
      model := SetMass(model, line).value;
      err := None;
    }

    /** A `rest_day` data row. */
    method RoutineRow(line: Row) returns (err: Option<Error>)
      requires Valid()
      modifies this`routines, this`Repr, this`model
      ensures Valid() && fresh(Repr - old(Repr))
      ensures Agrees(err, AddRoutine(old(model), line), model)
    {
      if |line| < 6 {
        return Some(ShortRow);
      }
      var routineId, name := line[4], line[5];
      var routine := new Routine(routineId, name);
      routines := routines[routine.id := routine];
      Repr := Repr + {routine};
      model := AddRoutine(model, line).value;
      err := None;
    }

    /** A `workout_time` data row. */
    method SessionRow(line: Row) returns (err: Option<Error>)
      requires Valid()
      modifies this`workoutSessions, this`created, this`Repr, this`model, routines.Values
      ensures Valid() && fresh(Repr - old(Repr)) && routines == old(routines)
      ensures Agrees(err, AddSession(old(model), line, toStartTime), model)
    {
      if |line| < 13 {
        return Some(ShortRow);
      }
      var workoutId, routineId, epoch := line[1], line[4], line[12];
      var startTime := toStartTime(epoch);
      if startTime.None? {
        return Some(BadTimestamp(epoch));
      }
      var workoutSession := new WorkoutSession(workoutId, startTime.value, |created|);
      Store(workoutSession);
      if routineId in routines {
        Link(routines[routineId], workoutSession);
      }
      err := None;
    }

    /** `workout_sessions[workout_id] = workout_session` for a new session. */
    method Store(workoutSession: WorkoutSession)
      requires Valid() && workoutSession !in Repr && workoutSession.identity == |created|
      requires workoutSession.exercises == [] && workoutSession.cardioLogs == []
      modifies this`workoutSessions, this`created, this`Repr, this`model
      ensures Valid() && Repr == old(Repr) + {workoutSession} && created == old(created) + [workoutSession]
      ensures workoutSessions == old(workoutSessions)[workoutSession.id := workoutSession]
      ensures model == old(model).(
        sessions := old(model).sessions + [SessionV(workoutSession.id, workoutSession.startTime, [], [])],
        workoutSessions := old(model).workoutSessions[workoutSession.id := |old(created)|])
    {
      var id := workoutSession.id;
      ghost var s0, m0 := created, model;
      workoutSessions := workoutSessions[id := workoutSession];
      created := created + [workoutSession];
      Repr := Repr + {workoutSession};
      model := model.(
        sessions := model.sessions + [SessionV(id, workoutSession.startTime, [], [])],
        workoutSessions := model.workoutSessions[id := |s0|]);
      forall i | 0 <= i < |created|
        ensures created[i] in Repr && created[i].identity == i &&
          created[i].id == model.sessions[i].id && created[i].startTime == model.sessions[i].startTime &&
          created[i].exercises == model.sessions[i].exercises && created[i].cardioLogs == model.sessions[i].cardioLogs
      {
        if i < |s0| {
          assert created[i] == s0[i] && model.sessions[i] == m0.sessions[i];
        }
      }
      forall k | k in workoutSessions
        ensures model.workoutSessions[k] < |created| && created[model.workoutSessions[k]] == workoutSessions[k]
      {
        if k != id {
          assert created[model.workoutSessions[k]] == s0[m0.workoutSessions[k]];
        }
      }
    }

    /** `routine.add_workout_session(workout_session)` for a stored session. */
    method Link(routine: Routine, workoutSession: WorkoutSession)
      requires Valid() && routine in routines.Values
      requires workoutSession.identity < |created| && created[workoutSession.identity] == workoutSession
      modifies routine, this`model
      ensures Valid() && routine.workoutSessions == old(routine.workoutSessions) + [workoutSession]
      ensures model == old(model).(routines := old(model).routines[routine.id :=
        old(model).routines[routine.id].(workoutSessions :=
          old(model).routines[routine.id].workoutSessions + [workoutSession.identity])])
    {
      ghost var r0, m0 := routine.workoutSessions, model;
      IdentitiesAppend(r0, workoutSession);
      routine.AddWorkoutSession(workoutSession);
      model := model.(routines := model.routines[routine.id :=
        model.routines[routine.id].(workoutSessions := model.routines[routine.id].workoutSessions + [workoutSession.identity])]);
      forall k | k in routines
        ensures routines[k] in Repr && routines[k].id == k && model.routines[k].id == k &&
          routines[k].name == model.routines[k].name &&
          Identities(routines[k].workoutSessions) == model.routines[k].workoutSessions
      {
        if k != routine.id {
          assert routines[k] != routine && model.routines[k] == m0.routines[k];
        }
      }
      forall k, j | k in routines && 0 <= j < |routines[k].workoutSessions|
        ensures routines[k].workoutSessions[j].identity < |created| &&
          created[routines[k].workoutSessions[j].identity] == routines[k].workoutSessions[j]
      {
        if routines[k] == routine && j == |r0| {
          assert routines[k].workoutSessions[j] == workoutSession;
        } else {
          assert routines[k].workoutSessions[j] == old(routines[k].workoutSessions[j]);
        }
      }
    }

    /** A `belongsession` data row. */
    method ExerciseRow(line: Row) returns (err: Option<Error>)
      requires Valid()
      modifies this`model, created
      ensures Valid()
      ensures Agrees(err, AddExercise(old(model), line), model)
    {
      if |line| < 12 {
        return Some(ShortRow);
      }
      var logsStr, exerciseName, workoutSessionId := line[4], line[9], line[11];
      var logs := Logs.SplitLogs(logsStr);
      var exerciseLog := ExerciseLog(exerciseName, logs);
      if workoutSessionId !in workoutSessions {
        return Some(UnknownSession(workoutSessionId));
      }
      Enter(workoutSessions[workoutSessionId], exerciseLog, workoutSessionId);
      err := None;
    }

    /** `workout_session.add_exercise(exercise_log)` for the session stored under `key`. */
    method Enter(workoutSession: WorkoutSession, exerciseLog: ExerciseLog, ghost key: string)
      requires Valid() && key in workoutSessions && workoutSessions[key] == workoutSession
      modifies workoutSession, this`model
      ensures Valid()
      ensures model == old(model).(sessions := AppendExercise(old(model).sessions, old(model).workoutSessions[key], exerciseLog))
    {
      workoutSession.AddExercise(exerciseLog);
      model := model.(sessions := AppendExercise(model.sessions, model.workoutSessions[key], exerciseLog));
    }

    /** A `speed` data row. */
    method CardioRow(line: Row) returns (err: Option<Error>)
      requires Valid()
      modifies this`cardioLogs, this`model, created
      ensures Valid()
      ensures Agrees(err, AddCardio(old(model), line), model)
    {
      if |line| < 11 {
        return Some(ShortRow);
      }
      var id, eid, duration, distance, date := line[3], line[5], line[8], line[10], line[|line| - 1];
      var cardioLog := CardioLog(id, eid, duration, distance, date);
      cardioLogs := cardioLogs + [cardioLog];
      model := model.(cardioLogs := cardioLogs);
      AttachAll(cardioLog);
      err := None;
    }

    /**
     * The cardio loop part-way: the sessions of `base` whose identities are
     * in `done` have had their turn, and `todo` holds the stored objects
     * still to visit.
     */
    ghost predicate Visiting(cardioLog: CardioLog, base: Model, todo: set<WorkoutSession>, done: set<nat>)
      reads this, Repr
    {
      Valid() && model == base.(sessions := AttachCardio(base.sessions, done, cardioLog)) &&
      todo <= workoutSessions.Values && done <= Live(base) &&
      forall k :: k in workoutSessions ==>
        workoutSessions[k].identity == base.workoutSessions[k] &&
        (workoutSessions[k] in todo <==> workoutSessions[k].identity !in done)
    }

    /**
     * `for workout_session in workout_sessions.values()`: the cardio log
     * goes to every stored session whose start time contains its date.
     */
    method AttachAll(cardioLog: CardioLog)
      requires Valid()
      modifies this`model, workoutSessions.Values
      ensures Valid()
      ensures model == old(model).(sessions := AttachCardio(old(model).sessions, Live(old(model)), cardioLog))
    {
      ghost var m0 := model;
      ghost var done: set<nat> := {};
      var todo := workoutSessions.Values;
      AttachCardioNone(m0.sessions, cardioLog);
      while todo != {}
        invariant Visiting(cardioLog, m0, todo, done) && workoutSessions == old(workoutSessions)
        decreases |todo|
      {
        var workoutSession: WorkoutSession :| workoutSession in todo;
        todo, done := Visit(workoutSession, cardioLog, m0, todo, done);
      }
      VisitedAll(cardioLog, m0, done);
    }

    /** With nothing left to visit, every stored session has had its turn. */
    lemma VisitedAll(cardioLog: CardioLog, base: Model, done: set<nat>)
      requires Visiting(cardioLog, base, {}, done)
      ensures done == Live(base)
    {
      forall j | j in Live(base)
        ensures j in done
      {
        var k :| k in base.workoutSessions && base.workoutSessions[k] == j;
        assert workoutSessions[k] in workoutSessions.Values;
      }
    }

    /** Two stored sessions are the same object exactly when they have the same identity. */
    lemma IdentityTells(key: string)
      requires Valid() && key in workoutSessions
      ensures forall k :: k in workoutSessions ==>
        (workoutSessions[k] == workoutSessions[key] <==> workoutSessions[k].identity == workoutSessions[key].identity)
    {
    }

    /** One turn of the cardio loop: the session gets the log when its start time contains the date. */
    method Visit(workoutSession: WorkoutSession, cardioLog: CardioLog, ghost base: Model, todo: set<WorkoutSession>, ghost done: set<nat>)
      returns (todo': set<WorkoutSession>, ghost done': set<nat>)
      requires Visiting(cardioLog, base, todo, done) && workoutSession in todo
      modifies workoutSession, this`model
      ensures Visiting(cardioLog, base, todo', done') && |todo'| < |todo| && workoutSessions == old(workoutSessions)
    {
      ghost var key :| key in workoutSessions && workoutSessions[key] == workoutSession;
      ghost var i := workoutSession.identity;
      IdentityTells(key);
      TodoStep(workoutSessions, todo, done, workoutSession);
      AttachCardioStep(base.sessions, done, cardioLog, i);
      if Contains(workoutSession.startTime, cardioLog.date) {
        Attach(workoutSession, cardioLog, key);
      }
      todo', done' := todo - {workoutSession}, done + {i};
      Shrinks(todo, workoutSession);
    }

    /** `workout_session.add_cardio_log(cardio_log)` for the session stored under `key`. */
    method Attach(workoutSession: WorkoutSession, cardioLog: CardioLog, ghost key: string)
      requires Valid() && key in workoutSessions && workoutSessions[key] == workoutSession
      modifies workoutSession, this`model
      ensures Valid() && workoutSessions == old(workoutSessions) && created == old(created)
      ensures model == old(model).(sessions := old(model).sessions[old(model).workoutSessions[key] :=
        old(model).sessions[old(model).workoutSessions[key]].(cardioLogs :=
          old(model).sessions[old(model).workoutSessions[key]].cardioLogs + [cardioLog])])
    {
      workoutSession.AddCardioLog(cardioLog);
      var i := model.workoutSessions[key];
      model := model.(sessions := model.sessions[i := model.sessions[i].(cardioLogs := model.sessions[i].cardioLogs + [cardioLog])]);
    }

    /** A `mynote` data row. */
    method NoteRow(line: Row) returns (err: Option<Error>)
      requires Valid()
      modifies this`notes, this`model
      ensures Valid() && Agrees(err, AddNote(old(model), line), model)
    {
      if |line| < 9 {
        return Some(ShortRow);
      }
      var eid, text, date := line[4], line[6], line[8];
      notes := notes + [Note(eid, text, date)];
      model := AddNote(model, line).value;
      err := None;
    }

    /** One data row of a section body, handled as that section's `while` loop does. */
    method DataRow(s: Section, line: Row) returns (err: Option<Error>)
      requires Valid() && !SingleRow(s)
      modifies this`workoutSessions, this`created, this`Repr, this`model, this`cardioLogs, this`notes, Repr - {this}
      ensures Valid() && fresh(Repr - old(Repr)) && routines == old(routines)
      ensures Agrees(err, ApplyRow(s, old(model), line, toStartTime), model)
    {
      match s
      case WorkoutTime => err := SessionRow(line);
      case BelongSession => err := ExerciseRow(line);
      case Speed => err := CardioRow(line);
      case MyNote => err := NoteRow(line);
    }

    /**
     * `line = next(csv_reader)` followed by `while (line): ...`: the data
     * rows of section `s` up to and including the first empty row.
     */
    method Body(s: Section) returns (err: Option<Error>)
      requires Valid() && !SingleRow(s)
      modifies this`pos, this`workoutSessions, this`created, this`Repr, this`model, this`cardioLogs, this`notes, Repr - {this}
      ensures Valid() && fresh(Repr - old(Repr)) && routines == old(routines)
      ensures AgreesAt(err, Loop(rows, toStartTime, s, old(pos), old(model)), model, pos)
    {
      var line := Next();
      if line.None? {
        return Some(Truncated);
      }
      while line.value != []
        invariant Valid() && fresh(Repr - old(Repr)) && routines == old(routines)
        invariant 0 < pos <= |rows| && line == Some(rows[pos - 1])
        invariant Loop(rows, toStartTime, s, old(pos), old(model)) == Loop(rows, toStartTime, s, pos - 1, model)
        decreases |rows| - pos
      {
        err, line := Item(s, line.value);
        if err.Some? {
          return;
        }
      }
      err := None;
    }

    /** One turn of a section body's `while (line)`: the data row `line`, then `next(csv_reader)`. */
    method Item(s: Section, line: Row) returns (err: Option<Error>, next: Option<Row>)
      requires Valid() && !SingleRow(s) && 0 < pos <= |rows| && rows[pos - 1] == line && line != []
      modifies this`pos, this`workoutSessions, this`created, this`Repr, this`model, this`cardioLogs, this`notes, Repr - {this}
      ensures Valid() && fresh(Repr - old(Repr)) && routines == old(routines)
      ensures err.Some? ==> Loop(rows, toStartTime, s, old(pos) - 1, old(model)) == Err(err.value)
      ensures err.None? ==> (next.Some? && pos == old(pos) + 1 && pos <= |rows| && next == Some(rows[pos - 1]) &&
        Loop(rows, toStartTime, s, old(pos) - 1, old(model)) == Loop(rows, toStartTime, s, pos - 1, model))
    {
      err := DataRow(s, line);
      if err.Some? {
        return err, None;
      }
      next := Next();
      if next.None? {
        err := Some(Truncated);
      }
    }

    /**
     * `line = next(csv_reader)` followed by the one data row of a `mass` or
     * `rest_day` section.
     */
    method Single(s: Section) returns (err: Option<Error>)
      requires Valid() && SingleRow(s)
      modifies this`pos, this`setting, this`routines, this`Repr, this`model
      ensures Valid() && fresh(Repr - old(Repr))
      ensures old(pos) >= |rows| ==> err == Some(Truncated)
      ensures old(pos) < |rows| ==> pos == old(pos) + 1 && Agrees(err, ApplyRow(s, old(model), rows[old(pos)], toStartTime), model)
    {
      var line := Next();
      if line.None? {
        return Some(Truncated);
      }
      if s == Mass {
        err := MassRow(line.value);
      } else {
        err := RoutineRow(line.value);
      }
    }

    /**
     * One turn of the `for line in csv_reader` loop: a row without a marker
     * (an empty row included) is passed over, and a header row hands the
     * rows after it to its section, the markers tested in a fixed order.
     */
    method Turn() returns (err: Option<Error>)
      requires Valid() && pos < |rows|
      modifies this`pos, this`setting, this`routines, this`workoutSessions, this`created, this`Repr, this`model, this`cardioLogs, this`notes, Repr - {this}
      ensures Valid() && fresh(Repr - old(Repr))
      ensures AgreesAt(err, Step(rows, toStartTime, old(pos), old(model)), model, pos)
    {
      var line := Next();
      var row := line.value;
      err := None;
      if row != [] {
        if "mass" in row {
          err := Single(Mass);
        } else if "rest_day" in row {
          err := Single(RestDay);
        } else if "workout_time" in row {
          err := Body(WorkoutTime);
        } else if "belongsession" in row {
          err := Body(BelongSession);
        } else if "speed" in row {
          err := Body(Speed);
        } else if "mynote" in row {
          err := Body(MyNote);
        }
      }
    }

    /** The `for line in csv_reader` loop from the cursor to the end of the rows. */
    method Read() returns (err: Option<Error>)
      requires Valid()
      modifies this`pos, this`setting, this`routines, this`workoutSessions, this`created, this`Repr, this`model, this`cardioLogs, this`notes, Repr - {this}
      ensures Valid() && fresh(Repr - old(Repr))
      ensures Agrees(err, Run(rows, toStartTime, old(pos), old(model)), model)
    {
      while pos < |rows|
        invariant Valid() && fresh(Repr - old(Repr))
        invariant Run(rows, toStartTime, old(pos), old(model)) == Run(rows, toStartTime, pos, model)
        decreases |rows| - pos
      {
        err := Turn();
        if err.Some? {
          return;
        }
      }
      err := None;
    }
  }

  /** `read_csv(filename)` on the rows of the file, with `epoch_to_datetime` as `toStartTime`. */
  method ReadCsv(rows: seq<Row>, toStartTime: Clock) returns (parser: Parser, err: Option<Error>)
    ensures parser.Valid() && parser.rows == rows && parser.toStartTime == toStartTime
    ensures Agrees(err, Parse(rows, toStartTime), parser.model)
    // a session reached through the dictionary or through a routine is the
    // object whose logs `model` records under that entry's identity
    ensures forall k :: k in parser.workoutSessions ==>
      var i := parser.model.workoutSessions[k];
      parser.workoutSessions[k].identity == i && i < |parser.model.sessions| &&
      parser.workoutSessions[k].exercises == parser.model.sessions[i].exercises &&
      parser.workoutSessions[k].cardioLogs == parser.model.sessions[i].cardioLogs
    ensures forall k, j :: k in parser.routines && 0 <= j < |parser.routines[k].workoutSessions| ==>
      var i := parser.model.routines[k].workoutSessions[j];
      parser.routines[k].workoutSessions[j].identity == i && i < |parser.model.sessions| &&
      parser.routines[k].workoutSessions[j].exercises == parser.model.sessions[i].exercises &&
      parser.routines[k].workoutSessions[j].cardioLogs == parser.model.sessions[i].cardioLogs
  {
    parser := new Parser(rows, toStartTime);
    err := parser.Read();
  }
}
