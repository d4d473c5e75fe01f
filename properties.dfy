/**
 * What `read_csv` guarantees, stated about the specification in module
 * Demux: which rows a section consumes, what each section adds to the five
 * collections (against reference definitions over the section's rows), and
 * when the parse fails.
 */
module Properties {
  import opened Wrappers
  import opened Records
  import opened Demux

  // ---------------------------------------------------------------------
  // Reference definitions over the data rows of one section

  /** The session values a block of `workout_time` rows creates, in row order. */
  function SessionsOf(block: seq<Row>, clock: Clock): seq<SessionV>
    requires forall r :: r in block ==> |r| >= 13 && clock(r[12]).Some?
  {
    if |block| == 0 then []
    else [SessionV(block[0][1], clock(block[0][12]).value, [], [])] + SessionsOf(block[1..], clock)
  }

  /** The session ids (column 1) of a block of `workout_time` rows. */
  function IdsOf(block: seq<Row>): set<string>
    requires forall r :: r in block ==> |r| >= 2
  {
    if |block| == 0 then {} else {block[0][1]} + IdsOf(block[1..])
  }

  /**
   * The position in the block of the last row whose session id (column 1)
   * is `k`: the row whose session the dictionary keeps under `k`.
   */
  function LastWith(block: seq<Row>, k: string): (r: nat)
    requires forall r :: r in block ==> |r| >= 2
    requires k in IdsOf(block)
    ensures r < |block| && block[r][1] == k
    ensures forall j :: r < j < |block| ==> block[j][1] != k
    decreases |block|
  {
    if k in IdsOf(block[1..]) then 1 + LastWith(block[1..], k)
    else
      IdsOfHas(block[1..], k);
      0
  }

  /** An id in no row of the block is not among its ids. */
  lemma {:induction false} IdsOfHas(block: seq<Row>, k: string)
    requires forall r :: r in block ==> |r| >= 2
    requires k !in IdsOf(block)
    ensures forall j :: 0 <= j < |block| ==> block[j][1] != k
    decreases |block|
  {
    if |block| > 0 {
      IdsOfHas(block[1..], k);
      assert forall j :: 1 <= j < |block| ==> block[j] == block[1..][j - 1];
    }
  }

  /**
   * The identities, counted from `base`, of the sessions in the block whose
   * routine id (column 4) is `k`, in row order.
   */
  function LinksTo(block: seq<Row>, k: string, base: nat): seq<nat>
    requires forall r :: r in block ==> |r| >= 5
  {
    if |block| == 0 then []
    else (if block[0][4] == k then [base] else []) + LinksTo(block[1..], k, base + 1)
  }

  /** The exercise logs of the rows whose session id names identity `i`, in row order. */
  function ExercisesFor(block: seq<Row>, ids: map<string, nat>, i: nat): seq<ExerciseLog>
    requires forall r :: r in block ==> |r| >= 12 && r[11] in ids
  {
    if |block| == 0 then []
    else (if ids[block[0][11]] == i then [ExerciseOf(block[0])] else []) + ExercisesFor(block[1..], ids, i)
  }

  /** The cardio logs of a block of `speed` rows, in row order. */
  function CardiosOf(block: seq<Row>): seq<CardioLog>
    requires forall r :: r in block ==> |r| >= 11
  {
    if |block| == 0 then [] else [CardioOf(block[0])] + CardiosOf(block[1..])
  }

  /** The cardio logs whose date occurs in `startTime`, in order. */
  function Matching(cs: seq<CardioLog>, startTime: string): seq<CardioLog>
  {
    if |cs| == 0 then []
    else (if Contains(startTime, cs[0].date) then [cs[0]] else []) + Matching(cs[1..], startTime)
  }

  /** The notes of a block of `mynote` rows, in row order. */
  function NotesOf(block: seq<Row>): seq<Note>
    requires forall r :: r in block ==> |r| >= 9
  {
    if |block| == 0 then [] else [NoteOf(block[0])] + NotesOf(block[1..])
  }

  // ---------------------------------------------------------------------
  // The effect of one data row

  /**
   * A `rest_day` data row registers one routine under its column 4, named
   * after column 5 and with no sessions; every other routine and every
   * other collection is left as it was.
   */
  lemma RoutineRowEffect(m: Model, row: Row)
    requires |row| >= 6
    ensures AddRoutine(m, row).Ok?
    ensures AddRoutine(m, row).value.routines.Keys == m.routines.Keys + {row[4]}
    ensures AddRoutine(m, row).value.routines[row[4]] == RoutineV(row[4], row[5], [])
    ensures forall k :: k in m.routines && k != row[4] ==> AddRoutine(m, row).value.routines[k] == m.routines[k]
    ensures AddRoutine(m, row).value == m.(routines := AddRoutine(m, row).value.routines)
  {
  }

  /**
   * A `workout_time` data row creates a new session (id column 1, start
   * time from column 12, no logs) and stores it under its id, replacing any
   * other entry for that id; no other collection changes.
   */
  lemma SessionRowEffect(m: Model, row: Row, clock: Clock)
    requires |row| >= 13 && clock(row[12]).Some?
    ensures AddSession(m, row, clock).Ok?
    ensures var r := AddSession(m, row, clock).value;
      r.sessions == m.sessions + [SessionV(row[1], clock(row[12]).value, [], [])] &&
      r.workoutSessions.Keys == m.workoutSessions.Keys + {row[1]} &&
      r.workoutSessions[row[1]] == |m.sessions| &&
      (forall k :: k in m.workoutSessions && k != row[1] ==> r.workoutSessions[k] == m.workoutSessions[k]) &&
      r.routines.Keys == m.routines.Keys &&
      r.setting == m.setting && r.cardioLogs == m.cardioLogs && r.notes == m.notes
  {
  }

  /**
   * The routine `k` a `workout_time` data row names in column 4, when
   * known, gains the new session at the end of its list; every other
   * routine is as it was.
   */
  lemma SessionRowRoutine(m: Model, row: Row, clock: Clock, k: string)
    requires |row| >= 13 && clock(row[12]).Some? && k in m.routines
    ensures AddSession(m, row, clock).Ok?
    ensures var r := AddSession(m, row, clock).value;
      |r.sessions| == |m.sessions| + 1 && k in r.routines &&
      r.routines[k].id == m.routines[k].id && r.routines[k].name == m.routines[k].name &&
      r.routines[k].workoutSessions == m.routines[k].workoutSessions + if k == row[4] then [|m.sessions|] else []
  {
  }

  /**
   * A `belongsession` data row whose session id is registered appends its
   * exercise log to exactly that session; nothing else changes.
   */
  lemma ExerciseRowEffect(m: Model, row: Row)
    requires WF(m) && |row| >= 12 && row[11] in m.workoutSessions
    ensures AddExercise(m, row).Ok?
    ensures var r := AddExercise(m, row).value;
      |r.sessions| == |m.sessions| &&
      (forall i :: 0 <= i < |m.sessions| ==>
         r.sessions[i] == if i == m.workoutSessions[row[11]]
                          then m.sessions[i].(exercises := m.sessions[i].exercises + [ExerciseOf(row)])
                          else m.sessions[i]) &&
      r == m.(sessions := r.sessions)
  {
  }

  /**
   * The same row seen from session `i`: its exercise list grows by the
   * row's log exactly when `i` is the session named in column 11.
   */
  lemma ExerciseRowAt(m: Model, row: Row, i: nat)
    requires WF(m) && |row| >= 12 && row[11] in m.workoutSessions && i < |m.sessions|
    ensures AddExercise(m, row).Ok?
    ensures var r := AddExercise(m, row).value;
      r.workoutSessions == m.workoutSessions && i < |r.sessions| &&
      r.sessions[i].id == m.sessions[i].id && r.sessions[i].startTime == m.sessions[i].startTime &&
      r.sessions[i].cardioLogs == m.sessions[i].cardioLogs &&
      r.sessions[i].exercises == m.sessions[i].exercises +
        if m.workoutSessions[row[11]] == i then [ExerciseOf(row)] else []
  {
  }

  /**
   * A `speed` data row appends its cardio log to the list and to each
   * session in the dictionary whose start time contains the log's date,
   * and to no other session.
   */
  lemma CardioRowEffect(m: Model, row: Row)
    requires |row| >= 11
    ensures AddCardio(m, row).Ok?
    ensures var r := AddCardio(m, row).value;
      r.cardioLogs == m.cardioLogs + [CardioOf(row)] &&
      |r.sessions| == |m.sessions| &&
      (forall i :: 0 <= i < |m.sessions| ==>
         r.sessions[i] == m.sessions[i].(cardioLogs := m.sessions[i].cardioLogs +
           if i in Live(m) && Contains(m.sessions[i].startTime, row[|row| - 1]) then [CardioOf(row)] else [])) &&
      r == m.(cardioLogs := r.cardioLogs, sessions := r.sessions)
  {
  }

  // ---------------------------------------------------------------------
  // Dispatch

  /** Rows without a marker, empty rows included, are passed over and change nothing. */
  lemma {:induction false} UnmarkedRowsSkipped(rows: seq<Row>, clock: Clock, p: nat, q: nat, m: Model)
    requires p <= q <= |rows|
    requires forall j, s: Section :: p <= j < q ==> Marker(s) !in rows[j]
    ensures Run(rows, clock, p, m) == Run(rows, clock, q, m)
    decreases q - p
  {
    if p < q {
      assert SectionOf(rows[p]).None?;
      UnmarkedRowsSkipped(rows, clock, p + 1, q, m);
    }
  }

  /** A header row that is the last row fails: `next()` finds no data row. */
  lemma HeaderAtEnd(rows: seq<Row>, clock: Clock, m: Model)
    requires |rows| > 0 && SectionOf(rows[|rows| - 1]).Some?
    ensures Step(rows, clock, |rows| - 1, m) == Err(Truncated)
  {
  }

  /**
   * A `mass` header takes exactly the next row and sets the setting from
   * its column 8, replacing any earlier setting.
   */
  lemma MassHeader(rows: seq<Row>, clock: Clock, pos: nat, m: Model)
    requires pos + 1 < |rows| && "mass" in rows[pos]
    ensures Step(rows, clock, pos, m) ==
              if |rows[pos + 1]| < 9 then Err(ShortRow)
              else Ok((m.(setting := Some(Setting(rows[pos + 1][8]))), pos + 2))
  {
  }

  /**
   * A `rest_day` header (without `mass`) takes exactly the next row and
   * registers one routine from its columns 4 and 5, with no sessions.
   */
  lemma RestDayHeader(rows: seq<Row>, clock: Clock, pos: nat, m: Model)
    requires pos + 1 < |rows| && "rest_day" in rows[pos] && "mass" !in rows[pos]
    ensures Step(rows, clock, pos, m) ==
              if |rows[pos + 1]| < 6 then Err(ShortRow)
              else Ok((m.(routines := m.routines[rows[pos + 1][4] := RoutineV(rows[pos + 1][4], rows[pos + 1][5], [])]), pos + 2))
  {
  }

  /** Any other header reads a section body from the next row on. */
  lemma BodyHeader(rows: seq<Row>, clock: Clock, pos: nat, m: Model, s: Section)
    requires pos < |rows| && SectionOf(rows[pos]) == Some(s) && !SingleRow(s)
    ensures Step(rows, clock, pos, m) == Loop(rows, clock, s, pos + 1, m)
  {
  }

  // ---------------------------------------------------------------------
  // Section bodies

  /**
   * A section body that succeeds ends at the first empty row from `p` on,
   * and consumes that row.
   */
  lemma {:induction false} LoopStopsAtFirstEmptyRow(rows: seq<Row>, clock: Clock, s: Section, p: nat, m: Model, m': Model, q: nat)
    requires Loop(rows, clock, s, p, m) == Ok((m', q))
    ensures p < q <= |rows| && rows[q - 1] == []
    ensures forall j :: p <= j < q - 1 ==> rows[j] != []
    decreases |rows| - p
  {
    if rows[p] != [] {
      var m1 := ApplyRow(s, m, rows[p], clock).value;
      LoopStopsAtFirstEmptyRow(rows, clock, s, p + 1, m1, m', q);
    }
  }

  /** Without an empty row from `p` to the end, a section body never yields a result. */
  lemma {:induction false} LoopNeedsTerminator(rows: seq<Row>, clock: Clock, s: Section, p: nat, m: Model)
    requires p <= |rows|
    requires forall j :: p <= j < |rows| ==> rows[j] != []
    ensures Loop(rows, clock, s, p, m).Err?
    decreases |rows| - p
  {
    if p < |rows| {
      match ApplyRow(s, m, rows[p], clock)
      case Err(_) =>
      case Ok(m1) => LoopNeedsTerminator(rows, clock, s, p + 1, m1);
    }
  }

  /** Proof helper: the data rows of a body are its first row followed by the data rows after it. */
  lemma BlockShape(rows: seq<Row>, p: nat, q: nat)
    requires p < q <= |rows| && rows[p] != [] && p + 1 < q
    ensures rows[p..q - 1] == [rows[p]] + rows[p + 1..q - 1]
  {
  }

  /** One data row of a successful body: it applies, and the rest of the body continues from there. */
  lemma LoopUnfold(rows: seq<Row>, clock: Clock, s: Section, p: nat, m: Model, m': Model, q: nat)
    requires Loop(rows, clock, s, p, m) == Ok((m', q)) && rows[p] != []
    ensures p + 1 < q && ApplyRow(s, m, rows[p], clock).Ok?
    ensures Loop(rows, clock, s, p + 1, ApplyRow(s, m, rows[p], clock).value) == Ok((m', q))
  {
  }

  /** A body that starts at an empty row consumes it and changes nothing. */
  lemma LoopEmpty(rows: seq<Row>, clock: Clock, s: Section, p: nat, m: Model, m': Model, q: nat)
    requires Loop(rows, clock, s, p, m) == Ok((m', q)) && rows[p] == []
    ensures m' == m && q == p + 1 && rows[p..q - 1] == []
  {
  }

  /**
   * A `workout_time` body creates one session per data row, in row order,
   * and adds no routine.
   */
  lemma {:induction false} SessionSectionCreates(rows: seq<Row>, clock: Clock, p: nat, m: Model, m': Model, q: nat)
    requires Loop(rows, clock, WorkoutTime, p, m) == Ok((m', q))
    ensures p < q && forall r :: r in rows[p..q - 1] ==> |r| >= 13 && clock(r[12]).Some?
    ensures m'.sessions == m.sessions + SessionsOf(rows[p..q - 1], clock)
    ensures m'.routines.Keys == m.routines.Keys
    ensures m'.setting == m.setting && m'.cardioLogs == m.cardioLogs && m'.notes == m.notes
    decreases |rows| - p
  {
    if rows[p] == [] {
      LoopEmpty(rows, clock, WorkoutTime, p, m, m', q);
    } else {
      LoopUnfold(rows, clock, WorkoutTime, p, m, m', q);
      assert ApplyRow(WorkoutTime, m, rows[p], clock) == AddSession(m, rows[p], clock);
      SessionRowEffect(m, rows[p], clock);
      var m1 := AddSession(m, rows[p], clock).value;
      SessionSectionCreates(rows, clock, p + 1, m1, m', q);
      BlockShape(rows, p, q);
      AppendAssoc(m.sessions, [SessionV(rows[p][1], clock(rows[p][12]).value, [], [])], SessionsOf(rows[p + 1..q - 1], clock));
    }
  }

  /** The well-formedness of the model survives every data row. */
  lemma ApplyRowWF(s: Section, m: Model, row: Row, clock: Clock)
    requires WF(m) && ApplyRow(s, m, row, clock).Ok?
    ensures WF(ApplyRow(s, m, row, clock).value)
  {
  }

  /** ... and every section body. */
  lemma {:induction false} LoopWF(rows: seq<Row>, clock: Clock, s: Section, p: nat, m: Model, m': Model, q: nat)
    requires WF(m) && Loop(rows, clock, s, p, m) == Ok((m', q))
    ensures WF(m')
    decreases |rows| - p
  {
    if rows[p] != [] {
      ApplyRowWF(s, m, rows[p], clock);
      LoopWF(rows, clock, s, p + 1, ApplyRow(s, m, rows[p], clock).value, m', q);
    }
  }

  /** ... and every turn of the outer loop. */
  lemma StepWF(rows: seq<Row>, clock: Clock, pos: nat, m: Model)
    requires pos < |rows| && WF(m) && Step(rows, clock, pos, m).Ok?
    ensures WF(Step(rows, clock, pos, m).value.0)
  {
    match SectionOf(rows[pos])
    case None =>
    case Some(s) =>
      if SingleRow(s) {
        ApplyRowWF(s, m, rows[pos + 1], clock);
      } else {
        var r := Step(rows, clock, pos, m).value;
        LoopWF(rows, clock, s, pos + 1, m, r.0, r.1);
      }
  }

  /**
   * A successful parse is well formed: every identity in the dictionary and
   * in the routines' lists names a created session, and every entry holds a
   * session or routine with its own key as id.
   */
  lemma ParseWF(rows: seq<Row>, clock: Clock)
    requires Parse(rows, clock).Ok?
    ensures WF(Parse(rows, clock).value)
  {
    RunWF(rows, clock, 0, Empty);
  }

  /** The outer loop keeps the model well formed from any well-formed state. */
  lemma {:induction false} RunWF(rows: seq<Row>, clock: Clock, pos: nat, m: Model)
    requires pos <= |rows| && WF(m) && Run(rows, clock, pos, m).Ok?
    ensures WF(Run(rows, clock, pos, m).value)
    decreases |rows| - pos
  {
    if pos < |rows| {
      StepWF(rows, clock, pos, m);
      var r := Step(rows, clock, pos, m).value;
      RunWF(rows, clock, r.1, r.0);
    }
  }

  /**
   * A `workout_time` body registers, for id `k`, a session created by the
   * body exactly when a data row carries `k` in column 1, and then it is the
   * session of the last such row (the body's sessions are created one per
   * row, in row order); otherwise `k`'s entry in the dictionary is as before.
   */
  lemma {:induction false} SessionSectionRegisters(rows: seq<Row>, clock: Clock, p: nat, m: Model, m': Model, q: nat, k: string)
    requires Loop(rows, clock, WorkoutTime, p, m) == Ok((m', q))
    ensures p < q && forall r :: r in rows[p..q - 1] ==> |r| >= 13
    ensures k in m'.workoutSessions <==> k in m.workoutSessions || k in IdsOf(rows[p..q - 1])
    ensures k in IdsOf(rows[p..q - 1]) ==> m'.workoutSessions[k] == |m.sessions| + LastWith(rows[p..q - 1], k)
    ensures k in m.workoutSessions && k !in IdsOf(rows[p..q - 1]) ==> m'.workoutSessions[k] == m.workoutSessions[k]
    decreases |rows| - p
  {
    if rows[p] == [] {
      LoopEmpty(rows, clock, WorkoutTime, p, m, m', q);
    } else {
      LoopUnfold(rows, clock, WorkoutTime, p, m, m', q);
      assert ApplyRow(WorkoutTime, m, rows[p], clock) == AddSession(m, rows[p], clock);
      SessionRowEffect(m, rows[p], clock);
      var m1 := AddSession(m, rows[p], clock).value;
      SessionSectionRegisters(rows, clock, p + 1, m1, m', q, k);
      BlockShape(rows, p, q);
    }
  }

  /**
   * A known routine `k` gains, at the end of its list and in row order,
   * exactly the sessions of the body whose column 4 names it; a session
   * naming an unknown routine joins no list.
   */
  lemma {:induction false} SessionSectionLinks(rows: seq<Row>, clock: Clock, p: nat, m: Model, m': Model, q: nat, k: string)
    requires Loop(rows, clock, WorkoutTime, p, m) == Ok((m', q)) && k in m.routines
    ensures p < q && forall r :: r in rows[p..q - 1] ==> |r| >= 13
    ensures k in m'.routines
    ensures m'.routines[k].id == m.routines[k].id && m'.routines[k].name == m.routines[k].name
    ensures m'.routines[k].workoutSessions == m.routines[k].workoutSessions + LinksTo(rows[p..q - 1], k, |m.sessions|)
    decreases |rows| - p
  {
    if rows[p] == [] {
      LoopEmpty(rows, clock, WorkoutTime, p, m, m', q);
    } else {
      LoopUnfold(rows, clock, WorkoutTime, p, m, m', q);
      assert ApplyRow(WorkoutTime, m, rows[p], clock) == AddSession(m, rows[p], clock);
      SessionRowRoutine(m, rows[p], clock, k);
      var m1 := AddSession(m, rows[p], clock).value;
      SessionSectionLinks(rows, clock, p + 1, m1, m', q, k);
      BlockShape(rows, p, q);
      assert rows[p..q - 1][1..] == rows[p + 1..q - 1];
      var before, head := m.routines[k].workoutSessions, if rows[p][4] == k then [|m.sessions|] else [];
      AppendAssoc(before, head, LinksTo(rows[p + 1..q - 1], k, |m.sessions| + 1));
    }
  }

  /**
   * Proof helper: associativity of `+` on sequences, stated once so that the
   * section lemmas get it as a ground fact instead of searching for it.
   */
  lemma AppendAssoc<T>(a: seq<T>, b: seq<T>, c: seq<T>)
    ensures (a + b) + c == a + (b + c)
  {
  }

  /**
   * A `belongsession` body names a registered session in every data row
   * (column 11), creates no session and changes nothing but sessions'
   * exercise lists.
   */
  lemma {:induction false} ExerciseSectionShape(rows: seq<Row>, clock: Clock, p: nat, m: Model, m': Model, q: nat)
    requires WF(m) && Loop(rows, clock, BelongSession, p, m) == Ok((m', q))
    ensures p < q && forall r :: r in rows[p..q - 1] ==> |r| >= 12 && r[11] in m.workoutSessions
    ensures |m'.sessions| == |m.sessions|
    ensures m' == m.(sessions := m'.sessions)
    decreases |rows| - p
  {
    if rows[p] == [] {
      LoopEmpty(rows, clock, BelongSession, p, m, m', q);
    } else {
      LoopUnfold(rows, clock, BelongSession, p, m, m', q);
      assert ApplyRow(BelongSession, m, rows[p], clock) == AddExercise(m, rows[p]);
      ExerciseRowEffect(m, rows[p]);
      ApplyRowWF(BelongSession, m, rows[p], clock);
      var m1 := AddExercise(m, rows[p]).value;
      ExerciseSectionShape(rows, clock, p + 1, m1, m', q);
      BlockShape(rows, p, q);
    }
  }

  /**
   * A `belongsession` body appends to session `i`, in row order, exactly
   * the exercise logs of the rows whose session id names it, and changes
   * nothing else about that session.
   */
  lemma {:induction false} ExerciseSection(rows: seq<Row>, clock: Clock, p: nat, m: Model, m': Model, q: nat, i: nat)
    requires WF(m) && Loop(rows, clock, BelongSession, p, m) == Ok((m', q)) && i < |m.sessions|
    ensures p < q && forall r :: r in rows[p..q - 1] ==> |r| >= 12 && r[11] in m.workoutSessions
    ensures i < |m'.sessions|
    ensures m'.sessions[i].exercises == m.sessions[i].exercises + ExercisesFor(rows[p..q - 1], m.workoutSessions, i)
    ensures m'.sessions[i].id == m.sessions[i].id && m'.sessions[i].startTime == m.sessions[i].startTime
    ensures m'.sessions[i].cardioLogs == m.sessions[i].cardioLogs
    decreases |rows| - p
  {
    if rows[p] == [] {
      LoopEmpty(rows, clock, BelongSession, p, m, m', q);
    } else {
      LoopUnfold(rows, clock, BelongSession, p, m, m', q);
      assert ApplyRow(BelongSession, m, rows[p], clock) == AddExercise(m, rows[p]);
      ExerciseRowAt(m, rows[p], i);
      ApplyRowWF(BelongSession, m, rows[p], clock);
      var m1 := AddExercise(m, rows[p]).value;
      ExerciseSection(rows, clock, p + 1, m1, m', q, i);
      BlockShape(rows, p, q);
      var head := if m.workoutSessions[rows[p][11]] == i then [ExerciseOf(rows[p])] else [];
      AppendAssoc(m.sessions[i].exercises, head, ExercisesFor(rows[p + 1..q - 1], m.workoutSessions, i));
    }
  }

  /**
   * A `speed` body appends its cardio logs to the cardio-log list in row
   * order, creates no session and changes nothing but the list and
   * sessions' cardio lists.
   */
  lemma {:induction false} CardioSectionLogs(rows: seq<Row>, clock: Clock, p: nat, m: Model, m': Model, q: nat)
    requires Loop(rows, clock, Speed, p, m) == Ok((m', q))
    ensures p < q && forall r :: r in rows[p..q - 1] ==> |r| >= 11
    ensures m'.cardioLogs == m.cardioLogs + CardiosOf(rows[p..q - 1])
    ensures |m'.sessions| == |m.sessions|
    ensures m' == m.(cardioLogs := m'.cardioLogs, sessions := m'.sessions)
    decreases |rows| - p
  {
    if rows[p] == [] {
      LoopEmpty(rows, clock, Speed, p, m, m', q);
    } else {
      LoopUnfold(rows, clock, Speed, p, m, m', q);
      assert ApplyRow(Speed, m, rows[p], clock) == AddCardio(m, rows[p]);
      CardioRowEffect(m, rows[p]);
      var m1 := AddCardio(m, rows[p]).value;
      CardioSectionLogs(rows, clock, p + 1, m1, m', q);
      BlockShape(rows, p, q);
      AppendAssoc(m.cardioLogs, [CardioOf(rows[p])], CardiosOf(rows[p + 1..q - 1]));
    }
  }

  /**
   * A `speed` body appends to session `i`, in row order, exactly the cardio
   * logs whose date occurs in its start time when the dictionary holds `i`,
   * and none otherwise; nothing else about that session changes.
   */
  lemma {:induction false} CardioSection(rows: seq<Row>, clock: Clock, p: nat, m: Model, m': Model, q: nat, i: nat)
    requires Loop(rows, clock, Speed, p, m) == Ok((m', q)) && i < |m.sessions|
    ensures p < q && forall r :: r in rows[p..q - 1] ==> |r| >= 11
    ensures i < |m'.sessions|
    ensures m'.sessions[i].cardioLogs == m.sessions[i].cardioLogs +
              if i in Live(m) then Matching(CardiosOf(rows[p..q - 1]), m.sessions[i].startTime) else []
    ensures m'.sessions[i].id == m.sessions[i].id && m'.sessions[i].startTime == m.sessions[i].startTime
    ensures m'.sessions[i].exercises == m.sessions[i].exercises
    decreases |rows| - p
  {
    if rows[p] == [] {
      LoopEmpty(rows, clock, Speed, p, m, m', q);
    } else {
      LoopUnfold(rows, clock, Speed, p, m, m', q);
      assert ApplyRow(Speed, m, rows[p], clock) == AddCardio(m, rows[p]);
      CardioRowEffect(m, rows[p]);
      var m1 := AddCardio(m, rows[p]).value;
      CardioSection(rows, clock, p + 1, m1, m', q, i);
      BlockShape(rows, p, q);
      var st, c := m.sessions[i].startTime, CardioOf(rows[p]);
      var head := if i in Live(m) && Contains(st, c.date) then [c] else [];
      var tail := if i in Live(m) then Matching(CardiosOf(rows[p + 1..q - 1]), st) else [];
      MatchingCons(c, CardiosOf(rows[p + 1..q - 1]), st);
      AppendAssoc(m.sessions[i].cardioLogs, head, tail);
    }
  }

  /** Proof helper: `Matching` unfolded on a log followed by others. */
  lemma MatchingCons(c: CardioLog, cs: seq<CardioLog>, st: string)
    ensures Matching([c] + cs, st) == (if Contains(st, c.date) then [c] else []) + Matching(cs, st)
  {
    assert ([c] + cs)[1..] == cs;
  }

  /** A `mynote` body appends its notes in row order and changes nothing else. */
  lemma {:induction false} NoteSection(rows: seq<Row>, clock: Clock, p: nat, m: Model, m': Model, q: nat)
    requires Loop(rows, clock, MyNote, p, m) == Ok((m', q))
    ensures p < q && forall r :: r in rows[p..q - 1] ==> |r| >= 9
    ensures m' == m.(notes := m.notes + NotesOf(rows[p..q - 1]))
    decreases |rows| - p
  {
    if rows[p] == [] {
      LoopEmpty(rows, clock, MyNote, p, m, m', q);
    } else {
      LoopUnfold(rows, clock, MyNote, p, m, m', q);
      assert ApplyRow(MyNote, m, rows[p], clock) == AddNote(m, rows[p]);
      var m1 := AddNote(m, rows[p]).value;
      NoteSection(rows, clock, p + 1, m1, m', q);
      BlockShape(rows, p, q);
      AppendAssoc(m.notes, [NoteOf(rows[p])], NotesOf(rows[p + 1..q - 1]));
    }
  }

  // ---------------------------------------------------------------------
  // Consequences and examples

  /** A session that has left the dictionary receives no exercise log. */
  lemma {:induction false} ExercisesSkipReplaced(block: seq<Row>, ids: map<string, nat>, i: nat)
    requires forall r :: r in block ==> |r| >= 12 && r[11] in ids
    requires i !in ids.Values
    ensures ExercisesFor(block, ids, i) == []
    decreases |block|
  {
    if |block| > 0 {
      assert ids[block[0][11]] in ids.Values;
      ExercisesSkipReplaced(block[1..], ids, i);
    }
  }

  /** A session of an unknown routine is still registered, and no routine's list changes. */
  lemma OrphanSession(m: Model, row: Row, clock: Clock)
    requires |row| >= 13 && clock(row[12]).Some? && row[4] !in m.routines
    ensures AddSession(m, row, clock).Ok?
    ensures row[1] in AddSession(m, row, clock).value.workoutSessions
    ensures AddSession(m, row, clock).value.routines == m.routines
  {
    var r := AddSession(m, row, clock).value;
    assert forall k :: k in m.routines ==> r.routines[k] == m.routines[k];
  }

  /** The smallest export: a `mass` header and one data row give that setting and nothing else. */
  lemma MinimalExport(clock: Clock)
    ensures Parse([["_id", "", "", "", "", "", "", "", "mass"],
                   ["1", "", "", "", "", "", "", "", "80"]], clock)
            == Ok(Empty.(setting := Some(Setting("80"))))
  {
    var rows: seq<Row> := [["_id", "", "", "", "", "", "", "", "mass"],
                           ["1", "", "", "", "", "", "", "", "80"]];
    assert "mass" in rows[0];
    assert Step(rows, clock, 0, Empty) == Ok((Empty.(setting := Some(Setting("80"))), 2));
  }

  /** An exercise log naming a session id that was never registered stops the parse. */
  lemma DanglingExercise(clock: Clock)
    ensures Parse([["belongsession"],
                   ["", "", "", "", "10,135,0,", "", "", "", "", "Squat", "", "s1"],
                   []], clock)
            == Err(UnknownSession("s1"))
  {
    var rows: seq<Row> := [["belongsession"],
                           ["", "", "", "", "10,135,0,", "", "", "", "", "Squat", "", "s1"],
                           []];
    assert "belongsession" in rows[0];
    assert Loop(rows, clock, BelongSession, 1, Empty) == Err(UnknownSession("s1"));
  }
}
