# `read_csv` of the JEFIT export parser, modelled in Dafny

`read_csv` in main.py reads a JEFIT export, a CSV file made of several
sections. It sorts the rows into five collections:

- the body-mass setting;
- the routines, a dictionary from id to routine;
- the workout sessions, a dictionary from id to session;
- the list of cardio logs;
- the list of notes.

A header row starts a section. The header holds one of six literal markers:
`mass`, `rest_day`, `workout_time`, `belongsession`, `speed` and `mynote`.
They are tested in that order, by exact membership among the row's fields.
The data rows follow the header:

- `mass` and `rest_day` take exactly one data row.
- The other four sections take rows up to the first empty row, and consume it.

Records are built from fixed column offsets. Records are linked as follows:

- A session joins its routine's list when that routine is known.
- An exercise log goes to the session whose id it names. An unknown id fails.
- A cardio log goes to every stored session whose formatted start time
  contains the log's date.

The input is the list of rows that `csv.reader` yields, `seq<seq<string>>`.

The project has two layers.

**The specification (modules Demux and Properties).**
- Demux describes `read_csv` as functions on values. `ApplyRow` gives the effect
  of one data row of each section. `Loop` reads one section body. `Step` is
  one turn of the outer `for` loop. `Run` and `Parse` read the whole input.
- The original shares session objects: a routine's list and the session
  dictionary hold the same objects. The model keeps every session ever
  created in `Model.sessions`, in creation order. The dictionary and the
  routine lists hold indexes into it; an index is the object's identity.
- Failures are values of `Records.Error`, one per exception the original
  lets escape:
  - `Truncated` is `StopIteration` from `next()`;
  - `ShortRow` is an `IndexError` on a fixed column;
  - `BadTimestamp` is the epoch conversion failing;
  - `UnknownSession` is the `KeyError` of the exercise lookup.
- Properties proves what each section adds to the collections. Each section
  is compared with a reference definition over that section's data rows
  (`SessionsOf`, `LinksTo`, `ExercisesFor`, `CardiosOf`, `Matching`,
  `NotesOf`).
- Properties also proves which rows each section consumes, when the parse
  fails, and that the object graph stays well formed (`WF`).

**The imperative model (modules Objects and Parsing).**
- `Objects.WorkoutSession` and `Objects.Routine` are classes with the
  `add_*` appenders.
- `Parsing.Parser` holds the cursor `next()` advances and the five collections
  as fields. Its methods follow `read_csv` branch by branch:
  - the `if`/`elif` chain of markers;
  - the `while (line)` loops;
  - the `for workout_session in workout_sessions.values()` loop over a set of
    session objects.
- `Parser.Valid` ties the objects to a ghost `model` of type `Demux.Model`.
  Every method is proved to move `model` exactly as the matching Demux
  function does.
- `ReadCsv` is the entry point. It returns the parser, whose fields are the
  five collections, together with the error, if any, that stopped it. The
  original returns nothing; here the five collections are exposed as the
  result.

`epoch_to_datetime` is a parameter of type `Clock = string -> Option<string>`.
`None` stands for `int()` or `datetime.fromtimestamp` raising. The
cardio-date match is therefore stated against whatever start time the clock
produced.

## Model

| member | source | states |
|---|---|---|
| Records.Contains | main.py:205 | `date in workout_session.start_time`, with no contract of its own; `ContainsIff` states that it is Python's substring test |
| Records.ContainsIff | main.py:204-205 | `Contains(hay, needle)`, the model of Python's `needle in hay` on strings, holds exactly when `needle` is a prefix of some suffix of `hay` |
| Logs.RStrip | main.py:179 | `rstrip(",")` returns a prefix of its input that does not end in the character, and everything it removed is that character |
| Logs.Split | main.py:179 | `split(",")` returns at least one token, and no token contains the separator |
| Logs.JoinSplit | main.py:179 | joining the tokens of a split with the separator gives back the string that was split |
| Logs.SplitJoin | main.py:179 | splitting the join of separator-free tokens gives back those tokens |
| Logs.SplitLogsFacts | main.py:175-179 | the logs of a row are never an empty list, and no token holds a comma; joined with commas they give column 4 without its trailing commas; the last token is empty only when it is the only one |
| Logs.SplitLogsTrailingComma | main.py:175-179 | one more trailing comma on the logs string leaves the split unchanged |
| Logs.SplitLogsJoin | main.py:179 | comma-free tokens whose last token is non-empty are exactly what their comma join splits to |
| Logs.SplitLogs | main.py:179 | `logs_str.rstrip(",").split(",")`, with no contract of its own; `SplitLogsFacts`, `SplitLogsTrailingComma` and `SplitLogsJoin` state what it returns |
| Logs.TrailingCommaExample | main.py:175-179 | `"10,135,0,"` and `"10,135,0"` both split to `["10", "135", "0"]` |
| Demux.SectionOf | main.py:122-210 | a row opens no section exactly when it holds none of the six markers; otherwise it opens the section of a marker it holds, and holds no marker tested earlier |
| Demux.ExerciseOf | main.py:170-180 | the exercise log of a row: name from column 9, logs split from column 4; no contract of its own, its use is stated by `ExerciseRowEffect` and `ExerciseSection` |
| Demux.CardioOf | main.py:194-201 | the cardio log of a row: columns 3, 5, 8, 10 and the last column; no contract of its own, its use is stated by `CardioRowEffect` and `CardioSectionLogs` |
| Demux.NoteOf | main.py:215-219 | the note of a row: columns 4, 6 and 8; no contract of its own, its use is stated by `NoteSection` |
| Demux.SetMass | main.py:122-124 | a `mass` data row fails with a short-row error exactly when it has fewer than 9 fields |
| Demux.AddRoutine | main.py:126-133 | a `rest_day` data row fails with a short-row error exactly when it has fewer than 6 fields |
| Demux.AddSession | main.py:135-162 | a `workout_time` data row fails exactly when it has fewer than 13 fields (short row) or the clock rejects column 12 (bad timestamp, naming that epoch) |
| Demux.AddExercise | main.py:167-186 | a `belongsession` data row fails exactly when it has fewer than 12 fields (short row) or column 11 is not a stored session id (unknown session, naming that id) |
| Demux.AttachCardio | main.py:204-206 | attaching a cardio log changes only cardio-log lists; session `i` gains the log at the end exactly when `i` is stored and its start time contains the log's date |
| Demux.AddCardio | main.py:189-208 | a `speed` data row fails with a short-row error exactly when it has fewer than 11 fields |
| Demux.AddNote | main.py:210-222 | a `mynote` data row fails with a short-row error exactly when it has fewer than 9 fields |
| Demux.ApplyRow | main.py:122-222 | the effect of one data row of each section, dispatching on the section; no contract of its own, stated per section by the `*RowEffect` lemmas, `MassHeader`, `NoteSection` and, for well-formedness, `ApplyRowWF` |
| Demux.Loop | main.py:135-222 | a section body that succeeds consumes at least one row and stops inside the input |
| Demux.Step | main.py:120-222 | a turn of the outer loop that succeeds consumes at least one row and stops inside the input |
| Demux.Run | main.py:120-222 | the `for` loop from a row to the end of the input; no contract of its own, `UnmarkedRowsSkipped`, `HeaderAtEnd` and `RunWF` state its properties, and `Parser.Read` is proved to agree with it |
| Demux.Parse | main.py:109-222 | `read_csv` on the rows of an export; no contract of its own, `ParseWF`, `MinimalExport` and `DanglingExercise` state its properties, and `ReadCsv` is proved to agree with it |
| Properties.RoutineRowEffect | main.py:126-133 | a `rest_day` row registers one routine under column 4, named after column 5, with no sessions; it replaces an entry with that id, and every other routine and collection is unchanged |
| Properties.SessionRowEffect | main.py:139-152 | a `workout_time` row creates a session with id column 1, the converted start time and no logs; it stores the session under its id, replacing any earlier entry; no other entry, routine id or collection changes |
| Properties.SessionRowRoutine | main.py:153-162 | a known routine gains the new session at the end of its list exactly when column 4 names it; its id and name are unchanged |
| Properties.OrphanSession | main.py:153-162 | a session naming an unknown routine is still stored, and no routine changes |
| Properties.ExerciseRowEffect | main.py:169-184 | an exercise row whose session id is stored appends its log to exactly that session; nothing else changes |
| Properties.ExerciseRowAt | main.py:169-184 | seen from session `i`: its exercises grow by the row's log exactly when column 11 names `i`; its other fields are unchanged |
| Properties.CardioRowEffect | main.py:191-206 | a cardio row is appended once to the cardio-log list, with columns 3, 5, 8, 10 and the last column; each session gains it exactly when it is stored and its start time contains the date |
| Properties.UnmarkedRowsSkipped | main.py:120-122 | rows without a marker, empty rows included, are passed over and change nothing |
| Properties.HeaderAtEnd | main.py:122-211 | a header that is the last row fails on `next()` |
| Properties.MassHeader | main.py:122-124 | a `mass` header takes exactly the next row; the setting becomes its column 8, replacing any earlier setting, or the row is too short |
| Properties.RestDayHeader | main.py:126-133 | a `rest_day` header takes exactly the next row and registers one routine from its columns 4 and 5, or the row is too short |
| Properties.BodyHeader | main.py:135-210 | the other four headers read a section body from the next row on |
| Properties.LoopStopsAtFirstEmptyRow | main.py:141-164 | a section body that succeeds ends at the first empty row after the header and consumes it |
| Properties.LoopNeedsTerminator | main.py:164 | without an empty row up to the end of the input, a section body fails |
| Properties.LoopUnfold | main.py:141-164 | a successful body applies its first data row, and the rest of the body continues from the row after it |
| Properties.LoopEmpty | main.py:141 | a body that starts at an empty row consumes only that row and changes nothing |
| Properties.SessionSectionCreates | main.py:135-164 | a `workout_time` body creates exactly one session per data row, in row order, against `SessionsOf`; every data row has a column 12 the clock accepts; no routine is added and the setting, cardio logs and notes are unchanged |
| Properties.LastWith | main.py:150-152 | the position of the last row of a block whose column 1 is `k`: that row carries `k` and no later row does |
| Properties.SessionSectionRegisters | main.py:139-152 | after a `workout_time` body, id `k` is stored exactly when it was stored before or a data row carries it; an id a data row carries names the session of the last such row (`LastWith`), so a later row with the same id replaces an earlier one; other ids keep their sessions |
| Properties.SessionSectionLinks | main.py:153-162 | a known routine gains, in row order, exactly the body's sessions whose column 4 names it (`LinksTo`) |
| Properties.ExerciseSectionShape | main.py:167-186 | a `belongsession` body succeeds only when every data row names a stored session; it creates no session and changes nothing but the sessions |
| Properties.ExerciseSection | main.py:167-186 | a `belongsession` body appends to session `i`, in row order, exactly the logs of the rows naming it (`ExercisesFor`); the session's other fields are unchanged |
| Properties.ExercisesSkipReplaced | main.py:150-152 | a session that has left the dictionary, because a later session reused its id, receives no exercise log |
| Properties.CardioSectionLogs | main.py:189-208 | a `speed` body appends its cardio logs to the list in row order (`CardiosOf`); it creates no session and changes nothing but the list and the sessions' cardio logs |
| Properties.CardioSection | main.py:189-208 | a `speed` body appends to a stored session, in row order, exactly the body's logs whose date its start time contains (`Matching`), and appends nothing to other sessions |
| Properties.NoteSection | main.py:210-222 | a `mynote` body appends its notes in row order, with columns 4, 6 and 8 (`NotesOf`); nothing else changes |
| Properties.ApplyRowWF | main.py:122-222 | one data row keeps the object graph well formed: every identity names a created session, and every entry's object has its key as id |
| Properties.LoopWF | main.py:135-222 | every section body keeps the object graph well formed |
| Properties.StepWF | main.py:120-222 | every turn of the outer loop keeps the object graph well formed |
| Properties.RunWF | main.py:120-222 | the outer loop keeps the object graph well formed from any well-formed state |
| Properties.ParseWF | main.py:109-222 | a successful parse yields a well-formed object graph |
| Properties.MinimalExport | main.py:120-124 | a `mass` header and one data row give that setting and nothing else |
| Properties.DanglingExercise | main.py:183 | an example: the three-row export whose exercise row names the never-stored id `s1` stops with `UnknownSession("s1")`; the general case is `ExerciseSectionShape` (a body succeeds only when every row names a stored session) with `Demux.AddExercise`'s failure condition |
| Objects.WorkoutSession.constructor | main.py:31-35 | a new session has the given id and start time and no logs |
| Objects.WorkoutSession.AddExercise | main.py:46-47 | `add_exercise` appends one exercise log; the cardio logs are unchanged |
| Objects.WorkoutSession.AddCardioLog | main.py:49-50 | `add_cardio_log` appends one cardio log; the exercises are unchanged |
| Objects.Routine.constructor | main.py:14-17 | a new routine has the given id and name and no sessions |
| Objects.Routine.AddWorkoutSession | main.py:25-26 | `add_workout_session` appends the session object itself, by reference |
| Objects.IdentitiesAppend | main.py:25-26 | appending a session to a routine's list appends its identity to the list's value |
| Parsing.Parser.constructor | main.py:111-115 | `read_csv` starts with the cursor at the first row and every collection empty (`Demux.Empty`) |
| Parsing.Parser.Next | main.py:123 | `next()` yields the row at the cursor and advances it, or yields nothing at the end of the rows |
| Parsing.Parser.MassRow | main.py:124 | the `mass` data row has exactly the effect of `Demux.SetMass` on the model, or fails as it does |
| Parsing.Parser.RoutineRow | main.py:127-133 | the `rest_day` data row creates a fresh routine object and has exactly the effect of `Demux.AddRoutine`, or fails as it does |
| Parsing.Parser.SessionRow | main.py:139-162 | a `workout_time` data row creates a fresh session object and has exactly the effect of `Demux.AddSession`, or fails as it does; the routine dictionary is unchanged |
| Parsing.Parser.Store | main.py:150-152 | the new session object is stored under its id, and becomes the next identity of the model |
| Parsing.Parser.Link | main.py:155-158 | the routine's list gains the session object itself at the end, and it is the created object with that identity; in the model, exactly that routine's identity list is extended |
| Parsing.Parser.ExerciseRow | main.py:169-186 | a `belongsession` data row has exactly the effect of `Demux.AddExercise`, or fails as it does |
| Parsing.Parser.Enter | main.py:183-184 | `add_exercise` on a stored session appends the log to that session's value in the model only |
| Parsing.Parser.CardioRow | main.py:191-208 | a `speed` data row has exactly the effect of `Demux.AddCardio`, or fails as it does |
| Parsing.Parser.AttachAll | main.py:204-206 | the loop over `workout_sessions.values()` attaches the log exactly as `Demux.AttachCardio` does over the stored identities |
| Parsing.Parser.Visit | main.py:205-206 | one turn of that loop attaches the log to one more stored session, when its start time contains the date |
| Parsing.Parser.Attach | main.py:206 | `add_cardio_log` on a stored session appends the log to that session's value in the model only |
| Parsing.Parser.NoteRow | main.py:212-222 | a `mynote` data row has exactly the effect of `Demux.AddNote`, or fails as it does |
| Parsing.Parser.DataRow | main.py:139-222 | one data row of a section body has the effect of `Demux.ApplyRow` for that section |
| Parsing.Parser.Item | main.py:141-222 | one turn of a `while (line)` loop: the row and the following `next()` leave the rest of the body to read exactly as `Demux.Loop` does |
| Parsing.Parser.Body | main.py:136-222 | `next()` followed by a `while (line)` loop agrees with `Demux.Loop`: the same collections, stopping at the same row, or the same error |
| Parsing.Parser.Single | main.py:122-133 | a `mass` or `rest_day` header's `next()` and data row agree with `Demux.ApplyRow`, or fail with `Truncated` at the end of the rows |
| Parsing.Parser.Turn | main.py:120-222 | one turn of the `for` loop, with the marker chain tested in order, agrees with `Demux.Step` |
| Parsing.Parser.Read | main.py:120-222 | the `for` loop from the cursor to the end agrees with `Demux.Run` |
| Parsing.ReadCsv | main.py:109-222 | on any rows and clock, the parser's collections are those of `Demux.Parse`, or its error is the one `Demux.Parse` reports; every session object reached through the dictionary or through a routine's list has the exercises and cardio logs the model records for that entry's identity |

## Left out

- `csv.reader` tokenisation and quoting, `open` and its encoding, and `main`
  (main.py:117-118, 229-233). These are file I/O and library code. The model starts
  from the rows.
- `epoch_to_datetime` (main.py:225-226) is the `Clock` parameter. Its
  formatting depends on `int()`, on `datetime.fromtimestamp` and on the
  local time zone.
- The `__str__` methods are display formatting only.
- The classes `JefitExercise` and `StrongRow` are never constructed by
  `read_csv`.
- The record classes `JefitSetting`, `JefitExerciseLog`, `JefitCardioLog` and
  `JefitNote` (main.py:5-7, 53-56, 71-77, 83-87) are datatypes, because
  nothing updates them after construction.
- The iteration order of `workout_sessions.values()` is not modelled. The
  loop visits the stored session objects as a set, in any order. The order
  cannot change the outcome, because each session gains the log or not
  independently of the others.
- A row holding a single empty field (`[""]`) is a data row, not the end of
  a section. The loops test `while (line)`, and such a row is truthy.
- `Demux.AppendExercise` leaves the sessions unchanged when the identity is
  out of range. That branch is never taken in a well-formed model
  (`Properties.ParseWF`). It exists so that the function needs no
  well-formedness precondition.
- Demux.Loop: its contract states only how far a body reads. What a body
  adds is stated per section by the `Properties.*Section*` lemmas.
- Demux.Step: its contract states only how far one turn reads. The
  per-header lemmas `MassHeader`, `RestDayHeader` and `BodyHeader` say what it
  does.
- Demux.SetMass: its own contract states only when it fails. `Properties.MassHeader` states the effect: the setting becomes column 8.
- Demux.AddRoutine: its own contract states only when it fails. `Properties.RoutineRowEffect` and `Properties.RestDayHeader` state the effect: one routine from columns 4 and 5.
- Demux.AddSession: its own contract states only when it fails. `Properties.SessionRowEffect`, `Properties.SessionRowRoutine` and `Properties.OrphanSession` state the effect: the new session is stored, and joins its routine when that routine is known.
- Demux.AddExercise: its own contract states only when it fails. `Properties.ExerciseRowEffect` and `Properties.ExerciseRowAt` state the effect: the log goes to exactly the session stored under column 11.
- Demux.AddCardio: its own contract states only when it fails. `Properties.CardioRowEffect` states the effect: the log joins the list and every stored session whose start time contains its date.
- Demux.AddNote: its own contract states only when it fails. `Properties.NoteSection` states the effect: the note from columns 4, 6 and 8 joins the list, and nothing else changes.
