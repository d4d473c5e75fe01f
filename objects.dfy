/**
 * The two mutable records of the parser: a workout session, which collects
 * exercise and cardio logs after it is stored, and a routine, which
 * collects the sessions that name it. Both are shared by reference: the
 * session a routine holds is the object the dictionary holds.
 */
module Objects {
  import opened Records
  import opened Demux

  /** JefitWorkoutSession. */
  class WorkoutSession {
    const id: string
    const startTime: string
    var exercises: seq<ExerciseLog>
    var cardioLogs: seq<CardioLog>

    /** The position of this session in creation order: its identity. */
    ghost const identity: nat

    /** A new session has no logs. */
    constructor (id: string, startTime: string, ghost identity: nat)
      ensures this.id == id && this.startTime == startTime && this.identity == identity
      ensures exercises == [] && cardioLogs == []
    {
      this.id := id;
      this.startTime := startTime;
      this.identity := identity;
      exercises := [];
      cardioLogs := [];
    }

    /** The session's current value. */
    function Value(): SessionV
      reads this
    {
      SessionV(id, startTime, exercises, cardioLogs)
    }

    /** `add_exercise`: appends one exercise log. */
    method AddExercise(exercise: ExerciseLog)
      modifies this
      ensures exercises == old(exercises) + [exercise] && cardioLogs == old(cardioLogs)
    {
      exercises := exercises + [exercise];
    }

    /** `add_cardio_log`: appends one cardio log. */
    method AddCardioLog(cardioLog: CardioLog)
      modifies this
      ensures cardioLogs == old(cardioLogs) + [cardioLog] && exercises == old(exercises)
    {
      cardioLogs := cardioLogs + [cardioLog];
    }
  }

  /** The identities of a list of sessions, in list order. */
  ghost function Identities(sessions: seq<WorkoutSession>): (r: seq<nat>)
    ensures |r| == |sessions| && forall j :: 0 <= j < |sessions| ==> r[j] == sessions[j].identity
  {
    seq(|sessions|, j requires 0 <= j < |sessions| => sessions[j].identity)
  }

  /** A session appended to a list adds its identity at the end. */
  lemma IdentitiesAppend(sessions: seq<WorkoutSession>, workoutSession: WorkoutSession)
    ensures Identities(sessions + [workoutSession]) == Identities(sessions) + [workoutSession.identity]
  {
  }

  /** JefitRoutines. */
  class Routine {
    const id: string
    const name: string
    var workoutSessions: seq<WorkoutSession>

    /** A new routine has no sessions. */
    constructor (id: string, name: string)
      ensures this.id == id && this.name == name && workoutSessions == []
    {
      this.id := id;
      this.name := name;
      workoutSessions := [];
    }

    /** The routine's current value, its sessions given by identity. */
    ghost function Value(): RoutineV
      reads this
    {
      RoutineV(id, name, Identities(workoutSessions))
    }

    /** `add_workout_session`: appends one session, by reference. */
    method AddWorkoutSession(workoutSession: WorkoutSession)
      modifies this
      ensures workoutSessions == old(workoutSessions) + [workoutSession]
    {
      workoutSessions := workoutSessions + [workoutSession];
    }
  }
}
