/**
 * The value records of a JEFIT export: the body-mass setting, an exercise
 * log, a cardio log and a note. None of them changes after it is built, so
 * each is a datatype. The routine and the workout session, which the parser
 * updates in place, are classes (module Objects) in the imperative model and
 * plain values (module Demux) in its specification.
 */
module Records {

  /** The `mass` setting (JefitSetting). */
  datatype Setting = Setting(mass: string)

  /** One exercise of a session and its raw log tokens (JefitExerciseLog). */
  datatype ExerciseLog = ExerciseLog(ename: string, logs: seq<string>)

  /** One cardio entry (JefitCardioLog); `date` is matched against session start times. */
  datatype CardioLog = CardioLog(id: string, eid: string, duration: string, distance: string, date: string)

  /** One note (JefitNote); notes are never linked to a session. */
  datatype Note = Note(eid: string, notes: string, date: string)

  /**
   * Why a parse stops without a result. Each is an exception the original
   * lets escape: `next()` on an exhausted reader (StopIteration), a fixed
   * column index past the end of a row (IndexError), a start time that the
   * epoch conversion rejects (ValueError), and an exercise log naming a
   * session id that was never registered (KeyError).
   */
  datatype Error =
    | Truncated
    | ShortRow
    | BadTimestamp(epoch: string)
    | UnknownSession(sessionId: string)

  /**
   * Python's `needle in hay` on strings: `needle` occurs somewhere in `hay`
   * as a contiguous substring (the empty string occurs everywhere).
   */
  predicate Contains(hay: string, needle: string)
    decreases |hay|
  {
    needle <= hay || (|hay| > 0 && Contains(hay[1..], needle))
  }

  /** Contains agrees with the positional definition of a substring. */
  lemma {:induction false} ContainsIff(hay: string, needle: string)
    ensures Contains(hay, needle) <==> exists i :: 0 <= i <= |hay| && needle <= hay[i..]
  {
    if needle <= hay {
      assert needle <= hay[0..];
    } else if |hay| == 0 {
      forall i | 0 <= i <= |hay| ensures !(needle <= hay[i..]) {
        assert hay[i..] == hay;
      }
    } else {
      ContainsIff(hay[1..], needle);
      if Contains(hay[1..], needle) {
        var i :| 0 <= i <= |hay[1..]| && needle <= hay[1..][i..];
        assert hay[1..][i..] == hay[i + 1..];
      } else {
        forall i | 0 <= i <= |hay| ensures !(needle <= hay[i..]) {
          if i > 0 {
            assert hay[1..][i - 1..] == hay[i..];
          } else {
            assert hay[i..] == hay;
          }
        }
      }
    }
  }
}
