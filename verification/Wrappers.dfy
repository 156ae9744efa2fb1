/** The optional value, the call outcome, and what becomes of a call. */
module Wrappers {

  datatype Option<+T> = None | Some(value: T)

  datatype Result<+T, +E> = Ok(value: T) | Err(error: E)

  /** A call that had no effect, refused or never arrived, or one whose answer was lost. */
  datatype Fate = Fine | Failed | AnswerLost

  predicate AllFine(faults: seq<Fate>) {
    forall i :: 0 <= i < |faults| ==> faults[i] == Fine
  }
}
