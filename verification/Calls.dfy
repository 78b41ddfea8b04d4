/** Calls into systems that may fail: what becomes of one, and what the caller learns. */
module Calls {

  /** A call succeeds, is refused before its effect or loses its acknowledgement, or the process is killed. */
  datatype Fate = Fine | RefusedBefore | RefusedAfter | KilledBefore | KilledAfter
  {
    predicate TakesEffect() { !RefusedBefore? && !KilledBefore? }

    function Learnt(): Outcome {
      if Fine? then Done else if RefusedBefore? || RefusedAfter? then Raised else Dead
    }
  }

  /** What becomes of a call whose effect turns before into after, and what the caller learns. */
  predicate Struck<S(==)>(fate: Fate, before: S, after: S, now: S, o: Outcome) {
    match fate
    case Fine => now == after && o == Done
    case RefusedBefore => now == before && o == Raised
    case RefusedAfter => now == after && o == Raised
    case KilledBefore => now == before && o == Dead
    case KilledAfter => now == after && o == Dead
  }

  datatype Outcome = Done | Raised | Dead
  {
    predicate IsFailure() { !Done? }

    function PropagateFailure(): Outcome { this }
  }
}
