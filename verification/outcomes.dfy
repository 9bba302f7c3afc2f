/** Failure-compatible results and the error kinds of the assembly-network core. */
module Outcomes {

  /** Why an operation of the core did not produce a value.
      - ProductMismatch: producer outputs and consumer inputs share no word.
      - KindViolation: the producer/consumer kind pair is not in the bipartite table.
      - InvalidSplitPosition: a checked split outside [1, |w| - 1].
      - IncompleteGraph: discovery reached a node that is not fully connected.
      - MissingSource(w): a generator looked up a source for `w` that is not supplied.
      - Diverges(w): the generator's worklist would never empty (the source loops forever).
      - NotStandard(w): the standard-inventory helper was asked for a non-standard word.
      - StandardSink(w): late differentiation looked up the inventory of a standard
        sink word before any standard inventory exists. */
  datatype Error =
    | ProductMismatch
    | KindViolation
    | InvalidSplitPosition
    | IncompleteGraph
    | MissingSource(missing: seq<char>)
    | Diverges(looping: seq<char>)
    | NotStandard(rejected: seq<char>)
    | StandardSink(sinkWord: seq<char>)

  datatype Result<+T> = Ok(value: T) | Err(error: Error) {

    predicate IsFailure() {
      Err?
    }

    function PropagateFailure<U>(): Result<U>
      requires Err?
    {
      Err(error)
    }

    function Extract(): T
      requires Ok?
    {
      value
    }
  }

  datatype Option<+T> = None | Some(value: T)
}
