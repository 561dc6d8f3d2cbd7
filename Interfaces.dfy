/**
 * The two backend contracts, QuantumInterface and ResultInterface, as the
 * calls each accepts: one constructor per virtual member function.
 */
module Interfaces {
  import opened Wrappers
  import opened Types

  /** A call on a QuantumInterface. */
  datatype QuantumCall =
    | Mz(q: Qubit, r: Result)
    | H(q: Qubit)
    | Cnot(q1: Qubit, q2: Qubit)
    | ReadResult(r: Result)

  /** A call on a ResultInterface; `tag` is an optional C string. */
  datatype OutputCall =
    | RecordArray(size: u64)
    | RecordResult(r: Result, tag: Option<string>)
}
