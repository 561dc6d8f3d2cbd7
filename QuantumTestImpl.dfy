/**
 * The recording test backends: a QuantumInterface and a ResultInterface that
 * share one TestResult and append the names of gate commands to its log.
 */
module QuantumTestImpl {
  import opened Wrappers
  import opened Types
  import opened Interfaces

  /** What the quantum test backend appends to the log for one call. */
  function Recorded(c: QuantumCall): seq<string>
  {
    match c
    case Mz(_, _) => ["mz"]
    case H(_) => ["h"]
    case Cnot(_, _) => ["cnot"]
    case ReadResult(_) => []
  }

  class TestResult {
    var commands: seq<string>

    constructor ()
      ensures commands == []
    {
      commands := [];
    }
  }

  class QuantumTestImpl {
    const tr: TestResult
    /** Every call this backend has received, in order. */
    ghost var received: seq<QuantumCall>

    /** Requires a non-null TestResult, which it shares rather than copies. */
    constructor (result: TestResult?)
      requires result != null
      ensures tr == result && received == []
    {
      tr := result;
      received := [];
    }

    method Mz(q: Qubit, r: Result)
      modifies this, tr
      ensures received == old(received) + [QuantumCall.Mz(q, r)]
      ensures tr.commands == old(tr.commands) + Recorded(QuantumCall.Mz(q, r))
      ensures tr.commands == old(tr.commands) + ["mz"]
    {
      received := received + [QuantumCall.Mz(q, r)];
      tr.commands := tr.commands + ["mz"];
    }

    method H(q: Qubit)
      modifies this, tr
      ensures received == old(received) + [QuantumCall.H(q)]
      ensures tr.commands == old(tr.commands) + Recorded(QuantumCall.H(q))
      ensures tr.commands == old(tr.commands) + ["h"]
    {
      received := received + [QuantumCall.H(q)];
      tr.commands := tr.commands + ["h"];
    }

    method Cnot(q1: Qubit, q2: Qubit)
      modifies this, tr
      ensures received == old(received) + [QuantumCall.Cnot(q1, q2)]
      ensures tr.commands == old(tr.commands) + Recorded(QuantumCall.Cnot(q1, q2))
      ensures tr.commands == old(tr.commands) + ["cnot"]
    {
      received := received + [QuantumCall.Cnot(q1, q2)];
      tr.commands := tr.commands + ["cnot"];
    }

    /** Always reads zero and leaves the log alone. */
    method ReadResult(r: Result) returns (s: QState)
      modifies this
      ensures received == old(received) + [QuantumCall.ReadResult(r)]
      ensures s == Zero
    {
      received := received + [QuantumCall.ReadResult(r)];
      s := Zero;
    }
  }

  class ResultTestImpl {
    const tr: TestResult
    /** Every call this backend has received, in order. */
    ghost var received: seq<OutputCall>

    /** Requires a non-null TestResult, which it shares rather than copies. */
    constructor (result: TestResult?)
      requires result != null
      ensures tr == result && received == []
    {
      tr := result;
      received := [];
    }

    /**
     * record_output(size): the gtest assertion size > 0 passes or records a
     * test failure; either way the call returns and the log is untouched.
     */
    method RecordOutputSize(s: u64) returns (passed: bool)
      modifies this
      ensures received == old(received) + [RecordArray(s)]
      ensures passed <==> s > 0
    {
      received := received + [RecordArray(s)];
      passed := s > 0;
    }

    /** record_output(result, tag): does nothing to the log. */
    method RecordOutput(r: Result, tag: Option<string>)
      modifies this
      ensures received == old(received) + [RecordResult(r, tag)]
      ensures unchanged(tr)
    {
      received := received + [RecordResult(r, tag)];
    }
  }

  /**
   * Two backends built from one TestResult share one log: the quantum
   * backend's commands appear in it in call order, and the output backend's
   * calls add nothing to it.
   */
  method SharedLog() returns (q: QuantumTestImpl, r: ResultTestImpl)
    ensures q.tr == r.tr && q.tr.commands == ["h", "cnot"]
    ensures q.received == [QuantumCall.H(Qubit(0)), QuantumCall.Cnot(Qubit(0), Qubit(1))]
    ensures r.received == [RecordArray(1)]
  {
    var tr := new TestResult();
    q := new QuantumTestImpl(tr);
    r := new ResultTestImpl(tr);
    q.H(Qubit(0));
    var ok := r.RecordOutputSize(1);
    q.Cnot(Qubit(0), Qubit(1));
  }
}
