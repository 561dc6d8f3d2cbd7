/**
 * The XACC adapter's bookkeeping (qiree::XaccQuantum): the qubit count,
 * the result-to-qubit table, buffer presence and the circuit under
 * construction. The XACC library calls themselves are not modelled; the
 * circuit is the sequence of instructions the adapter has handed to it.
 */
module XaccQuantum {
  import opened Wrappers
  import opened Types
  import opened Errors
  import opened QirModule

  /**
   * A rotation angle: a value handed in by the running program, kept as an
   * uninterpreted token, or a fixed rational multiple of pi.
   */
  datatype Angle = Given(token: nat) | PiTimes(factor: real)

  /** One circuit instruction: gate name, qubit indices in argument order, and parameters. */
  datatype Instruction = Instruction(gate: string, qubits: seq<u64>, params: seq<Angle>)

  /** The raw indices of a list of qubits, in order. */
  function Indices(qs: seq<Qubit>): (r: seq<u64>)
    ensures |r| == |qs|
    ensures forall i | 0 <= i < |qs| :: r[i] == qs[i].value
  {
    seq(|qs|, i requires 0 <= i < |qs| => qs[i].value)
  }

  /**
   * std::vector::resize on the result-to-qubit table: the first entries are
   * kept, and growth pads with default-constructed qubit ids.
   */
  function Resize(s: seq<Qubit>, n: nat): (r: seq<Qubit>)
    ensures |r| == n
    ensures forall i | 0 <= i < n && i < |s| :: r[i] == s[i]
    ensures forall i | |s| <= i < n :: r[i] == Qubit()
  {
    if n <= |s| then s[..n] else s + seq(n - |s|, _ => Qubit())
  }

  /** Every instruction of a circuit addresses a qubit below the bound. */
  predicate InRange(circuit: seq<Instruction>, bound: u64)
  {
    forall k, j | 0 <= k < |circuit| && 0 <= j < |circuit[k].qubits| :: circuit[k].qubits[j] < bound
  }

  class XaccQuantum {
    /** The accelerator the constructor asked XACC for. */
    const accelerator: string
    /** The shot count the accelerator was configured with. */
    const shots: u64
    /** num_qubits_ */
    var numQubits: u64
    /**
     * result_to_qubit_: for each result index, the qubit measured into it.
     * An index never measured holds Qubit 0 from the resize padding, and
     * tear_down keeps the table, so an entry can be left over from an
     * earlier program.
     */
    var resultToQubit: seq<Qubit>
    /** Whether buffer_ holds an allocated buffer. */
    var hasBuffer: bool
    /** cur_circuit_: the instructions added since set_up, or None when no circuit exists. */
    var circuit: Option<seq<Instruction>>

    /**
     * A circuit exists exactly while a buffer is allocated, and every
     * instruction in it addresses an allocated qubit.
     */
    predicate Valid()
      reads this
    {
      && (circuit.Some? <==> hasBuffer)
      && (circuit.Some? ==> InRange(circuit.value, numQubits))
    }

    /** num_results() */
    function NumResults(): nat
      reads this
    {
      |resultToQubit|
    }

    constructor Init(accelName: string, shots: u64)
      requires shots > 0
      ensures accelerator == accelName && this.shots == shots
      ensures numQubits == 0 && resultToQubit == [] && !hasBuffer && circuit == None
      ensures Valid()
    {
      accelerator := accelName;
      this.shots := shots;
      numQubits := 0;
      resultToQubit := [];
      hasBuffer := false;
      circuit := None;
    }

    /**
     * XaccQuantum(os, accel_name, shots): rejects zero shots before touching
     * XACC, then fails when XACC has no accelerator of that name
     * (`acceleratorFound` is XACC's answer).
     */
    static method Create(accelName: string, shots: u64, acceleratorFound: bool) returns (r: Outcome<XaccQuantum>)
      ensures shots == 0 ==> r == Threw(InvalidShots)
      ensures shots > 0 && !acceleratorFound ==> r == Threw(AcceleratorCreationFailed)
      ensures shots > 0 && acceleratorFound ==>
                && r.Returned? && fresh(r.value) && r.value.Valid()
                && r.value.accelerator == accelName && r.value.shots == shots
                && r.value.numQubits == 0 && r.value.resultToQubit == [] && !r.value.hasBuffer
    {
      if shots == 0 {
        return Threw(InvalidShots);
      }
      if !acceleratorFound {
        return Threw(AcceleratorCreationFailed);
      }
      var x := new XaccQuantum.Init(accelName, shots);
      return Returned(x);
    }

    /** XaccQuantum(os): the "qsim" simulator with one shot. */
    static method CreateSimulator(acceleratorFound: bool) returns (r: Outcome<XaccQuantum>)
      ensures !acceleratorFound ==> r == Threw(AcceleratorCreationFailed)
      ensures acceleratorFound ==>
                && r.Returned? && fresh(r.value) && r.value.Valid()
                && r.value.accelerator == "qsim" && r.value.shots == 1
                && r.value.numQubits == 0 && r.value.resultToQubit == [] && !r.value.hasBuffer
    {
      r := Create("qsim", 1, acceleratorFound);
    }

    /**
     * set_up: requires that no buffer is allocated; a program needing no
     * qubits is refused and nothing changes; otherwise allocates the
     * buffer, starts an empty circuit and sizes both tables.
     */
    method SetUp(attrs: EntryPointAttrs) returns (s: Status)
      requires !hasBuffer
      requires Valid()
      modifies this`numQubits, this`resultToQubit, this`hasBuffer, this`circuit
      ensures Valid()
      ensures attrs.requiredNumQubits == 0 ==> s == Threw(NotQuantumProgram) && unchanged(this)
      ensures attrs.requiredNumQubits > 0 ==>
                && s == Returned(())
                && hasBuffer && circuit == Some([])
                && numQubits == attrs.requiredNumQubits
                && NumResults() == attrs.requiredNumResults as nat
                && resultToQubit == Resize(old(resultToQubit), attrs.requiredNumResults as nat)
    {
      if attrs.requiredNumQubits == 0 {
        return Threw(NotQuantumProgram);
      }
      hasBuffer := true;
      circuit := Some([]);
      resultToQubit := Resize(resultToQubit, attrs.requiredNumResults as nat);
      numQubits := attrs.requiredNumQubits;
      s := Returned(());
    }

    /** tear_down: releases the circuit and the buffer, so that set_up may run again. */
    method TearDown()
      modifies this`hasBuffer, this`circuit
      ensures !hasBuffer && circuit == None
      ensures Valid()
    {
      circuit := None;
      hasBuffer := false;
    }

    /** mz: records that result r now holds a measurement of qubit q. */
    method Mz(q: Qubit, r: Result)
      requires q.value < numQubits
      requires r.value as nat < NumResults()
      modifies this`resultToQubit
      ensures resultToQubit == old(resultToQubit)[r.value := q]
      ensures NumResults() == old(NumResults())
    {
      resultToQubit := resultToQubit[r.value := q];
    }

    /** read_result: the adapter cannot read results yet and always answers zero. */
    function ReadResult(r: Result): (s: QState)
      ensures s == Zero && !ToBool(s)
    {
      Zero
    }

    /**
     * result_record_output: requires r below num_results() (and a buffer to
     * read marginal counts from); the qubit it reports on is the table's
     * entry for r: the one measured into r, or else Qubit 0 from the
     * padding or an entry left over from before the last tear_down.
     */
    method ResultRecordOutput(r: Result, tag: Option<string>) returns (reported: Qubit)
      requires r.value as nat < NumResults()
      requires hasBuffer
      ensures reported == resultToQubit[r.value]
    {
      reported := resultToQubit[r.value];
    }

    /** tuple_record_output: not implemented. */
    function TupleRecordOutput(size: u64, tag: Option<string>): (s: Status)
      ensures s.Threw? && s.error == NotImplemented("XaccQuantum::tuple_record_output")
    {
      Threw(NotImplemented("XaccQuantum::tuple_record_output"))
    }

    /** The std::transform in add_instruction: each qubit, checked against num_qubits(), becomes its raw index. */
    method QubitIndices(qs: seq<Qubit>) returns (indices: seq<u64>)
      requires forall i | 0 <= i < |qs| :: qs[i].value < numQubits
      ensures indices == Indices(qs)
      ensures forall i | 0 <= i < |indices| :: indices[i] < numQubits
    {
      indices := [];
      var i := 0;
      while i < |qs|
        invariant 0 <= i <= |qs|
        invariant indices == Indices(qs[..i])
      {
        assert Indices(qs[..i + 1]) == Indices(qs[..i]) + [qs[i].value];
        indices := indices + [qs[i].value];
        i := i + 1;
      }
      assert qs[..i] == qs;
    }

    /** The circuit after this call is the one before it followed by `instrs`. */
    twostate predicate Appended(instrs: seq<Instruction>)
      reads this
    {
      old(circuit).Some? && circuit == Some(old(circuit).value + instrs)
    }

    /** add_instruction(s, qs, args...): appends one instruction naming the gate and the qubit indices in order. */
    method AddInstruction(gate: string, qs: seq<Qubit>, params: seq<Angle>)
      requires Valid() && circuit.Some?
      requires forall i | 0 <= i < |qs| :: qs[i].value < numQubits
      modifies this`circuit
      ensures Valid()
      ensures Appended([Instruction(gate, Indices(qs), params)])
    {
      var indices := QubitIndices(qs);
      var instr := Instruction(gate, indices, params);
      circuit := Some(circuit.value + [instr]);
    }

    /** add_instruction(s, q, args...): the single-qubit overload. */
    method AddInstructionOn(gate: string, q: Qubit, params: seq<Angle>)
      requires Valid() && circuit.Some?
      requires q.value < numQubits
      modifies this`circuit
      ensures Valid()
      ensures Appended([Instruction(gate, [q.value], params)])
    {
      assert Indices([q]) == [q.value];
      AddInstruction(gate, [q], params);
    }

    method Ccx(q1: Qubit, q2: Qubit)
      requires Valid() && circuit.Some?
      requires q1.value < numQubits && q2.value < numQubits
      modifies this`circuit
      ensures Valid()
      ensures Appended([Instruction("CCX", [q1.value, q2.value], [])])
    {
      assert Indices([q1, q2]) == [q1.value, q2.value];
      AddInstruction("CCX", [q1, q2], []);
    }

    method Ccnot(q1: Qubit, q2: Qubit, q3: Qubit)
      requires Valid() && circuit.Some?
      requires q1.value < numQubits && q2.value < numQubits && q3.value < numQubits
      modifies this`circuit
      ensures Valid()
      ensures Appended([Instruction("CCNOT", [q1.value, q2.value, q3.value], [])])
    {
      assert Indices([q1, q2, q3]) == [q1.value, q2.value, q3.value];
      AddInstruction("CCNOT", [q1, q2, q3], []);
    }

    method Cnot(q1: Qubit, q2: Qubit)
      requires Valid() && circuit.Some?
      requires q1.value < numQubits && q2.value < numQubits
      modifies this`circuit
      ensures Valid()
      ensures Appended([Instruction("CNOT", [q1.value, q2.value], [])])
    {
      assert Indices([q1, q2]) == [q1.value, q2.value];
      AddInstruction("CNOT", [q1, q2], []);
    }

    method Cx(q1: Qubit, q2: Qubit)
      requires Valid() && circuit.Some?
      requires q1.value < numQubits && q2.value < numQubits
      modifies this`circuit
      ensures Valid()
      ensures Appended([Instruction("CX", [q1.value, q2.value], [])])
    {
      assert Indices([q1, q2]) == [q1.value, q2.value];
      AddInstruction("CX", [q1, q2], []);
    }

    method Cy(q1: Qubit, q2: Qubit)
      requires Valid() && circuit.Some?
      requires q1.value < numQubits && q2.value < numQubits
      modifies this`circuit
      ensures Valid()
      ensures Appended([Instruction("CY", [q1.value, q2.value], [])])
    {
      assert Indices([q1, q2]) == [q1.value, q2.value];
      AddInstruction("CY", [q1, q2], []);
    }

    method Cz(q1: Qubit, q2: Qubit)
      requires Valid() && circuit.Some?
      requires q1.value < numQubits && q2.value < numQubits
      modifies this`circuit
      ensures Valid()
      ensures Appended([Instruction("CZ", [q1.value, q2.value], [])])
    {
      assert Indices([q1, q2]) == [q1.value, q2.value];
      AddInstruction("CZ", [q1, q2], []);
    }

    method H(q: Qubit)
      requires Valid() && circuit.Some?
      requires q.value < numQubits
      modifies this`circuit
      ensures Valid()
      ensures Appended([Instruction("H", [q.value], [])])
    {
      AddInstructionOn("H", q, []);
    }

    method Reset(q: Qubit)
      requires Valid() && circuit.Some?
      requires q.value < numQubits
      modifies this`circuit
      ensures Valid()
      ensures Appended([Instruction("Reset", [q.value], [])])
    {
      AddInstructionOn("Reset", q, []);
    }

    method Rx(angle: Angle, q: Qubit)
      requires Valid() && circuit.Some?
      requires q.value < numQubits
      modifies this`circuit
      ensures Valid()
      ensures Appended([Instruction("Rx", [q.value], [angle])])
    {
      AddInstructionOn("Rx", q, [angle]);
    }

    method Ry(angle: Angle, q: Qubit)
      requires Valid() && circuit.Some?
      requires q.value < numQubits
      modifies this`circuit
      ensures Valid()
      ensures Appended([Instruction("Ry", [q.value], [angle])])
    {
      AddInstructionOn("Ry", q, [angle]);
    }

    method Rz(angle: Angle, q: Qubit)
      requires Valid() && circuit.Some?
      requires q.value < numQubits
      modifies this`circuit
      ensures Valid()
      ensures Appended([Instruction("Rz", [q.value], [angle])])
    {
      AddInstructionOn("Rz", q, [angle]);
    }

    method Rzz(angle: Angle, q1: Qubit, q2: Qubit)
      requires Valid() && circuit.Some?
      requires q1.value < numQubits && q2.value < numQubits
      modifies this`circuit
      ensures Valid()
      ensures Appended([Instruction("RZZ", [q1.value, q2.value], [angle])])
    {
      assert Indices([q1, q2]) == [q1.value, q2.value];
      AddInstruction("RZZ", [q1, q2], [angle]);
    }

    /** s: a z rotation by pi/2. */
    method S(q: Qubit)
      requires Valid() && circuit.Some?
      requires q.value < numQubits
      modifies this`circuit
      ensures Valid()
      ensures Appended([Instruction("Rz", [q.value], [PiTimes(0.5)])])
    {
      Rz(PiTimes(0.5), q);
    }

    /** s_adj: a z rotation by -pi/2. */
    method SAdj(q: Qubit)
      requires Valid() && circuit.Some?
      requires q.value < numQubits
      modifies this`circuit
      ensures Valid()
      ensures Appended([Instruction("Rz", [q.value], [PiTimes(-0.5)])])
    {
      Rz(PiTimes(-0.5), q);
    }

    /** swap: compiled into three CNOTs, (q1, q2), (q2, q1), (q1, q2), in that order. */
    method Swap(q1: Qubit, q2: Qubit)
      requires Valid() && circuit.Some?
      requires q1.value < numQubits && q2.value < numQubits
      modifies this`circuit
      ensures Valid()
      ensures Appended([
                Instruction("CNOT", [q1.value, q2.value], []),
                Instruction("CNOT", [q2.value, q1.value], []),
                Instruction("CNOT", [q1.value, q2.value], [])])
    {
      ghost var before := circuit.value;
      Cnot(q1, q2);
      Cnot(q2, q1);
      Cnot(q1, q2);
      assert circuit.value == before + [
        Instruction("CNOT", [q1.value, q2.value], []),
        Instruction("CNOT", [q2.value, q1.value], []),
        Instruction("CNOT", [q1.value, q2.value], [])];
    }

    /** t: a z rotation by pi/4. */
    method T(q: Qubit)
      requires Valid() && circuit.Some?
      requires q.value < numQubits
      modifies this`circuit
      ensures Valid()
      ensures Appended([Instruction("Rz", [q.value], [PiTimes(0.25)])])
    {
      Rz(PiTimes(0.25), q);
    }

    /** t_adj: a z rotation by -pi/4. */
    method TAdj(q: Qubit)
      requires Valid() && circuit.Some?
      requires q.value < numQubits
      modifies this`circuit
      ensures Valid()
      ensures Appended([Instruction("Rz", [q.value], [PiTimes(-0.25)])])
    {
      Rz(PiTimes(-0.25), q);
    }

    method X(q: Qubit)
      requires Valid() && circuit.Some?
      requires q.value < numQubits
      modifies this`circuit
      ensures Valid()
      ensures Appended([Instruction("X", [q.value], [])])
    {
      AddInstructionOn("X", q, []);
    }

    method Y(q: Qubit)
      requires Valid() && circuit.Some?
      requires q.value < numQubits
      modifies this`circuit
      ensures Valid()
      ensures Appended([Instruction("Y", [q.value], [])])
    {
      AddInstructionOn("Y", q, []);
    }

    method Z(q: Qubit)
      requires Valid() && circuit.Some?
      requires q.value < numQubits
      modifies this`circuit
      ensures Valid()
      ensures Appended([Instruction("Z", [q.value], [])])
    {
      AddInstructionOn("Z", q, []);
    }
  }

  /**
   * The simulator rotation scenario: on one qubit and one result, h, a
   * rotation by pi/6 about x, and a measurement build a two-instruction
   * circuit, and the result reports on qubit 0.
   */
  method SimRotation() returns (circuit: seq<Instruction>, reported: Qubit)
    ensures circuit == [Instruction("H", [0], []), Instruction("Rx", [0], [PiTimes(1.0 / 6.0)])]
    ensures reported == Qubit(0)
  {
    var x := new XaccQuantum.Init("qsim", 1);
    var s := x.SetUp(EntryPointAttrs(1, 1));
    x.H(Qubit(0));
    x.Rx(PiTimes(1.0 / 6.0), Qubit(0));
    x.Mz(Qubit(0), Result(0));
    reported := x.ResultRecordOutput(Result(0), Some("tag"));
    circuit := x.circuit.value;
    x.TearDown();
  }
}
