/**
 * The execution host (qiree::Executor): binds the six native trampolines at
 * construction, and runs the entry routine with a pair of backends installed
 * in the process-wide active slots, clearing them on every exit path.
 */
module Executor {
  import opened Wrappers
  import opened Types
  import opened Errors
  import opened Ir
  import opened QirModule
  import opened GlobalMapper
  import opened Interfaces
  import opened QuantumTestImpl

  /** The native callbacks the host registers. */
  datatype Trampoline =
    | MzBody
    | HBody
    | CnotBody
    | ReadResultBody
    | ArrayRecordOutput
    | ResultRecordOutput

  /** The fixed table of symbol names and the trampoline bound to each, in binding order. */
  const BindTable: seq<(string, Trampoline)> := [
    (QisSymbol("mz", Body), MzBody),
    (QisSymbol("h", Body), HBody),
    (QisSymbol("cnot", Body), CnotBody),
    (QisSymbol("read_result", Body), ReadResultBody),
    (RtSymbol("array_record_output"), ArrayRecordOutput),
    (RtSymbol("result_record_output"), ResultRecordOutput)
  ]

  /** The table holds six distinct names, each paired with a different trampoline. */
  lemma BindTableDistinct()
    ensures |BindTable| == 6
    ensures forall a, b | 0 <= a < b < |BindTable| :: BindTable[a].0 != BindTable[b].0
    ensures forall a, b | 0 <= a < b < |BindTable| :: BindTable[a].1 != BindTable[b].1
  {
  }

  /** The number of raw tokens each trampoline takes (the tag is separate). */
  function Arity(t: Trampoline): nat
  {
    match t
    case MzBody => 2
    case HBody => 1
    case CnotBody => 2
    case ReadResultBody => 1
    case ArrayRecordOutput => 1
    case ResultRecordOutput => 1
  }

  /** The backend call a trampoline makes: on the quantum or on the output interface. */
  datatype Forward = ToQuantum(qcall: QuantumCall) | ToOutput(ocall: OutputCall)

  /** The trampoline whose forwarding produces calls of this interface member. */
  function Target(f: Forward): Trampoline
  {
    match f
    case ToQuantum(Mz(_, _)) => MzBody
    case ToQuantum(H(_)) => HBody
    case ToQuantum(Cnot(_, _)) => CnotBody
    case ToQuantum(ReadResult(_)) => ReadResultBody
    case ToOutput(RecordArray(_)) => ArrayRecordOutput
    case ToOutput(RecordResult(_, _)) => ResultRecordOutput
  }

  /** The raw tokens inside a backend call's identifiers, in argument order. */
  function Tokens(f: Forward): seq<u64>
  {
    match f
    case ToQuantum(Mz(q, r)) => [q.value, r.value]
    case ToQuantum(H(q)) => [q.value]
    case ToQuantum(Cnot(q1, q2)) => [q1.value, q2.value]
    case ToQuantum(ReadResult(r)) => [r.value]
    case ToOutput(RecordArray(s)) => [s]
    case ToOutput(RecordResult(r, _)) => [r.value]
  }

  /**
   * The six trampolines: each wraps its raw tokens in the identifier type
   * of the matching interface member and forwards them, in order, with the
   * tag, to exactly that member.
   */
  function Forwarded(t: Trampoline, args: seq<u64>, tag: Option<string>): (f: Forward)
    requires |args| == Arity(t)
    ensures Target(f) == t && Tokens(f) == args
    ensures f.ToOutput? && f.ocall.RecordResult? ==> f.ocall.tag == tag
  {
    match t
    case MzBody => ToQuantum(Mz(Qubit(args[0]), Result(args[1])))
    case HBody => ToQuantum(H(Qubit(args[0])))
    case CnotBody => ToQuantum(Cnot(Qubit(args[0]), Qubit(args[1])))
    case ReadResultBody => ToQuantum(ReadResult(Result(args[0])))
    case ArrayRecordOutput => ToOutput(RecordArray(args[0]))
    case ResultRecordOutput => ToOutput(RecordResult(Result(args[0]), tag))
  }

  /** What the read_result trampoline hands back to the program for the state the backend read. */
  function ReadResultReturn(s: QState): (b: bool)
    ensures b <==> s == One
  {
    ToBool(s)
  }

  /** The recording test backends' log entries for one forwarded call. */
  function ForwardedLog(f: Forward): seq<string>
  {
    match f
    case ToQuantum(c) => Recorded(c)
    case ToOutput(_) => []
  }

  /** The forwarded call, if it is one on the quantum interface. */
  function QuantumPart(f: Forward): seq<QuantumCall>
  {
    if f.ToQuantum? then [f.qcall] else []
  }

  /** The forwarded call, if it is one on the output interface. */
  function OutputPart(f: Forward): seq<OutputCall>
  {
    if f.ToOutput? then [f.ocall] else []
  }

  /** How the running program reaches a symbol. */
  datatype Resolution = Native(t: Trampoline) | Defined | Unknown

  /**
   * A bound function reaches its trampoline; a defined one runs its own
   * IR; anything else has no implementation, and because searching the
   * process's libraries is disabled, reaches the lazy-creator error.
   */
  function Resolve(fs: seq<IrFunction>, mappings: map<nat, Trampoline>, symbol: string): Resolution
  {
    match GetFunction(fs, symbol)
    case None => Unknown
    case Some(i) =>
      if i in mappings then Native(mappings[i])
      else if fs[i].hasBody then Defined
      else Unknown
  }

  /**
   * What resolution means in terms of the function a lookup finds: a symbol
   * is unknown exactly when no function carries it or the one found is
   * neither bound nor defined; a bound function reaches its own trampoline.
   */
  lemma ResolveMeaning(fs: seq<IrFunction>, mappings: map<nat, Trampoline>, symbol: string)
    ensures Resolve(fs, mappings, symbol) == Unknown <==>
              forall i: nat | FoundAt(fs, symbol, i) :: i !in mappings && !fs[i].hasBody
    ensures Resolve(fs, mappings, symbol).Native? ==>
              forall i: nat | FoundAt(fs, symbol, i) :: i in mappings && mappings[i] == Resolve(fs, mappings, symbol).t
    ensures Resolve(fs, mappings, symbol) == Defined ==>
              forall i: nat | FoundAt(fs, symbol, i) :: i !in mappings && fs[i].hasBody
  {
    match GetFunction(fs, symbol)
    case None =>
    case Some(k) =>
      forall i: nat | FoundAt(fs, symbol, i)
        ensures i == k
      {
      }
  }

  /** Every binding maps a declaration to the trampoline the table gives for its name. */
  ghost predicate MappingsSound(fs: seq<IrFunction>, mappings: map<nat, Trampoline>)
  {
    forall i | i in mappings :: i < |fs| && !fs[i].hasBody && (fs[i].name, mappings[i]) in BindTable
  }

  /** The bindings made at construction are sound, and every table name that finds a declaration is bound. */
  lemma ConstructionBindings(fs: seq<IrFunction>)
    requires BindAll(fs, map[], BindTable).Returned?
    ensures MappingsSound(fs, BindAll(fs, map[], BindTable).value)
    ensures forall k, i: nat | 0 <= k < |BindTable| && FoundAt(fs, BindTable[k].0, i) ::
              i in BindAll(fs, map[], BindTable).value
  {
    BindAllMappings(fs, map[], BindTable);
    var t := BindAll(fs, map[], BindTable).value;
    forall i | i in t
      ensures i < |fs| && !fs[i].hasBody && (fs[i].name, t[i]) in BindTable
    {
      var k :| 0 <= k < |BindTable| && FoundAt(fs, BindTable[k].0, i) && t[i] == BindTable[k].1;
      assert (fs[i].name, t[i]) == BindTable[k];
    }
  }

  /** With sound bindings, a symbol reaches a trampoline only if the table pairs them. */
  lemma ResolvedSymbolsMatch(fs: seq<IrFunction>, mappings: map<nat, Trampoline>, symbol: string)
    requires MappingsSound(fs, mappings)
    ensures Resolve(fs, mappings, symbol).Native? ==> (symbol, Resolve(fs, mappings, symbol).t) in BindTable
  {
  }

  /** Every call that reaches a trampoline passes it as many tokens as it takes. */
  ghost predicate WellTyped(fs: seq<IrFunction>, mappings: map<nat, Trampoline>, calls: seq<Call>)
  {
    forall j | 0 <= j < |calls| ::
      Resolve(fs, mappings, calls[j].callee).Native? ==>
        |calls[j].args| == Arity(Resolve(fs, mappings, calls[j].callee).t)
  }

  /** The backend call one call of the program makes: through its trampoline, or none at all. */
  function CallTrace(fs: seq<IrFunction>, mappings: map<nat, Trampoline>, c: Call): (t: seq<Forward>)
    ensures |t| <= 1
    ensures t != [] <==> Resolve(fs, mappings, c.callee).Native? && |c.args| == Arity(Resolve(fs, mappings, c.callee).t)
    ensures t != [] ==> Target(t[0]) == Resolve(fs, mappings, c.callee).t && Tokens(t[0]) == c.args
  {
    match Resolve(fs, mappings, c.callee)
    case Native(t) => if |c.args| == Arity(t) then [Forwarded(t, c.args, c.tag)] else []
    case _ => []
  }

  /** The pieces `part` gives for each element, concatenated in order. */
  function Collect<T, U>(part: T -> seq<U>, xs: seq<T>): seq<U>
    decreases |xs|
  {
    if xs == [] then []
    else Collect(part, xs[..|xs| - 1]) + part(xs[|xs| - 1])
  }

  /** Collecting two pieces one after the other collects the first piece, then the second. */
  lemma {:induction false} CollectAppend<T, U>(part: T -> seq<U>, a: seq<T>, b: seq<T>)
    ensures Collect(part, a + b) == Collect(part, a) + Collect(part, b)
    decreases |b|
  {
    if b == [] {
      assert a + b == a;
    } else {
      var n := |b| - 1;
      assert (a + b)[..|a + b| - 1] == a + b[..n];
      assert (a + b)[|a + b| - 1] == b[n];
      CollectAppend(part, a, b[..n]);
    }
  }

  /** Collecting one piece per element, each a single value, gives the sequence of those values. */
  lemma {:induction false} CollectEach<T, U>(part: T -> seq<U>, xs: seq<T>, ys: seq<U>)
    requires |xs| == |ys| && forall k | 0 <= k < |xs| :: part(xs[k]) == [ys[k]]
    ensures Collect(part, xs) == ys
    decreases |xs|
  {
    if xs != [] {
      var n := |xs| - 1;
      CollectEach(part, xs[..n], ys[..n]);
      assert ys == ys[..n] + [ys[n]];
    }
  }

  /** The backend calls a sequence of program calls makes, call after call. */
  function Trace(fs: seq<IrFunction>, mappings: map<nat, Trampoline>, calls: seq<Call>): seq<Forward>
  {
    Collect(c => CallTrace(fs, mappings, c), calls)
  }

  /** The host neither reorders nor batches: running two pieces of program traces the first piece, then the second. */
  lemma TraceAppend(fs: seq<IrFunction>, mappings: map<nat, Trampoline>, a: seq<Call>, b: seq<Call>)
    ensures Trace(fs, mappings, a + b) == Trace(fs, mappings, a) + Trace(fs, mappings, b)
  {
    CollectAppend(c => CallTrace(fs, mappings, c), a, b);
  }

  /** What the recording quantum test backend logs for a trace. */
  function Commands(trace: seq<Forward>): seq<string>
  {
    Collect(ForwardedLog, trace)
  }

  /** The calls of a trace that reach the quantum interface, in order. */
  function QuantumCalls(trace: seq<Forward>): seq<QuantumCall>
  {
    Collect(QuantumPart, trace)
  }

  /** The calls of a trace that reach the output interface, in order. */
  function OutputCalls(trace: seq<Forward>): seq<OutputCall>
  {
    Collect(OutputPart, trace)
  }

  /** The empty trace adds nothing to the log or to either backend's calls. */
  lemma ViewsEmpty(q0: seq<QuantumCall>, r0: seq<OutputCall>, l0: seq<string>)
    ensures q0 + QuantumCalls([]) == q0 && r0 + OutputCalls([]) == r0 && l0 + Commands([]) == l0
  {
    assert q0 + [] == q0 && r0 + [] == r0 && l0 + [] == l0;
  }

  /** Concatenation regroups freely. */
  lemma Regroup<T>(a: seq<T>, b: seq<T>, c: seq<T>)
    ensures a + b + c == a + (b + c)
  {
  }

  /** A single forwarded call's share of the log and of each backend's calls. */
  lemma ViewsOne(f: Forward)
    ensures Commands([f]) == ForwardedLog(f)
    ensures QuantumCalls([f]) == QuantumPart(f)
    ensures OutputCalls([f]) == OutputPart(f)
  {
    assert [f][..0] == [];
    assert Commands([]) + ForwardedLog(f) == ForwardedLog(f);
    assert QuantumCalls([]) + QuantumPart(f) == QuantumPart(f);
    assert OutputCalls([]) + OutputPart(f) == OutputPart(f);
  }

  /** Extending a trace extends the log and each backend's calls by the extension's. */
  lemma ViewsAppend(a: seq<Forward>, b: seq<Forward>)
    ensures Commands(a + b) == Commands(a) + Commands(b)
    ensures QuantumCalls(a + b) == QuantumCalls(a) + QuantumCalls(b)
    ensures OutputCalls(a + b) == OutputCalls(a) + OutputCalls(b)
  {
    CollectAppend(ForwardedLog, a, b);
    CollectAppend(QuantumPart, a, b);
    CollectAppend(OutputPart, a, b);
  }

  /** The first call of the program whose symbol resolves to nothing. */
  function FirstUnknown(fs: seq<IrFunction>, mappings: map<nat, Trampoline>, calls: seq<Call>): (r: Option<nat>)
    ensures r.Some? ==> r.value < |calls| && Resolve(fs, mappings, calls[r.value].callee) == Unknown
    ensures r.Some? ==> forall j | 0 <= j < r.value :: Resolve(fs, mappings, calls[j].callee) != Unknown
    ensures r.None? ==> forall j | 0 <= j < |calls| :: Resolve(fs, mappings, calls[j].callee) != Unknown
    decreases |calls|
  {
    if calls == [] then None
    else
      var n := |calls| - 1;
      match FirstUnknown(fs, mappings, calls[..n])
      case Some(k) => Some(k)
      case None => if Resolve(fs, mappings, calls[n].callee) == Unknown then Some(n) else None
  }

  /** The first unknown call is the one the run stops at. */
  lemma FirstUnknownIs(fs: seq<IrFunction>, mappings: map<nat, Trampoline>, calls: seq<Call>, i: nat)
    requires i < |calls| && Resolve(fs, mappings, calls[i].callee) == Unknown
    requires forall j | 0 <= j < i :: Resolve(fs, mappings, calls[j].callee) != Unknown
    ensures FirstUnknown(fs, mappings, calls) == Some(i)
  {
  }

  /** A run in which every call resolves has no first unknown call. */
  lemma NoUnknown(fs: seq<IrFunction>, mappings: map<nat, Trampoline>, calls: seq<Call>)
    requires forall j | 0 <= j < |calls| :: Resolve(fs, mappings, calls[j].callee) != Unknown
    ensures FirstUnknown(fs, mappings, calls) == None
  {
  }

  /** The calls a run performs: all of them, or those before the first unknown one. */
  function Executed(fs: seq<IrFunction>, mappings: map<nat, Trampoline>, calls: seq<Call>): (done: seq<Call>)
    ensures done <= calls
    ensures forall c | c in done :: Resolve(fs, mappings, c.callee) != Unknown
    ensures |done| < |calls| ==> Resolve(fs, mappings, calls[|done|].callee) == Unknown
  {
    match FirstUnknown(fs, mappings, calls)
    case None => calls
    case Some(k) => calls[..k]
  }

  /** How a run ends: normally, or with the lazy-creator error naming the first unknown symbol. */
  function RunStatus(fs: seq<IrFunction>, mappings: map<nat, Trampoline>, calls: seq<Call>): (s: Status)
    ensures s.Returned? <==> forall c | c in calls :: Resolve(fs, mappings, c.callee) != Unknown
    ensures s.Threw? ==> s.error.UnknownFunction? && exists c | c in calls :: c.callee == s.error.name && Resolve(fs, mappings, c.callee) == Unknown
  {
    match FirstUnknown(fs, mappings, calls)
    case None => Returned(())
    case Some(k) => Threw(UnknownFunction(calls[k].callee))
  }

  /** How a run of the entry routine ends, and the backend calls it made, in order. */
  datatype RunResult = RunResult(status: Status, trace: seq<Forward>)

  /**
   * The entry routine's calls, executed one after another: a call whose
   * symbol resolves to nothing throws, and nothing after it runs.
   */
  function Run(fs: seq<IrFunction>, mappings: map<nat, Trampoline>, calls: seq<Call>): (r: RunResult)
    ensures r.status.Threw? ==> r.status.error.UnknownFunction?
    decreases |calls|
  {
    if calls == [] then RunResult(Returned(()), [])
    else
      var prev := Run(fs, mappings, calls[..|calls| - 1]);
      var c := calls[|calls| - 1];
      if prev.status.Threw? then prev
      else if Resolve(fs, mappings, c.callee) == Unknown then RunResult(Threw(UnknownFunction(c.callee)), prev.trace)
      else RunResult(Returned(()), prev.trace + CallTrace(fs, mappings, c))
  }

  /** One more call of a run that has not thrown: it throws if unknown, and otherwise makes its backend call. */
  lemma RunStep(fs: seq<IrFunction>, mappings: map<nat, Trampoline>, calls: seq<Call>, i: nat)
    requires i < |calls| && Run(fs, mappings, calls[..i]).status.Returned?
    ensures Resolve(fs, mappings, calls[i].callee) == Unknown ==>
              Run(fs, mappings, calls[..i + 1]) ==
                RunResult(Threw(UnknownFunction(calls[i].callee)), Run(fs, mappings, calls[..i]).trace)
    ensures Resolve(fs, mappings, calls[i].callee) != Unknown ==>
              Run(fs, mappings, calls[..i + 1]) ==
                RunResult(Returned(()), Run(fs, mappings, calls[..i]).trace + CallTrace(fs, mappings, calls[i]))
    ensures Run(fs, mappings, calls[..i + 1]).trace == Run(fs, mappings, calls[..i]).trace + CallTrace(fs, mappings, calls[i])
  {
    assert calls[..i + 1][..i] == calls[..i];
    if Resolve(fs, mappings, calls[i].callee) == Unknown {
      assert Run(fs, mappings, calls[..i]).trace + [] == Run(fs, mappings, calls[..i]).trace;
    }
  }

  /** Once a prefix of the program has thrown, the rest of it changes nothing. */
  lemma {:induction false} RunStopsAtFirstError(fs: seq<IrFunction>, mappings: map<nat, Trampoline>, calls: seq<Call>, k: nat)
    requires k <= |calls|
    requires Run(fs, mappings, calls[..k]).status.Threw?
    ensures Run(fs, mappings, calls) == Run(fs, mappings, calls[..k])
    decreases |calls| - k
  {
    if k < |calls| {
      assert calls[..k + 1][..k] == calls[..k];
      RunStopsAtFirstError(fs, mappings, calls, k + 1);
    } else {
      assert calls[..k] == calls;
    }
  }

  /** RunMeaning's step for a program whose last call is the new one: the earlier calls already threw. */
  lemma RunMeaningAfterThrow(fs: seq<IrFunction>, mappings: map<nat, Trampoline>, calls: seq<Call>, k: nat)
    requires calls != [] && FirstUnknown(fs, mappings, calls[..|calls| - 1]) == Some(k)
    requires Run(fs, mappings, calls[..|calls| - 1]).status == RunStatus(fs, mappings, calls[..|calls| - 1])
    requires Run(fs, mappings, calls[..|calls| - 1]).trace == Trace(fs, mappings, Executed(fs, mappings, calls[..|calls| - 1]))
    ensures Run(fs, mappings, calls).status == RunStatus(fs, mappings, calls)
    ensures Run(fs, mappings, calls).trace == Trace(fs, mappings, Executed(fs, mappings, calls))
  {
    var front := calls[..|calls| - 1];
    assert front[k] == calls[k];
    assert forall j | 0 <= j < k :: front[j] == calls[j];
    FirstUnknownIs(fs, mappings, calls, k);
    assert front[..k] == calls[..k];
  }

  /** RunMeaning's step when the earlier calls all resolved and the new one does not. */
  lemma RunMeaningThrowsLast(fs: seq<IrFunction>, mappings: map<nat, Trampoline>, calls: seq<Call>)
    requires calls != [] && FirstUnknown(fs, mappings, calls[..|calls| - 1]) == None
    requires Resolve(fs, mappings, calls[|calls| - 1].callee) == Unknown
    requires Run(fs, mappings, calls[..|calls| - 1]).status == RunStatus(fs, mappings, calls[..|calls| - 1])
    requires Run(fs, mappings, calls[..|calls| - 1]).trace == Trace(fs, mappings, Executed(fs, mappings, calls[..|calls| - 1]))
    ensures Run(fs, mappings, calls).status == RunStatus(fs, mappings, calls)
    ensures Run(fs, mappings, calls).trace == Trace(fs, mappings, Executed(fs, mappings, calls))
  {
  }

  /** RunMeaning's step when every call, the new one included, resolves. */
  lemma RunMeaningResolvesLast(fs: seq<IrFunction>, mappings: map<nat, Trampoline>, calls: seq<Call>)
    requires calls != [] && FirstUnknown(fs, mappings, calls[..|calls| - 1]) == None
    requires Resolve(fs, mappings, calls[|calls| - 1].callee) != Unknown
    requires Run(fs, mappings, calls[..|calls| - 1]).status == RunStatus(fs, mappings, calls[..|calls| - 1])
    requires Run(fs, mappings, calls[..|calls| - 1]).trace == Trace(fs, mappings, Executed(fs, mappings, calls[..|calls| - 1]))
    ensures Run(fs, mappings, calls).status == RunStatus(fs, mappings, calls)
    ensures Run(fs, mappings, calls).trace == Trace(fs, mappings, Executed(fs, mappings, calls))
  {
  }

  /**
   * A run throws exactly at the first unknown call, naming its symbol, and
   * forwards exactly the calls before it, in program order.
   */
  lemma {:induction false} RunMeaning(fs: seq<IrFunction>, mappings: map<nat, Trampoline>, calls: seq<Call>)
    ensures Run(fs, mappings, calls).status == RunStatus(fs, mappings, calls)
    ensures Run(fs, mappings, calls).trace == Trace(fs, mappings, Executed(fs, mappings, calls))
    decreases |calls|
  {
    if calls != [] {
      var n := |calls| - 1;
      RunMeaning(fs, mappings, calls[..n]);
      match FirstUnknown(fs, mappings, calls[..n])
      case Some(k) =>
        RunMeaningAfterThrow(fs, mappings, calls, k);
      case None =>
        if Resolve(fs, mappings, calls[n].callee) == Unknown {
          RunMeaningThrowsLast(fs, mappings, calls);
        } else {
          RunMeaningResolvesLast(fs, mappings, calls);
        }
    }
  }

  /**
   * What runFunction executes for the entry routine: a defined function runs
   * its own calls, while a declaration is itself resolved as a symbol, like
   * any call the program makes.
   */
  function EntryRoutine(f: IrFunction): seq<Call>
  {
    if f.hasBody then f.calls else [Call(f.name, [], None)]
  }

  /**
   * An entry routine that is only declared and not bound reaches the lazy
   * creator: the run throws "cannot call unknown function" naming it, and
   * nothing is forwarded.
   */
  lemma DeclaredEntryFails(fs: seq<IrFunction>, mappings: map<nat, Trampoline>, e: nat)
    requires e < |fs| && !fs[e].hasBody && FoundAt(fs, fs[e].name, e) && e !in mappings
    ensures Run(fs, mappings, EntryRoutine(fs[e])) == RunResult(Threw(UnknownFunction(fs[e].name)), [])
  {
    ResolveMeaning(fs, mappings, fs[e].name);
    assert EntryRoutine(fs[e])[..0] == [];
  }

  /**
   * The Bell program: a defined entry routine and four declarations. Its
   * calls are h on qubit 0, cnot on qubits 0 and 1, a measurement of each
   * qubit into its own result, and an untagged recording of each result.
   */
  const BellH := IrFunction(QisSymbol("h", Body), false, [], [])
  const BellCnot := IrFunction(QisSymbol("cnot", Body), false, [], [])
  const BellMz := IrFunction(QisSymbol("mz", Body), false, [], [])
  const BellRecord := IrFunction(RtSymbol("result_record_output"), false, [], [])
  const BellCalls := [Call(BellH.name, [0], None), Call(BellCnot.name, [0, 1], None),
                      Call(BellMz.name, [0, 0], None), Call(BellMz.name, [1, 1], None),
                      Call(BellRecord.name, [0], None), Call(BellRecord.name, [1], None)]
  const BellFunctions := [IrFunction("main", true, [[StringAttribute("entry_point", "")]], BellCalls),
                          BellH, BellCnot, BellMz, BellRecord]
  const BellMappings := map[3 := MzBody, 1 := HBody, 2 := CnotBody, 4 := ResultRecordOutput]

  /** The callbacks the Bell program reaches: h, cnot, mz, mz, record_output, record_output. */
  const BellTrace := [ToQuantum(H(Qubit(0))), ToQuantum(Cnot(Qubit(0), Qubit(1))),
                      ToQuantum(Mz(Qubit(0), Result(0))), ToQuantum(Mz(Qubit(1), Result(1))),
                      ToOutput(RecordResult(Result(0), None)), ToOutput(RecordResult(Result(1), None))]

  /** Where each name of the bind table is found in the Bell program. */
  lemma BellLookups()
    ensures FoundAt(BellFunctions, BindTable[0].0, 3)
    ensures FoundAt(BellFunctions, BindTable[1].0, 1)
    ensures FoundAt(BellFunctions, BindTable[2].0, 2)
    ensures forall j | 0 <= j < |BellFunctions| :: BellFunctions[j].name != BindTable[3].0
    ensures forall j | 0 <= j < |BellFunctions| :: BellFunctions[j].name != BindTable[4].0
    ensures FoundAt(BellFunctions, BindTable[5].0, 4)
  {
    var fs := BellFunctions;
    assert |fs[0].name| == 4 && |BellH.name| == 23 && |BellCnot.name| == 26 && |BellMz.name| == 24 && |BellRecord.name| == 35;
    assert |BindTable[3].0| == 33 && |BindTable[4].0| == 34;
  }

  /** Constructing a host for the Bell program binds h, cnot, mz and result_record_output, and nothing else. */
  lemma BellBindings()
    ensures BindAll(BellFunctions, map[], BindTable) == Returned(BellMappings)
  {
    var fs, t := BellFunctions, BindTable;
    BellLookups();
    assert t[..1][..0] == [];
    assert t[..2][..1] == t[..1];
    assert t[..3][..2] == t[..2];
    assert t[..4][..3] == t[..3];
    assert t[..5][..4] == t[..4];
    assert t[..6][..5] == t[..5];
    assert t[..6] == t;
    assert BindAll(fs, map[], t[..1]) == Returned(map[3 := MzBody]);
    assert BindAll(fs, map[], t[..2]) == Returned(map[3 := MzBody, 1 := HBody]);
    assert BindAll(fs, map[], t[..3]) == Returned(map[3 := MzBody, 1 := HBody, 2 := CnotBody]);
    assert BindAll(fs, map[], t[..5]) == Returned(map[3 := MzBody, 1 := HBody, 2 := CnotBody]);
    assert BindAll(fs, map[], t) == Returned(map[3 := MzBody, 1 := HBody, 2 := CnotBody, 4 := ResultRecordOutput]);
  }

  /** With those bindings, each call of the Bell program makes the callback the trace lists at its position. */
  lemma BellCallTraces()
    ensures forall k | 0 <= k < |BellCalls| :: CallTrace(BellFunctions, BellMappings, BellCalls[k]) == [BellTrace[k]]
  {
    var fs, mappings := BellFunctions, BellMappings;
    BellLookups();
    assert Resolve(fs, mappings, BellH.name) == Native(HBody);
    assert Resolve(fs, mappings, BellCnot.name) == Native(CnotBody);
    assert Resolve(fs, mappings, BellMz.name) == Native(MzBody);
    assert Resolve(fs, mappings, BellRecord.name) == Native(ResultRecordOutput);
  }

  /**
   * The Bell program, run on the host constructed for it: the host finds
   * main as its entry routine and binds the four gates it declares; the run
   * returns, and its callbacks come in program order: h, cnot, mz, mz,
   * record_output, record_output.
   */
  lemma BellRun()
    ensures FindEntryPoint(BellFunctions) == Some(0) && BellFunctions[0].calls == BellCalls
    ensures BindAll(BellFunctions, map[], BindTable) == Returned(BellMappings)
    ensures Run(BellFunctions, BellMappings, BellCalls) == RunResult(Returned(()), BellTrace)
  {
    var fs, mappings, calls := BellFunctions, BellMappings, BellCalls;
    assert IsEntryPointMarker(fs[0].attributeSets[0][0]);
    BellBindings();
    BellCallTraces();
    CollectEach(c => CallTrace(fs, mappings, c), calls, BellTrace);
    assert forall k | 0 <= k < |calls| :: Resolve(fs, mappings, calls[k].callee) != Unknown;
    NoUnknown(fs, mappings, calls);
    RunMeaning(fs, mappings, calls);
  }

  /** What the recording backends see of the Bell callbacks: the log h, cnot, mz, mz, and the two recordings. */
  lemma BellViews()
    ensures QuantumCalls(BellTrace) == [H(Qubit(0)), Cnot(Qubit(0), Qubit(1)), Mz(Qubit(0), Result(0)), Mz(Qubit(1), Result(1))]
    ensures OutputCalls(BellTrace) == [RecordResult(Result(0), None), RecordResult(Result(1), None)]
    ensures Commands(BellTrace) == ["h", "cnot", "mz", "mz"]
  {
    var t := BellTrace;
    assert t == [t[0]] + [t[1]] + [t[2]] + [t[3]] + [t[4]] + [t[5]];
    ViewsOne(t[0]);
    ViewsOne(t[1]);
    ViewsOne(t[2]);
    ViewsOne(t[3]);
    ViewsOne(t[4]);
    ViewsOne(t[5]);
    ViewsAppend([t[0]], [t[1]]);
    ViewsAppend([t[0]] + [t[1]], [t[2]]);
    ViewsAppend([t[0]] + [t[1]] + [t[2]], [t[3]]);
    ViewsAppend([t[0]] + [t[1]] + [t[2]] + [t[3]], [t[4]]);
    ViewsAppend([t[0]] + [t[1]] + [t[2]] + [t[3]] + [t[4]], [t[5]]);
  }

  /**
   * The recording backends have seen `trace` since they held q0, r0 and l0:
   * each backend has received exactly its calls of the trace, and the log
   * has grown by exactly the trace's entries.
   */
  ghost predicate Reflects(q: QuantumTestImpl, r: ResultTestImpl, q0: seq<QuantumCall>, r0: seq<OutputCall>,
                           l0: seq<string>, trace: seq<Forward>)
    reads q, r, q.tr
  {
    && q.received == q0 + QuantumCalls(trace)
    && r.received == r0 + OutputCalls(trace)
    && q.tr.commands == l0 + Commands(trace)
  }

  /** The process-wide slots q_interface_ and r_interface_, shared by every host. */
  class ActiveInterfaces {
    var quantum: QuantumTestImpl?
    var result: ResultTestImpl?

    /** No execution in flight. */
    predicate Idle()
      reads this
    {
      quantum == null && result == null
    }

    /** Both slots are null, or both are set. */
    predicate Consistent()
      reads this
    {
      (quantum == null) == (result == null)
    }

    constructor ()
      ensures Idle()
    {
      quantum := null;
      result := null;
    }
  }

  /** One step of the constructor's bind sequence: bind entry k of the table. */
  method BindEntry(bind: GlobalMapper<Trampoline>, k: nat) returns (o: Status)
    requires k < |BindTable|
    requires BindAll(bind.mod.functions, map[], BindTable[..k]) == Returned(bind.ee.mappings)
    modifies bind.ee`mappings
    ensures o.Returned? ==> BindAll(bind.mod.functions, map[], BindTable[..k + 1]) == Returned(bind.ee.mappings)
    ensures o.Threw? ==> BindAll(bind.mod.functions, map[], BindTable) == Threw(o.error)
    ensures o.Returned? && k + 1 == |BindTable| ==> BindAll(bind.mod.functions, map[], BindTable) == Returned(bind.ee.mappings)
  {
    assert BindTable[..k + 1][..k] == BindTable[..k];
    o := bind.Bind(BindTable[k].0, BindTable[k].1);
    if o.Threw? {
      BindAllStopsAtFirstError(bind.mod.functions, map[], BindTable, k + 1);
    }
    assert BindTable[..|BindTable|] == BindTable;
  }

  /** The four quantum-instruction binds of the constructor, in table order. */
  method BindQisEntries(bind: GlobalMapper<Trampoline>) returns (o: Status)
    requires bind.ee.mappings == map[]
    modifies bind.ee`mappings
    ensures o.Returned? ==> BindAll(bind.mod.functions, map[], BindTable[..4]) == Returned(bind.ee.mappings)
    ensures o.Threw? ==> BindAll(bind.mod.functions, map[], BindTable) == Threw(o.error)
  {
    assert BindTable[..0] == [];
    o := BindEntry(bind, 0);
    if o.Threw? {
      return;
    }
    o := BindEntry(bind, 1);
    if o.Threw? {
      return;
    }
    o := BindEntry(bind, 2);
    if o.Threw? {
      return;
    }
    o := BindEntry(bind, 3);
  }

  /** The two runtime binds of the constructor, after the quantum-instruction ones. */
  method BindRtEntries(bind: GlobalMapper<Trampoline>) returns (o: Status)
    requires BindAll(bind.mod.functions, map[], BindTable[..4]) == Returned(bind.ee.mappings)
    modifies bind.ee`mappings
    ensures o.Returned? ==> BindAll(bind.mod.functions, map[], BindTable) == Returned(bind.ee.mappings)
    ensures o.Threw? ==> BindAll(bind.mod.functions, map[], BindTable) == Threw(o.error)
  {
    o := BindEntry(bind, 4);
    if o.Threw? {
      return;
    }
    o := BindEntry(bind, 5);
  }

  class Executor {
    /** module_: the module, owned by the engine. */
    const ir: IrModule
    /** entrypoint_: the routine operator() runs. */
    const entrypoint: nat
    /** ee_: the execution engine. */
    const engine: ExecutionEngine<Trampoline>
    /** The process-wide active slots. */
    const active: ActiveInterfaces

    ghost predicate Valid()
      reads this, engine
    {
      && engine.ir == ir
      && entrypoint < |ir.functions|
      && MappingsSound(ir.functions, engine.mappings)
      && !engine.symbolSearching
    }

    /** The external calls the entry routine makes, in program order (see EntryRoutine). */
    function EntryCalls(): seq<Call>
      requires entrypoint < |ir.functions|
    {
      EntryRoutine(ir.functions[entrypoint])
    }

    constructor Init(ir: IrModule, entrypoint: nat, engine: ExecutionEngine<Trampoline>, active: ActiveInterfaces)
      ensures this.ir == ir && this.entrypoint == entrypoint
      ensures this.engine == engine && this.active == active
    {
      this.ir := ir;
      this.entrypoint := entrypoint;
      this.engine := engine;
      this.active := active;
    }

    /**
     * Executor(Module&&): takes the module (the handle is left invalid on
     * every path), creates the engine (`engineDiagnostic` is the engine
     * builder's error text when it fails), disables library symbol search
     * and binds the six names in table order, stopping at the first error.
     */
    static method Create(m: Module, active: ActiveInterfaces, engineDiagnostic: Option<string>)
      returns (r: Outcome<Executor>)
      requires m.IsValid() && m.entrypoint.Some? && m.Wellformed()
      modifies m
      ensures !m.IsValid() && m.entrypoint == old(m.entrypoint)
      ensures engineDiagnostic.Some? ==> r == Threw(EngineCreationFailed(engineDiagnostic.value))
      ensures engineDiagnostic.None? ==>
                match BindAll(old(m.ir.value.functions), map[], BindTable)
                case Threw(e) => r == Threw(e)
                case Returned(t) =>
                  && r.Returned? && fresh(r.value) && fresh(r.value.engine) && r.value.Valid()
                  && r.value.ir == old(m.ir.value) && r.value.entrypoint == old(m.entrypoint.value)
                  && r.value.active == active && r.value.engine.mappings == t
                  && !r.value.engine.symbolSearching
    {
      var ir := m.ir.value;
      var entry := m.entrypoint.value;
      // The engine builder takes ownership of the module.
      m.ir := None;
      if engineDiagnostic.Some? {
        return Threw(EngineCreationFailed(engineDiagnostic.value));
      }
      var engine := new ExecutionEngine<Trampoline>(ir);
      engine.DisableSymbolSearching();
      var bind := new GlobalMapper<Trampoline>(ir, engine);
      var o := BindQisEntries(bind);
      if o.Threw? {
        return Threw(o.error);
      }
      o := BindRtEntries(bind);
      if o.Threw? {
        return Threw(o.error);
      }
      ConstructionBindings(ir.functions);
      var e := new Executor.Init(ir, entry, engine, active);
      return Returned(e);
    }

    /**
     * The trampoline t, called by the running program: forwards the wrapped
     * tokens to the backend in the active slot, exactly once, and calls
     * nothing on the other backend.
     */
    method Dispatch(t: Trampoline, args: seq<u64>, tag: Option<string>) returns (ret: Option<bool>)
      requires active.quantum != null && active.result != null
      requires |args| == Arity(t)
      modifies active.quantum, active.quantum.tr, active.result
      ensures Forwarded(t, args, tag).ToQuantum? ==>
                && active.quantum.received == old(active.quantum.received) + [Forwarded(t, args, tag).qcall]
                && active.result.received == old(active.result.received)
      ensures Forwarded(t, args, tag).ToOutput? ==>
                && active.result.received == old(active.result.received) + [Forwarded(t, args, tag).ocall]
                && active.quantum.received == old(active.quantum.received)
      ensures active.quantum.tr.commands ==
                old(active.quantum.tr.commands) + ForwardedLog(Forwarded(t, args, tag))
      ensures ret.Some? <==> t == ReadResultBody
      ensures t == ReadResultBody ==> ret == Some(ReadResultReturn(Zero))
    {
      var q := active.quantum;
      var r := active.result;
      match Forwarded(t, args, tag)
      case ToQuantum(Mz(a, b)) =>
        q.Mz(a, b);
        ret := None;
      case ToQuantum(H(a)) =>
        q.H(a);
        ret := None;
      case ToQuantum(Cnot(a, b)) =>
        q.Cnot(a, b);
        ret := None;
      case ToQuantum(ReadResult(a)) =>
        var s := q.ReadResult(a);
        ret := Some(ReadResultReturn(s));
      case ToOutput(RecordArray(s)) =>
        var _ := r.RecordOutputSize(s);
        ret := None;
      case ToOutput(RecordResult(a, g)) =>
        r.RecordOutput(a, g);
        ret := None;
    }

    /**
     * operator()(qi, ri): refuses to start while either slot is set, leaving
     * both slots and both backends as they were; otherwise installs qi and
     * ri, runs the entry routine call by call (each call reaching the
     * backends through the slots), and clears both slots whether the run
     * returns or throws.
     */
    method Call(qi: QuantumTestImpl, ri: ResultTestImpl) returns (out: Status)
      requires Valid()
      requires WellTyped(ir.functions, engine.mappings, EntryCalls())
      modifies active, qi, qi.tr, ri
      ensures !old(active.Idle()) ==>
                && out == Threw(Reentered)
                && active.quantum == old(active.quantum) && active.result == old(active.result)
                && qi.tr.commands == old(qi.tr.commands)
                && qi.received == old(qi.received) && ri.received == old(ri.received)
      ensures old(active.Consistent()) ==> active.Consistent()
      ensures old(active.Idle()) ==> active.Idle()
      ensures old(active.Idle()) ==> out == Run(ir.functions, engine.mappings, EntryCalls()).status
      ensures old(active.Idle()) ==>
                qi.received == old(qi.received) + QuantumCalls(Run(ir.functions, engine.mappings, EntryCalls()).trace)
      ensures old(active.Idle()) ==>
                ri.received == old(ri.received) + OutputCalls(Run(ir.functions, engine.mappings, EntryCalls()).trace)
      ensures old(active.Idle()) ==>
                qi.tr.commands == old(qi.tr.commands) + Commands(Run(ir.functions, engine.mappings, EntryCalls()).trace)
    {
      if active.quantum != null || active.result != null {
        return Threw(Reentered);
      }
      active.quantum := qi;
      active.result := ri;
      out := RunEntry();
      // EndGuard: runs on every exit from the entry routine.
      active.quantum := null;
      active.result := null;
    }

    /** One external call of the running program: through its trampoline, into its own IR, or to the lazy-creator error. */
    method Perform(c: Call) returns (resolved: bool)
      requires active.quantum != null && active.result != null
      requires Resolve(ir.functions, engine.mappings, c.callee).Native? ==>
                 |c.args| == Arity(Resolve(ir.functions, engine.mappings, c.callee).t)
      modifies active.quantum, active.quantum.tr, active.result
      ensures resolved <==> Resolve(ir.functions, engine.mappings, c.callee) != Unknown
      ensures active.quantum.received ==
                old(active.quantum.received) + QuantumCalls(CallTrace(ir.functions, engine.mappings, c))
      ensures active.result.received ==
                old(active.result.received) + OutputCalls(CallTrace(ir.functions, engine.mappings, c))
      ensures active.quantum.tr.commands ==
                old(active.quantum.tr.commands) + Commands(CallTrace(ir.functions, engine.mappings, c))
    {
      match Resolve(ir.functions, engine.mappings, c.callee) {
        case Unknown =>
          resolved := false;
        case Defined =>
          resolved := true;
        case Native(t) =>
          ViewsOne(Forwarded(t, c.args, c.tag));
          var _ := Dispatch(t, c.args, c.tag);
          resolved := true;
      }
    }

    /** Perform a call after the backends have seen `before`: afterwards they have seen its backend call too. */
    method Advance(c: Call, ghost q0: seq<QuantumCall>, ghost r0: seq<OutputCall>, ghost l0: seq<string>,
                   ghost before: seq<Forward>) returns (resolved: bool)
      requires active.quantum != null && active.result != null
      requires Resolve(ir.functions, engine.mappings, c.callee).Native? ==>
                 |c.args| == Arity(Resolve(ir.functions, engine.mappings, c.callee).t)
      requires Reflects(active.quantum, active.result, q0, r0, l0, before)
      modifies active.quantum, active.quantum.tr, active.result
      ensures resolved <==> Resolve(ir.functions, engine.mappings, c.callee) != Unknown
      ensures Reflects(active.quantum, active.result, q0, r0, l0, before + CallTrace(ir.functions, engine.mappings, c))
    {
      var step := CallTrace(ir.functions, engine.mappings, c);
      ViewsAppend(before, step);
      Regroup(q0, QuantumCalls(before), QuantumCalls(step));
      Regroup(r0, OutputCalls(before), OutputCalls(step));
      Regroup(l0, Commands(before), Commands(step));
      resolved := Perform(c);
    }

    /** The entry routine running with both slots installed: its external calls, in program order. */
    method RunEntry() returns (out: Status)
      requires entrypoint < |ir.functions|
      requires WellTyped(ir.functions, engine.mappings, EntryCalls())
      requires active.quantum != null && active.result != null
      modifies active.quantum, active.quantum.tr, active.result
      ensures out == Run(ir.functions, engine.mappings, EntryCalls()).status
      ensures active.quantum.received ==
                old(active.quantum.received) + QuantumCalls(Run(ir.functions, engine.mappings, EntryCalls()).trace)
      ensures active.result.received ==
                old(active.result.received) + OutputCalls(Run(ir.functions, engine.mappings, EntryCalls()).trace)
      ensures active.quantum.tr.commands ==
                old(active.quantum.tr.commands) + Commands(Run(ir.functions, engine.mappings, EntryCalls()).trace)
    {
      out := Execute(EntryCalls());
    }

    /** Run `calls` one after another, stopping at the first that throws. */
    method Execute(calls: seq<Call>) returns (out: Status)
      requires WellTyped(ir.functions, engine.mappings, calls)
      requires active.quantum != null && active.result != null
      modifies active.quantum, active.quantum.tr, active.result
      ensures out == Run(ir.functions, engine.mappings, calls).status
      ensures Reflects(active.quantum, active.result, old(active.quantum.received), old(active.result.received),
                       old(active.quantum.tr.commands), Run(ir.functions, engine.mappings, calls).trace)
    {
      var fs := ir.functions;
      var mappings := engine.mappings;
      var q, r := active.quantum, active.result;
      ghost var q0, r0, l0 := q.received, r.received, q.tr.commands;
      ViewsEmpty(q0, r0, l0);
      out := Returned(());
      var i := 0;
      ghost var sofar := RunResult(Returned(()), []);
      while i < |calls| && out.Returned?
        invariant 0 <= i <= |calls|
        invariant sofar == Run(fs, mappings, calls[..i]) && out == sofar.status
        invariant Reflects(q, r, q0, r0, l0, sofar.trace)
      {
        RunStep(fs, mappings, calls, i);
        var resolved := Advance(calls[i], q0, r0, l0, sofar.trace);
        if !resolved {
          out := Threw(UnknownFunction(calls[i].callee));
        }
        sofar := Run(fs, mappings, calls[..i + 1]);
        i := i + 1;
      }
      if out.Threw? {
        RunStopsAtFirstError(fs, mappings, calls, i);
      } else {
        assert calls[..i] == calls;
      }
    }
  }

  /** A host for a program whose entry routine makes no external calls, using the given slots. */
  method IdleHost(active: ActiveInterfaces) returns (e: Executor)
    ensures fresh(e) && fresh(e.engine) && e.active == active && e.Valid()
    ensures e.EntryCalls() == [] && WellTyped(e.ir.functions, e.engine.mappings, e.EntryCalls())
  {
    var ir := IrModule([IrFunction("main", true, [[StringAttribute("entry_point", "")]], [])]);
    var engine := new ExecutionEngine<Trampoline>(ir);
    engine.DisableSymbolSearching();
    e := new Executor.Init(ir, 0, engine, active);
  }

  /**
   * The active slots belong to the process, not to a host: while one host's
   * entry routine runs with its backends installed, a second host sharing
   * the slots refuses to start and leaves them installed.
   */
  method SecondHostRefused() returns (out: Status, stillInstalled: bool)
    ensures out == Threw(Reentered) && stillInstalled
  {
    var active := new ActiveInterfaces();
    var a := IdleHost(active);
    var b := IdleHost(active);
    var tr := new TestResult();
    var qi := new QuantumTestImpl(tr);
    var ri := new ResultTestImpl(tr);
    // Host a's operator() has installed its backends and is running its entry routine.
    a.active.quantum := qi;
    a.active.result := ri;
    var qb := new QuantumTestImpl(tr);
    var rb := new ResultTestImpl(tr);
    out := b.Call(qb, rb);
    stillInstalled := active.quantum == qi && active.result == ri;
  }
}
