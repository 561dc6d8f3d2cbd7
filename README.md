# A Dafny model of the QIR-EE execution host

QIR-EE runs quantum programs written in QIR (LLVM IR with a quantum
instruction set). A `Module` loads the IR and finds the entry routine. An
`Executor` binds six native trampolines into an LLVM execution engine, then
runs the entry routine. While it runs, every quantum instruction and output
call reaches the backend pair installed in two process-wide slots. This
project models that host logic, the symbol binder it uses, the opaque
identifier types, the recording test backends, and the bookkeeping of the
XACC backend adapter. It proves the properties the code promises about them.

LLVM is abstract here. A module is a sequence of functions, each with a name,
a body flag, attribute sets and the external calls its body makes in program
order. The engine is a table from functions to native callbacks. XACC is
abstract too. The adapter's circuit is the sequence of instructions handed to
it, each with a gate name, the qubit indices and the parameters.

Conventions:

- C++ exceptions (`QIREE_VALIDATE`, `QIREE_NOT_IMPLEMENTED`) become `Errors.Outcome<T>`: `Returned(value)` or `Threw(error)`. Each error has one constructor, named after its message.
- Debug assertions (`QIREE_EXPECT`) and null dereferences become `requires`.
- Calls into libraries this model cannot see become parameters:
  - `parsed: Option<IrModule>` for the IR parser;
  - `engineDiagnostic: Option<string>` for the engine builder;
  - `acceleratorFound: bool` for XACC's accelerator lookup.
- Files, one Dafny module per source file:
  - `Types.dfy` models `src/qiree/Types.hh`.
  - `Ir.dfy` is the abstract LLVM module and engine.
  - `QirModule.dfy` models `src/qiree/Module.cc`.
  - `GlobalMapper.dfy` models `src/qiree/detail/GlobalMapper.hh`.
  - `Interfaces.dfy` holds the calls of the two backend interfaces.
  - `QuantumTestImpl.dfy` models `test/QuantumTestImpl.cc`.
  - `Executor.dfy` models `src/qiree/Executor.cc`.
  - `XaccQuantum.dfy` models `src/qirxacc/XaccQuantum.cc`.

Where the documentation and the code disagree, the model follows the code:

- The two active-interface slots are `static` globals shared by every `Executor` in the process, so two hosts are not independent. In the model the slots are an `Executor.ActiveInterfaces` object that `Executor.Executor.Create` takes as a parameter. Every host of one process must be given the same object; the C++ statics guarantee this by themselves. `Executor.SecondHostRefused` shows the consequence: a second host cannot start while the first host's backends are installed.
- `find_entry_point` returns the first marked function and does not check that the match is unique.
- The defaulted move of `Module` nulls the source's owned module but copies its raw entry pointer. The source then tests invalid, and its `entrypoint` is unchanged.
- `XaccQuantum::ccx` emits a `CCX` instruction on two qubits.

## Model

| member | source | states |
|---|---|---|
| Types.DefaultIdsAreZero | src/qiree/Types.hh:27-31 | a default-constructed Qubit, Result, Array or Tuple id holds 0 |
| Types.QStateIsBool | src/qiree/Types.hh:39-43 | QState has two values; zero is false and one is true; the conversions to and from bool are inverse |
| Ir.GetFunction | src/qiree/detail/GlobalMapper.hh:37-42 | the lookup finds the first function with the name, or reports that none has it |
| Ir.ExecutionEngine.DisableSymbolSearching | src/qiree/Executor.cc:118-119 | afterwards the engine no longer searches the process's libraries for unbound symbols |
| Ir.ExecutionEngine.AddGlobalMapping | src/qiree/detail/GlobalMapper.hh:46 | the function maps to the address and every other entry is kept |
| QirModule.SetHasMarker | src/qiree/Module.cc:61-70 | true iff some attribute of the set is a string attribute keyed exactly "entry_point" |
| QirModule.HasMarker | src/qiree/Module.cc:59-72 | true iff some attribute in some attribute set is the marker |
| QirModule.FindEntryPoint | src/qiree/Module.cc:55-75 | returns a marked function with no marked function before it; returns None exactly when no function is marked |
| QirModule.LaterMatchesIgnored | src/qiree/Module.cc:57-73 | appending functions, marked or not, never changes an entry point already found; uniqueness is not checked |
| QirModule.OnlyStringAttributesMatch | src/qiree/Module.cc:63-69 | a module whose attributes are all enum or integer attributes has no entry point |
| QirModule.Module.FromFile | src/qiree/Module.cc:84-95 | an unreadable file throws "failed to read"; no marked function throws "no function with QIR 'entry_point' attribute"; otherwise the handle owns the module and refers to FindEntryPoint's function |
| QirModule.Module.FromFileNamed | src/qiree/Module.cc:102-111 | an unreadable file throws "failed to read"; a missing name throws "no entrypoint function"; otherwise the entry is the first function with that name |
| QirModule.Module.Moved | src/qiree/Module.cc:115 | the destination takes the module and the entry reference; afterwards the source tests invalid and the destination tests as the source did |
| QirModule.Module.MoveAssign | src/qiree/Module.cc:116 | the target takes both fields; a distinct source no longer owns a module |
| QirModule.Module.LoadEntryPointAttrs | src/qiree/Module.cc:122-125 | always throws not-implemented "entry point attributes" |
| QirModule.Module.LoadModuleFlags | src/qiree/Module.cc:131-134 | always throws not-implemented "module flags" |
| GlobalMapper.CheckFunc | src/qiree/detail/GlobalMapper.hh:73-78 | throws iff the function has a body; the error names the function |
| GlobalMapper.BindOnce | src/qiree/detail/GlobalMapper.hh:33-47 | an absent name leaves the table unchanged; the call throws "already-defined" iff the found function has a body; a found declaration maps to the callback |
| GlobalMapper.BindOnceFrame | src/qiree/detail/GlobalMapper.hh:46 | a successful bind changes no entry except that of the function it found |
| GlobalMapper.BindAll | src/qiree/Executor.cc:133-138 | the constructor's binds, one after another from an initial table, stopping at the first error: an error is always "already defined", and a successful sequence never removes a key of the initial table (a found declaration already in it is rebound). Its full meaning is stated by `GlobalMapper.BindAllThrows`, `GlobalMapper.BindAllMappings` and `GlobalMapper.BindAllStopsAtFirstError` |
| GlobalMapper.BindAllStopsAtFirstError | src/qiree/Executor.cc:133-138 | once one bind in the sequence throws, the later binds do not change the outcome |
| GlobalMapper.BindAllThrows | src/qiree/Executor.cc:133-138 | a bind sequence throws iff some name in it finds a defined function; the error names such a name |
| GlobalMapper.BindAllMappings | src/qiree/Executor.cc:133-138 | after a successful sequence, each new entry maps a found declaration to the callback listed with its name; each found name is bound; untouched entries are kept |
| GlobalMapper.GlobalMapper.constructor | src/qiree/detail/GlobalMapper.hh:63-67 | construction requires a non-null engine |
| GlobalMapper.GlobalMapper.Bind | src/qiree/detail/GlobalMapper.hh:33-47 | the engine's table becomes BindOnce's result; a failed bind leaves the table unchanged |
| QuantumTestImpl.QuantumTestImpl.constructor | test/QuantumTestImpl.cc:22-25 | requires a non-null TestResult and shares it |
| QuantumTestImpl.QuantumTestImpl.Mz | test/QuantumTestImpl.cc:31-34 | receives exactly one Mz call with its operands, and appends exactly "mz" to the shared log |
| QuantumTestImpl.QuantumTestImpl.H | test/QuantumTestImpl.cc:40-43 | receives exactly one H call with its operand, and appends exactly "h" |
| QuantumTestImpl.QuantumTestImpl.Cnot | test/QuantumTestImpl.cc:49-52 | receives exactly one Cnot call with its operands, and appends exactly "cnot" |
| QuantumTestImpl.QuantumTestImpl.ReadResult | test/QuantumTestImpl.cc:58-61 | receives exactly one ReadResult call, returns zero, and does not touch the log |
| QuantumTestImpl.ResultTestImpl.constructor | test/QuantumTestImpl.cc:67-70 | requires a non-null TestResult and shares it |
| QuantumTestImpl.ResultTestImpl.RecordOutputSize | test/QuantumTestImpl.cc:76-79 | receives exactly one array recording; the test assertion passes iff the size is positive; the log is not touched |
| QuantumTestImpl.ResultTestImpl.RecordOutput | test/QuantumTestImpl.cc:85 | receives exactly one result recording with its tag, and does not touch the log |
| QuantumTestImpl.SharedLog | test/Executor.test.cc:34-36 | two backends built from one TestResult share one log; the quantum backend's commands appear in it in call order, and the output backend's calls add nothing to it |
| Executor.BindTableDistinct | src/qiree/Executor.cc:133-138 | the constructor binds six names; the names are pairwise distinct and each gets a different trampoline |
| Executor.Forwarded | src/qiree/Executor.cc:55-84 | each trampoline reaches exactly the interface member matching it, with its raw tokens wrapped in order and the tag passed through |
| Executor.ReadResultReturn | src/qiree/Executor.cc:70-73 | the read_result trampoline returns true exactly when the backend reads one |
| Executor.ConstructionBindings | src/qiree/Executor.cc:126-138 | after construction, every engine entry maps a declaration to the trampoline the table pairs with its name, and every table name that finds a declaration is bound |
| Executor.ResolveMeaning | src/qiree/Executor.cc:118-124 | defines what `Executor.Resolve` means, that is, how the running program reaches a symbol once library search is off and the lazy creator is installed. The symbol is unknown, and so reaches the lazy creator's error, exactly when no function carries it or the function found is neither bound nor defined. A bound function reaches the trampoline bound to it, and a defined, unbound one runs its own IR |
| Executor.ResolvedSymbolsMatch | src/qiree/Executor.cc:126-138 | with those bindings, a symbol reaches a trampoline only if the table pairs that symbol with it |
| Executor.FirstUnknown | src/qiree/Executor.cc:121-124 | the first call whose symbol is neither defined nor bound; None iff every call resolves |
| Executor.Executed | src/qiree/Executor.cc:121-124 | the calls a run performs form a prefix of the program and all resolve; a run stops short of the end only at a call that resolves to nothing |
| Executor.Run | src/qiree/Executor.cc:118-124 | the entry routine under `runFunction`, call by call. An unknown symbol fails at its call, so a run that throws throws "cannot call unknown function"; nothing runs after the first throw; a call to a defined function makes no backend call. Its meaning is stated by `Executor.RunMeaning`, `Executor.RunStopsAtFirstError` and `Executor.RunStep` |
| Executor.RunStatus | src/qiree/Executor.cc:121-124 | a run returns iff every call resolves; otherwise it throws "cannot call unknown function" naming an unresolved callee |
| Executor.CallTrace | src/qiree/Executor.cc:55-84 | a program call makes at most one backend call, and that call goes to the trampoline's member with the call's tokens. The host never checks a declaration against its trampoline's signature, so a call with the wrong number of tokens is undefined behaviour in the source. The model gives such a call no backend call, and `Executor.Executor.Call` excludes the case by requiring `WellTyped` |
| Executor.CollectAppend | src/qiree/Executor.cc:167-168 | collecting per-element pieces over two sequences gives the first sequence's pieces followed by the second's |
| Executor.CollectEach | src/qiree/Executor.cc:167-168 | when each element gives exactly one value, collecting gives those values in element order |
| Executor.TraceAppend | src/qiree/Executor.cc:167-168 | the trace of two program pieces run in sequence is the first piece's trace followed by the second's: no reordering, no batching |
| Executor.ViewsOne | src/qiree/Executor.cc:55-84 | a single forwarded call adds its log entries to the log, and itself to the one backend it reaches |
| Executor.ViewsAppend | src/qiree/Executor.cc:167-168 | extending a trace extends the log and each backend's received calls by the extension's, in order |
| Executor.RunStopsAtFirstError | src/qiree/Executor.cc:121-124 | once a prefix of the program has thrown, the rest of the program changes neither the outcome nor the trace |
| Executor.DeclaredEntryFails | src/qiree/Executor.cc:118-124 | an entry routine that is only declared and not bound reaches the lazy creator: the run throws "cannot call unknown function" naming the entry, and forwards nothing |
| Executor.RunMeaning | src/qiree/Executor.cc:167-168 | the step-by-step run throws exactly at the first unknown call, and forwards exactly the calls before it, in program order |
| Executor.RunStep | src/qiree/Executor.cc:121-124 | one more call of a run that has not thrown throws "cannot call unknown function" if its symbol resolves to nothing, and otherwise returns with the trace grown by that call's backend call |
| Executor.BellLookups | test/Executor.test.cc:49-52 | in the Bell program, each name of the bind table is found at its declaration, and read_result and array_record_output are not found |
| Executor.BellBindings | test/Executor.test.cc:49-52 | constructing a host for the Bell program binds exactly those four declarations to their trampolines |
| Executor.BellCallTraces | test/Executor.test.cc:49-52 | with those bindings, each call of the Bell program makes the callback listed at its position |
| Executor.BellRun | test/Executor.test.cc:49-52 | for the Bell program, the host finds main as the entry routine and binds exactly h, cnot, mz and result_record_output; the run returns and its callbacks are h, cnot, mz, mz, record_output, record_output, in program order |
| Executor.BellViews | test/Executor.test.cc:49-52 | of the Bell callbacks, the quantum backend receives h, cnot and the two measurements, the log reads h, cnot, mz, mz, and the output backend receives the two untagged recordings |
| Executor.BindEntry | src/qiree/Executor.cc:133-138 | binding entry k extends the bind sequence by one step; a throw there is the outcome of the whole table |
| Executor.BindQisEntries | src/qiree/Executor.cc:133-136 | the four quantum-instruction binds leave the engine holding the first four table steps' bindings; a throw among them is the outcome of the whole table |
| Executor.BindRtEntries | src/qiree/Executor.cc:137-138 | the two runtime binds complete the table's bindings; a throw among them is the outcome of the whole table |
| Executor.ActiveInterfaces.constructor | src/qiree/Executor.cc:36-37 | both process-wide slots start null |
| Executor.Executor.Create | src/qiree/Executor.cc:93-143 | the passed module is invalid afterwards; an engine failure throws with the builder's diagnostic; a bind error is the constructor's error; otherwise the engine holds exactly the table's bindings, searches no libraries, and the host is valid |
| Executor.Executor.Dispatch | src/qiree/Executor.cc:55-84 | a trampoline makes exactly one call, the one Forwarded names, on the backend in the matching active slot, and none on the other; only read_result returns a value, and it is the backend's reading converted to bool |
| Executor.Executor.Perform | src/qiree/Executor.cc:118-124 | one call of the program resolves iff its symbol is defined or bound; each backend receives exactly its share of that call's backend call, and the log grows by exactly its entries |
| Executor.Executor.Advance | src/qiree/Executor.cc:167-168 | performing one more call after a trace leaves the backends having seen the trace followed by that call's backend call |
| Executor.Executor.RunEntry | src/qiree/Executor.cc:167-169 | with both slots installed, the entry routine's outcome is that of Run over `EntryRoutine`: a defined entry function's calls, or, for an entry that is only declared, one call of its own name; the quantum backend receives exactly the run's quantum calls, the output backend exactly its output calls, and the log grows by exactly the run's entries |
| Executor.Executor.Execute | src/qiree/Executor.cc:167-168 | running a sequence of calls ends with Run's outcome, and the backends have seen exactly Run's trace |
| Executor.Executor.Call | src/qiree/Executor.cc:153-170 | with a slot already set, throws "cannot call LLVM executor recursively" and leaves both slots, both backends and the log untouched; the slots are never left half set; otherwise qi receives exactly the run's quantum calls and ri exactly its output calls, so the run sees qi and ri installed; the outcome is Run's over `EntryRoutine` (an unbound declared entry throws, by `Executor.DeclaredEntryFails`), and both slots are null afterwards whether the run returns or throws |
| Executor.SecondHostRefused | src/qiree/Executor.cc:153-160 | two hosts sharing the process-wide slots: while one host's backends are installed, the other host's operator() throws "cannot call LLVM executor recursively" and the first host's backends stay installed |
| XaccQuantum.Resize | src/qirxacc/XaccQuantum.cc:90 | the table gets the requested length, keeps its leading entries, and pads with qubit 0 |
| XaccQuantum.XaccQuantum.Create | src/qirxacc/XaccQuantum.cc:34-61 | zero shots throws "invalid number of shots"; a missing accelerator throws "failed to create accelerator"; otherwise the adapter starts with no buffer, no circuit and no results |
| XaccQuantum.XaccQuantum.CreateSimulator | src/qirxacc/XaccQuantum.cc:67 | the default adapter uses the "qsim" accelerator with one shot |
| XaccQuantum.XaccQuantum.SetUp | src/qirxacc/XaccQuantum.cc:82-92 | requires that no buffer is allocated; zero qubits throws "input is not a quantum program" and changes nothing; otherwise allocates the buffer, starts an empty circuit, and sets num_qubits and num_results from the attributes |
| XaccQuantum.XaccQuantum.TearDown | src/qirxacc/XaccQuantum.cc:98-102 | releases the circuit and the buffer, so set_up's precondition holds again |
| XaccQuantum.XaccQuantum.Mz | src/qirxacc/XaccQuantum.cc:108-114 | requires both indices in range; result r now maps to q and every other entry is unchanged |
| XaccQuantum.XaccQuantum.ReadResult | src/qirxacc/XaccQuantum.cc:120-124 | always reads zero (false) |
| XaccQuantum.XaccQuantum.ResultRecordOutput | src/qirxacc/XaccQuantum.cc:154-159 | requires r below num_results; the qubit reported on is `result_to_qubit_[r]`. That is the last qubit measured into r, or, for a result not measured since `set_up`, qubit 0 from the padding or a stale qubit from an earlier program, since `tear_down` keeps the table |
| XaccQuantum.XaccQuantum.TupleRecordOutput | src/qirxacc/XaccQuantum.cc:176-179 | always throws not-implemented |
| XaccQuantum.XaccQuantum.QubitIndices | src/qirxacc/XaccQuantum.cc:290-295 | each qubit, each checked below num_qubits, becomes its raw index, in order |
| XaccQuantum.XaccQuantum.AddInstruction | src/qirxacc/XaccQuantum.cc:285-304 | appends exactly one instruction with the gate name, the qubit indices in argument order and the parameters; every instruction still addresses an allocated qubit |
| XaccQuantum.XaccQuantum.AddInstructionOn | src/qirxacc/XaccQuantum.cc:275-279 | the single-qubit overload appends the instruction on that one qubit |
| XaccQuantum.XaccQuantum.Ccx | src/qirxacc/XaccQuantum.cc:184-187 | appends one CCX instruction on (q1, q2) |
| XaccQuantum.XaccQuantum.Ccnot | src/qirxacc/XaccQuantum.cc:188-191 | appends one CCNOT instruction on (q1, q2, q3) |
| XaccQuantum.XaccQuantum.Cnot | src/qirxacc/XaccQuantum.cc:192-195 | appends one CNOT instruction on (q1, q2) |
| XaccQuantum.XaccQuantum.Cx | src/qirxacc/XaccQuantum.cc:196-199 | appends one CX instruction on (q1, q2) |
| XaccQuantum.XaccQuantum.Cy | src/qirxacc/XaccQuantum.cc:200-203 | appends one CY instruction on (q1, q2) |
| XaccQuantum.XaccQuantum.Cz | src/qirxacc/XaccQuantum.cc:204-207 | appends one CZ instruction on (q1, q2) |
| XaccQuantum.XaccQuantum.H | src/qirxacc/XaccQuantum.cc:208-211 | appends one H instruction on q |
| XaccQuantum.XaccQuantum.Reset | src/qirxacc/XaccQuantum.cc:212-215 | appends one Reset instruction on q |
| XaccQuantum.XaccQuantum.Rx | src/qirxacc/XaccQuantum.cc:216-219 | appends one Rx instruction on q carrying the angle |
| XaccQuantum.XaccQuantum.Ry | src/qirxacc/XaccQuantum.cc:220-223 | appends one Ry instruction on q carrying the angle |
| XaccQuantum.XaccQuantum.Rz | src/qirxacc/XaccQuantum.cc:224-227 | appends one Rz instruction on q carrying the angle |
| XaccQuantum.XaccQuantum.Rzz | src/qirxacc/XaccQuantum.cc:228-231 | appends one RZZ instruction on (q1, q2) carrying the angle |
| XaccQuantum.XaccQuantum.S | src/qirxacc/XaccQuantum.cc:232-235 | appends an Rz by pi/2 |
| XaccQuantum.XaccQuantum.SAdj | src/qirxacc/XaccQuantum.cc:236-239 | appends an Rz by -pi/2 |
| XaccQuantum.XaccQuantum.Swap | src/qirxacc/XaccQuantum.cc:240-247 | appends exactly three CNOTs, on (q1, q2), (q2, q1) and (q1, q2), in that order |
| XaccQuantum.XaccQuantum.T | src/qirxacc/XaccQuantum.cc:248-251 | appends an Rz by pi/4 |
| XaccQuantum.XaccQuantum.TAdj | src/qirxacc/XaccQuantum.cc:252-255 | appends an Rz by -pi/4 |
| XaccQuantum.XaccQuantum.X | src/qirxacc/XaccQuantum.cc:256-259 | appends one X instruction on q |
| XaccQuantum.XaccQuantum.Y | src/qirxacc/XaccQuantum.cc:260-263 | appends one Y instruction on q |
| XaccQuantum.XaccQuantum.Z | src/qirxacc/XaccQuantum.cc:264-267 | appends one Z instruction on q |
| XaccQuantum.SimRotation | test/qirxacc/XaccQuantum.test.cc:48-66 | on one qubit and one result, h, rx(pi/6) and mz build the circuit [H(0), Rx(0, pi/6)], and result 0 reports on qubit 0 |

## Left out

- LLVM itself is not modelled: IR parsing, target initialisation, MCJIT engine creation and `runFunction`. The parser's and the engine builder's answers are parameters. An entry routine is the flat sequence of external calls it makes. Control flow inside it is not modelled, including branches that depend on `read_result`.
- The lazy function creator is modelled where the unknown symbol is called. Where LLVM actually consults the creator (at link time or at the call) is LLVM's business. If LLVM consults it while linking the entry routine, the run throws before its first call and no backend receives anything. `Executor.RunMeaning`, which forwards exactly the calls before the first unknown one, describes only the case where symbols resolve at the call.
- `Executor.Executor.Call`: the run is specified for the recording test backends only. The interfaces are C++ abstract classes, and their other implementations are not part of this model. What a trampoline hands to any backend is stated backend-independently by `Executor.Forwarded`.
- `Executor.Executor.Call`: concurrency is not modelled. Only the single-threaded re-entrancy check is.
- `Executor.Executor.Call`: the program is never given a path back into the executor, so a re-entrant call is specified on `Call` itself with a slot already set.
- `Executor.Executor.Call`: requires every call that reaches a trampoline to pass the trampoline's number of arguments. LLVM checks a call only against its IR declaration. Nothing checks the declaration against the native trampoline it is bound to (`src/qiree/detail/GlobalMapper.hh:44` leaves this as a TODO), so a mismatch is undefined behaviour, which the model does not describe.
- The XACC runtime is not modelled:
  - `xacc::Initialize` and `Finalize`, and the static `initialize(args)`;
  - accelerator configuration and the IR provider;
  - `array_record_output`, which executes the circuit and prints the buffer;
  - `initialize(env)`, which only writes to the output stream;
  - the marginal counts and printing in `result_record_output`;
  - the endianness setting, which only affects those counts.
  These are I/O and library calls this model cannot see.
- Rotation angles are not floating point. An angle is an uninterpreted token (`Given`) or an exact rational multiple of pi (`PiTimes`).
- `XaccQuantum.XaccQuantum.ResultRecordOutput` additionally requires an allocated buffer, because the code dereferences `buffer_`.
- Every gate method, and both `add_instruction` overloads, require an existing circuit, because the code dereferences `cur_circuit_`.
- `src/qiree/LlvmExecutor.cc` and `src/qiree/LlvmExecutor.hh` are not part of this model. They are an unfinished earlier host.
- `Module.hh` is not part of this model, so the fields of `ModuleFlags` are not modelled, and neither is any parsing of `EntryPointAttrs`, which is not implemented.
- Test scaffolding (fixtures, death tests, data files) is not modelled.
- The 64-bit width of ids and `size_type` is a `u64` newtype. No arithmetic on them can overflow in the modelled code.
