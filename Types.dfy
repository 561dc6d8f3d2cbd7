/**
 * The plain data types of the QIR execution host: 64-bit tokens, the tagged
 * opaque identifiers, the measured state and the callable specializations.
 */
module Types {

  /** size_type and OpaqueId::value: 64-bit unsigned integers. */
  newtype u64 = x: int | 0 <= x < 0x1_0000_0000_0000_0000

  /**
   * OpaqueId<T>, one datatype per tag. Being distinct Dafny types, a qubit
   * can never be passed where a result (or array, or tuple) is expected;
   * the only way to the integer is the explicit `value` field. A
   * default-constructed identifier (`Qubit()`) holds 0.
   */
  datatype Qubit = Qubit(value: u64 := 0)
  datatype Result = Result(value: u64 := 0)
  datatype Array = Array(value: u64 := 0)
  datatype Tuple = Tuple(value: u64 := 0)

  /** Measured quantum state; its underlying type is bool. */
  datatype QState = Zero | One

  /** The underlying bool of a QState (the static_cast<bool> of the enum). */
  function ToBool(s: QState): bool
  {
    match s
    case Zero => false
    case One => true
  }

  /** The QState whose underlying bool is b. */
  function FromBool(b: bool): QState
  {
    if b then One else Zero
  }

  /** Specialization of a callable: the suffix of a QIR function declaration. */
  datatype CallableSpecialization = Body | Adj | Ctl | CtlAdj

  function Suffix(cs: CallableSpecialization): string
  {
    match cs
    case Body => "body"
    case Adj => "adj"
    case Ctl => "ctl"
    case CtlAdj => "ctladj"
  }

  /** The symbol of a quantum instruction: "__quantum__qis__" FUNC "__" SUFFIX. */
  function QisSymbol(func: string, cs: CallableSpecialization): string
  {
    "__quantum__qis__" + func + "__" + Suffix(cs)
  }

  /** The symbol of a runtime function: "__quantum__rt__" FUNC. */
  function RtSymbol(func: string): string
  {
    "__quantum__rt__" + func
  }

  /** Default identifiers of every tag hold the value 0. */
  lemma DefaultIdsAreZero()
    ensures Qubit().value == 0 && Result().value == 0
    ensures Array().value == 0 && Tuple().value == 0
  {
  }

  /** QState is a bool in disguise: zero is false, one is true, and the two conversions are inverse. */
  lemma QStateIsBool(s: QState, b: bool)
    ensures ToBool(Zero) == false && ToBool(One) == true
    ensures ToBool(s) <==> s == One
    ensures FromBool(ToBool(s)) == s && ToBool(FromBool(b)) == b
  {
  }
}
