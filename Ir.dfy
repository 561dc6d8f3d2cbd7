/**
 * An abstract view of the LLVM objects the host touches: a module is a
 * sequence of named functions, each either defined (it has a body) or only
 * declared, carrying attribute sets; the execution engine is the table of
 * native addresses registered against functions of its module.
 */
module Ir {
  import opened Wrappers
  import opened Types

  /** An LLVM function attribute: string-keyed, or an enum/integer attribute. */
  datatype Attribute =
    | StringAttribute(kind: string, value: string)
    | EnumAttribute(id: nat)
    | IntAttribute(id: nat, amount: int)

  /**
   * A call the running program makes to an external symbol: raw 64-bit
   * tokens and an optional C-string tag.
   */
  datatype Call = Call(callee: string, args: seq<u64>, tag: Option<string>)

  /**
   * A function of the module. `calls` is what a defined function does when
   * run, as the sequence of its calls to external symbols in program order
   * (calls into other defined functions flattened in).
   */
  datatype IrFunction = IrFunction(
    name: string,
    hasBody: bool,
    attributeSets: seq<seq<Attribute>>,
    calls: seq<Call>)

  datatype IrModule = IrModule(functions: seq<IrFunction>)

  /** Function i is the one a lookup of `name` finds: the first carrying that name. */
  ghost predicate FoundAt(fs: seq<IrFunction>, name: string, i: nat)
  {
    i < |fs| && fs[i].name == name && forall j | 0 <= j < i :: fs[j].name != name
  }

  /** Module::getFunction: the function carrying `name`, if any. */
  function GetFunction(fs: seq<IrFunction>, name: string): (r: Option<nat>)
    ensures r.Some? ==> FoundAt(fs, name, r.value)
    ensures r.None? ==> forall j | 0 <= j < |fs| :: fs[j].name != name
  {
    if fs == [] then None
    else if fs[0].name == name then Some(0)
    else match GetFunction(fs[1..], name)
      case None => None
      case Some(i) => Some(i + 1)
  }

  /** The execution engine: owns its module and maps functions to native addresses. */
  class ExecutionEngine<F> {
    const ir: IrModule
    var mappings: map<nat, F>
    var symbolSearching: bool

    constructor (ir: IrModule)
      ensures this.ir == ir && mappings == map[] && symbolSearching
    {
      this.ir := ir;
      mappings := map[];
      symbolSearching := true;
    }

    /** Stop resolving unbound symbols in the process's dynamic libraries. */
    method DisableSymbolSearching()
      modifies this`symbolSearching
      ensures !symbolSearching
    {
      symbolSearching := false;
    }

    /** Register `addr` as the implementation of function f. */
    method AddGlobalMapping(f: nat, addr: F)
      modifies this`mappings
      ensures mappings == old(mappings)[f := addr]
    {
      mappings := mappings[f := addr];
    }
  }
}
