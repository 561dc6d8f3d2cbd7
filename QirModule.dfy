/**
 * The program handle (qiree::Module): owns a parsed module and refers to its
 * entry routine, found either by the "entry_point" attribute or by name.
 */
module QirModule {
  import opened Wrappers
  import opened Types
  import opened Errors
  import opened Ir

  /** Static resources of the entry routine, read by backends in set_up. */
  datatype EntryPointAttrs = EntryPointAttrs(requiredNumQubits: u64, requiredNumResults: u64)

  /** Module flags; their fields belong to Module.hh, which is not part of this model. */
  datatype ModuleFlags = ModuleFlags

  /** A string attribute whose key is exactly "entry_point". */
  predicate IsEntryPointMarker(a: Attribute)
  {
    a.StringAttribute? && a.kind == "entry_point"
  }

  /** Some attribute in some attribute set of f marks it as the entry point. */
  ghost predicate Marked(f: IrFunction)
  {
    exists s, k | 0 <= s < |f.attributeSets| && 0 <= k < |f.attributeSets[s]| ::
      IsEntryPointMarker(f.attributeSets[s][k])
  }

  /** The innermost loop of find_entry_point: does one attribute set hold the marker? */
  function SetHasMarker(attrs: seq<Attribute>): (found: bool)
    ensures found <==> exists k | 0 <= k < |attrs| :: IsEntryPointMarker(attrs[k])
  {
    if attrs == [] then false
    else IsEntryPointMarker(attrs[0]) || SetHasMarker(attrs[1..])
  }

  /** The middle loop: does any attribute set of a function hold the marker? */
  function HasMarker(sets: seq<seq<Attribute>>): (found: bool)
    ensures found <==> exists s, k | 0 <= s < |sets| && 0 <= k < |sets[s]| ::
                         IsEntryPointMarker(sets[s][k])
  {
    if sets == [] then false
    else
      var rest := HasMarker(sets[1..]);
      assert forall s, k | 1 <= s < |sets| && 0 <= k < |sets[s]| ::
        sets[s][k] == sets[1..][s - 1][k];
      SetHasMarker(sets[0]) || rest
  }

  /** find_entry_point: the first function, in module order, that is marked. */
  function FindEntryPoint(fs: seq<IrFunction>): (r: Option<nat>)
    ensures r.Some? ==> r.value < |fs| && Marked(fs[r.value])
    ensures r.Some? ==> forall j | 0 <= j < r.value :: !Marked(fs[j])
    ensures r.None? ==> forall j | 0 <= j < |fs| :: !Marked(fs[j])
  {
    if fs == [] then None
    else if HasMarker(fs[0].attributeSets) then Some(0)
    else match FindEntryPoint(fs[1..])
      case None => None
      case Some(i) => Some(i + 1)
  }

  /** Matches after the first are ignored: appending functions never changes a found entry point. */
  lemma {:induction false} LaterMatchesIgnored(fs: seq<IrFunction>, more: seq<IrFunction>)
    requires FindEntryPoint(fs).Some?
    ensures FindEntryPoint(fs + more) == FindEntryPoint(fs)
  {
    var i := FindEntryPoint(fs).value;
    assert (fs + more)[i] == fs[i];
    var r := FindEntryPoint(fs + more);
    assert r.Some?;
  }

  /** A module whose attributes are all non-string attributes has no entry point. */
  lemma OnlyStringAttributesMatch(fs: seq<IrFunction>)
    requires forall j, s, k | 0 <= j < |fs| && 0 <= s < |fs[j].attributeSets| && 0 <= k < |fs[j].attributeSets[s]| ::
               !fs[j].attributeSets[s][k].StringAttribute?
    ensures FindEntryPoint(fs) == None
  {
  }

  class Module {
    /** module_: the owned module, or None once moved from. */
    var ir: Option<IrModule>
    /** entrypoint_: a non-owning reference (index) to the entry routine. */
    var entrypoint: Option<nat>

    /** operator bool: the handle owns a module. */
    predicate IsValid()
      reads this
    {
      ir.Some?
    }

    /** The entry reference, when both are set, points into the owned module. */
    ghost predicate Wellformed()
      reads this
    {
      ir.Some? && entrypoint.Some? ==> entrypoint.value < |ir.value.functions|
    }

    constructor Adopt(m: IrModule, entry: nat)
      requires entry < |m.functions|
      ensures ir == Some(m) && entrypoint == Some(entry) && Wellformed()
    {
      ir := Some(m);
      entrypoint := Some(entry);
    }

    /**
     * Module(filename): `parsed` is what the LLVM parser made of the file
     * (None when it could not read it); the entry routine is found by attribute.
     */
    static method FromFile(filename: string, parsed: Option<IrModule>) returns (r: Outcome<Module>)
      ensures parsed.None? ==> r == Threw(ReadFailed(filename))
      ensures parsed.Some? && FindEntryPoint(parsed.value.functions).None? ==>
                r == Threw(NoEntryPointAttribute(filename))
      ensures parsed.Some? && FindEntryPoint(parsed.value.functions).Some? ==>
                && r.Returned? && fresh(r.value) && r.value.Wellformed()
                && r.value.ir == parsed && r.value.entrypoint == FindEntryPoint(parsed.value.functions)
    {
      if parsed.None? {
        return Threw(ReadFailed(filename));
      }
      var found := FindEntryPoint(parsed.value.functions);
      if found.None? {
        return Threw(NoEntryPointAttribute(filename));
      }
      var m := new Module.Adopt(parsed.value, found.value);
      return Returned(m);
    }

    /** Module(filename, entrypoint): the entry routine is the function named `entryName`. */
    static method FromFileNamed(filename: string, parsed: Option<IrModule>, entryName: string)
      returns (r: Outcome<Module>)
      ensures parsed.None? ==> r == Threw(ReadFailed(filename))
      ensures parsed.Some? && GetFunction(parsed.value.functions, entryName).None? ==>
                r == Threw(NoEntryPointNamed(entryName))
      ensures parsed.Some? && GetFunction(parsed.value.functions, entryName).Some? ==>
                && r.Returned? && fresh(r.value) && r.value.Wellformed()
                && r.value.ir == parsed
                && r.value.entrypoint.Some?
                && FoundAt(parsed.value.functions, entryName, r.value.entrypoint.value)
    {
      if parsed.None? {
        return Threw(ReadFailed(filename));
      }
      var found := GetFunction(parsed.value.functions, entryName);
      if found.None? {
        return Threw(NoEntryPointNamed(entryName));
      }
      var m := new Module.Adopt(parsed.value, found.value);
      return Returned(m);
    }

    /**
     * The defaulted move constructor: the owned module moves over and the
     * source no longer owns one; the raw entry reference is copied.
     */
    constructor Moved(from: Module)
      modifies from
      ensures ir == old(from.ir) && entrypoint == old(from.entrypoint)
      ensures from.ir == None && from.entrypoint == old(from.entrypoint)
      ensures IsValid() == old(from.IsValid()) && !from.IsValid()
      ensures old(from.Wellformed()) ==> Wellformed()
    {
      ir := from.ir;
      entrypoint := from.entrypoint;
      new;
      from.ir := None;
    }

    /** The defaulted move assignment; moving a handle onto itself keeps it. */
    method MoveAssign(from: Module)
      modifies this, from
      ensures ir == old(from.ir) && entrypoint == old(from.entrypoint)
      ensures from != this ==> from.ir == None && from.entrypoint == old(from.entrypoint)
    {
      var taken := from.ir;
      from.ir := None;
      ir := taken;
      entrypoint := from.entrypoint;
    }

    /** load_entry_point_attrs: not implemented, always throws. */
    function LoadEntryPointAttrs(): (r: Outcome<EntryPointAttrs>)
      ensures r.Threw? && r.error == NotImplemented("entry point attributes")
    {
      Threw(NotImplemented("entry point attributes"))
    }

    /** load_module_flags: not implemented, always throws. */
    function LoadModuleFlags(): (r: Outcome<ModuleFlags>)
      ensures r.Threw? && r.error == NotImplemented("module flags")
    {
      Threw(NotImplemented("module flags"))
    }
  }
}
