/**
 * detail::GlobalMapper: binds IR function declarations, by name, to native
 * callbacks in an execution engine.
 */
module GlobalMapper {
  import opened Wrappers
  import opened Errors
  import opened Ir

  /** The function a lookup of `name` finds has a body. */
  ghost predicate DefinesName(fs: seq<IrFunction>, name: string)
  {
    exists i: nat | FoundAt(fs, name, i) :: fs[i].hasBody
  }

  /** check_func: only a declaration (no body) may be bound. */
  function CheckFunc(f: IrFunction): (o: Status)
    ensures o.Threw? <==> f.hasBody
    ensures o.Threw? ==> o.error == AlreadyDefined(f.name)
  {
    if f.hasBody then Threw(AlreadyDefined(f.name)) else Returned(())
  }

  /** The mapping table after binding `name` to `func`, or the error raised. */
  function BindOnce<F>(fs: seq<IrFunction>, m: map<nat, F>, name: string, func: F): (r: Outcome<map<nat, F>>)
    ensures (forall j | 0 <= j < |fs| :: fs[j].name != name) ==> r == Returned(m)
    ensures r.Threw? <==> DefinesName(fs, name)
    ensures r.Threw? ==> r.error == AlreadyDefined(name)
    ensures forall i: nat | FoundAt(fs, name, i) && !fs[i].hasBody :: r == Returned(m[i := func])
  {
    match GetFunction(fs, name)
    case None => Returned(m)
    case Some(i) =>
      match CheckFunc(fs[i])
      case Threw(e) => Threw(e)
      case Returned(_) => Returned(m[i := func])
  }

  /** Binding one name changes no entry of the table but that of the function carrying it. */
  lemma BindOnceFrame<F>(fs: seq<IrFunction>, m: map<nat, F>, name: string, func: F, j: nat)
    requires BindOnce(fs, m, name, func).Returned?
    requires !FoundAt(fs, name, j)
    ensures var t := BindOnce(fs, m, name, func).value;
            (j in t <==> j in m) && (j in m ==> t[j] == m[j])
  {
  }

  /** The table after binding every entry of `table` in order; the first error stops it. */
  function BindAll<F>(fs: seq<IrFunction>, m: map<nat, F>, table: seq<(string, F)>): (r: Outcome<map<nat, F>>)
    ensures r.Threw? ==> r.error.AlreadyDefined?
    ensures r.Returned? ==> m.Keys <= r.value.Keys
    decreases |table|
  {
    if table == [] then Returned(m)
    else
      match BindAll(fs, m, table[..|table| - 1])
      case Threw(e) => Threw(e)
      case Returned(m') => BindOnce(fs, m', table[|table| - 1].0, table[|table| - 1].1)
  }

  /** Once a prefix of the table fails, the whole table fails with the same error. */
  lemma {:induction false} BindAllStopsAtFirstError<F>(fs: seq<IrFunction>, m: map<nat, F>, table: seq<(string, F)>, k: nat)
    requires k <= |table|
    requires BindAll(fs, m, table[..k]).Threw?
    ensures BindAll(fs, m, table) == BindAll(fs, m, table[..k])
    decreases |table| - k
  {
    if k < |table| {
      var longer := table[..k + 1];
      assert longer[..k] == table[..k];
      assert BindAll(fs, m, longer) == BindAll(fs, m, table[..k]);
      BindAllStopsAtFirstError(fs, m, table, k + 1);
    } else {
      assert table[..k] == table;
    }
  }

  /** Binding a table fails exactly when one of its names finds a defined function. */
  lemma {:induction false} BindAllThrows<F>(fs: seq<IrFunction>, m: map<nat, F>, table: seq<(string, F)>)
    ensures BindAll(fs, m, table).Threw? <==> exists k | 0 <= k < |table| :: DefinesName(fs, table[k].0)
    ensures BindAll(fs, m, table).Threw? ==>
              exists k | 0 <= k < |table| :: DefinesName(fs, table[k].0) &&
                BindAll(fs, m, table).error == AlreadyDefined(table[k].0)
    decreases |table|
  {
    if table != [] {
      var n := |table| - 1;
      var front := table[..n];
      BindAllThrows(fs, m, front);
      assert forall k | 0 <= k < n :: front[k] == table[k];
    }
  }

  /**
   * What a successful binding of a table leaves: every entry that is not in
   * the original table comes from a table name whose function is a
   * declaration and maps to that name's callback; every table name that
   * finds a declaration is bound; every other entry is as before.
   */
  lemma {:induction false} BindAllMappings<F>(fs: seq<IrFunction>, m: map<nat, F>, table: seq<(string, F)>)
    requires BindAll(fs, m, table).Returned?
    ensures var t := BindAll(fs, m, table).value;
            forall i | i in t ::
              (i in m && t[i] == m[i]) ||
              (i < |fs| && !fs[i].hasBody &&
               exists k | 0 <= k < |table| :: FoundAt(fs, table[k].0, i) && t[i] == table[k].1)
    ensures var t := BindAll(fs, m, table).value;
            forall k, i: nat | 0 <= k < |table| && FoundAt(fs, table[k].0, i) :: i in t
    ensures var t := BindAll(fs, m, table).value;
            forall i | i in m && (forall k | 0 <= k < |table| :: !FoundAt(fs, table[k].0, i)) ::
              i in t && t[i] == m[i]
    decreases |table|
  {
    if table != [] {
      var n := |table| - 1;
      var front := table[..n];
      var (name, func) := table[n];
      BindAllMappings(fs, m, front);
      var t' := BindAll(fs, m, front).value;
      var t := BindAll(fs, m, table).value;
      assert t == BindOnce(fs, t', name, func).value;
      assert forall k | 0 <= k < n :: front[k] == table[k];
      forall i | i in t
        ensures (i in m && t[i] == m[i]) ||
                (i < |fs| && !fs[i].hasBody &&
                 exists k | 0 <= k < |table| :: FoundAt(fs, table[k].0, i) && t[i] == table[k].1)
      {
        if FoundAt(fs, name, i) {
          assert t[i] == table[n].1;
        } else {
          BindOnceFrame(fs, t', name, func, i);
        }
      }
      forall k, i: nat | 0 <= k < |table| && FoundAt(fs, table[k].0, i)
        ensures i in t
      {
        if !FoundAt(fs, name, i) {
          BindOnceFrame(fs, t', name, func, i);
        }
      }
      forall i | i in m && (forall k | 0 <= k < |table| :: !FoundAt(fs, table[k].0, i))
        ensures i in t && t[i] == m[i]
      {
        assert !FoundAt(fs, table[n].0, i);
        BindOnceFrame(fs, t', name, func, i);
      }
    }
  }

  class GlobalMapper<F> {
    const mod: IrModule
    const ee: ExecutionEngine<F>

    /** Construction requires a non-null engine. */
    constructor (mod: IrModule, ee: ExecutionEngine?<F>)
      requires ee != null
      ensures this.mod == mod && this.ee == ee
    {
      this.mod := mod;
      this.ee := ee;
    }

    /**
     * operator()(name, func): an absent name is skipped, a defined function
     * is refused before anything is registered, and a declaration is mapped
     * to `func`.
     */
    method Bind(name: string, func: F) returns (o: Status)
      modifies ee`mappings
      ensures match BindOnce(mod.functions, old(ee.mappings), name, func)
              case Threw(e) => o == Threw(e) && ee.mappings == old(ee.mappings)
              case Returned(t) => o == Returned(()) && ee.mappings == t
    {
      var irfunc := GetFunction(mod.functions, name);
      if irfunc.None? {
        return Returned(());
      }
      o := CheckFunc(mod.functions[irfunc.value]);
      if o.Threw? {
        return;
      }
      ee.AddGlobalMapping(irfunc.value, func);
    }
  }
}
