/** The query the engine answers: the return type of a method for given receiver
    and argument types, run against the process-wide field store. */
module Query {
  import opened Types
  import opened Fields
  import opened Engine

  /** Infers `def` (method `name` of class `owner`) for the given receiver and
      argument types. Field reads see the store as it is now, together with the
      writes made earlier in the same run; the run's writes are then performed on
      the store, in order, so later queries see them. */
  method ReturnTypeForTypes(store: FieldStore, prog: Program, owner: string, name: string, def: MethodDef,
                            self: Type, args: seq<Type>, fuel: nat) returns (t: Type, diags: seq<Diagnostic>)
    requires Valid(store.State())
    modifies store
    ensures var r := InferReturn(prog, old(store.State()), owner, name, def, self, args, [], [], fuel);
      t == r.ty && diags == r.diags && store.State() == ApplyWrites(old(store.State()), r.writes)
    ensures Valid(store.State())
  {
    var r := InferReturn(prog, store.State(), owner, name, def, self, args, [], [], fuel);
    store.PerformAll(r.writes);
    t, diags := r.ty, r.diags;
  }
}
