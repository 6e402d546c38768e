/** The process-wide field store: the accumulated types of global variables, and
    of instance variables keyed by the class that declares the accessing method.

    Ruby reads a field that was never assigned as nil, so every entry starts out as
    NilClass; each write joins the written type into the entry, and a read returns
    the entry. The store only ever grows, and what a read returns depends on which
    writes the analysis has already performed. */
module Fields {
  import opened Types

  datatype Store = Store(globals: map<string, Type>, ivars: map<(string, string), Type>)

  const EmptyStore: Store := Store(map[], map[])

  /** One write performed by the analysis of an assignment. */
  datatype Write =
    | GlobalWrite(global: string, ty: Type)
    | IvarWrite(owner: string, field: string, ty: Type)

  function ReadGlobal(s: Store, name: string): Type {
    if name in s.globals then s.globals[name] else NILCLASS
  }

  function ReadIvar(s: Store, owner: string, field: string): Type {
    if (owner, field) in s.ivars then s.ivars[(owner, field)] else NILCLASS
  }

  function ApplyWrite(s: Store, w: Write): Store {
    match w
    case GlobalWrite(name, t) => s.(globals := s.globals[name := Join(ReadGlobal(s, name), t)])
    case IvarWrite(owner, field, t) =>
      s.(ivars := s.ivars[(owner, field) := Join(ReadIvar(s, owner, field), t)])
  }

  /** The store after the given writes, performed in order. */
  function ApplyWrites(s: Store, ws: seq<Write>): Store {
    if ws == [] then s else ApplyWrite(ApplyWrites(s, ws[..|ws| - 1]), ws[|ws| - 1])
  }

  /** The types written to a global, in order. */
  function GlobalValues(ws: seq<Write>, name: string): seq<Type> {
    if ws == [] then []
    else
      var w := ws[|ws| - 1];
      GlobalValues(ws[..|ws| - 1], name) + (if w.GlobalWrite? && w.global == name then [w.ty] else [])
  }

  /** The types written to one class's instance variable, in order. */
  function IvarValues(ws: seq<Write>, owner: string, field: string): seq<Type> {
    if ws == [] then []
    else
      var w := ws[|ws| - 1];
      IvarValues(ws[..|ws| - 1], owner, field)
        + (if w.IvarWrite? && w.owner == owner && w.field == field then [w.ty] else [])
  }

  /** Every entry holds NilClass: a field may always still be unassigned. */
  predicate Valid(s: Store) {
    && (forall name :: name in s.globals ==> NILCLASS <= s.globals[name])
    && (forall key :: key in s.ivars ==> NILCLASS <= s.ivars[key])
  }

  // ---------------------------------------------------------------------------

  /** A write keeps the store valid and makes every read at least as wide. */
  lemma WriteGrows(s: Store, w: Write)
    requires Valid(s)
    ensures Valid(ApplyWrite(s, w))
    ensures forall name :: ReadGlobal(s, name) <= ReadGlobal(ApplyWrite(s, w), name)
    ensures forall owner, field :: ReadIvar(s, owner, field) <= ReadIvar(ApplyWrite(s, w), owner, field)
  {
  }

  /** A read sees what was there before, joined with every type written to that
      global since, and nothing written to any other key. */
  lemma {:induction false} ReadGlobalAfterWrites(s: Store, ws: seq<Write>, name: string)
    ensures ReadGlobal(ApplyWrites(s, ws), name) == Join(ReadGlobal(s, name), JoinAll(GlobalValues(ws, name)))
  {
    if ws != [] {
      var init, w := ws[..|ws| - 1], ws[|ws| - 1];
      ReadGlobalAfterWrites(s, init, name);
      var extra := if w.GlobalWrite? && w.global == name then [w.ty] else [];
      JoinAllAppend(GlobalValues(init, name), extra);
    }
  }

  /** The same for instance variables: only writes to this (class, field) pair
      count, so same-named fields of different classes accumulate independently. */
  lemma {:induction false} ReadIvarAfterWrites(s: Store, ws: seq<Write>, owner: string, field: string)
    ensures ReadIvar(ApplyWrites(s, ws), owner, field) ==
      Join(ReadIvar(s, owner, field), JoinAll(IvarValues(ws, owner, field)))
  {
    if ws != [] {
      var init, w := ws[..|ws| - 1], ws[|ws| - 1];
      ReadIvarAfterWrites(s, init, owner, field);
      var extra := if w.IvarWrite? && w.owner == owner && w.field == field then [w.ty] else [];
      JoinAllAppend(IvarValues(init, owner, field), extra);
    }
  }

  /** From a fresh process, a read returns NilClass joined with everything written. */
  lemma FreshReads(ws: seq<Write>, name: string, owner: string, field: string)
    ensures ReadGlobal(ApplyWrites(EmptyStore, ws), name) == Join(NILCLASS, JoinAll(GlobalValues(ws, name)))
    ensures ReadIvar(ApplyWrites(EmptyStore, ws), owner, field) == Join(NILCLASS, JoinAll(IvarValues(ws, owner, field)))
  {
    ReadGlobalAfterWrites(EmptyStore, ws, name);
    ReadIvarAfterWrites(EmptyStore, ws, owner, field);
  }

  /** Performing writes in two batches is performing them all. */
  lemma {:induction false} ApplyWritesAppend(s: Store, ws: seq<Write>, vs: seq<Write>)
    ensures ApplyWrites(s, ws + vs) == ApplyWrites(ApplyWrites(s, ws), vs)
    decreases |vs|
  {
    if vs != [] {
      assert (ws + vs)[..|ws + vs| - 1] == ws + vs[..|vs| - 1];
      ApplyWritesAppend(s, ws, vs[..|vs| - 1]);
    } else {
      assert ws + vs == ws;
    }
  }

  // ---------------------------------------------------------------------------

  /** The field store of one analysis process, updated in place as assignments to
      globals and instance variables are analysed. */
  class FieldStore {
    var globals: map<string, Type>
    var ivars: map<(string, string), Type>

    function State(): Store
      reads this
    {
      Store(globals, ivars)
    }

    constructor ()
      ensures State() == EmptyStore
    {
      globals, ivars := map[], map[];
    }

    /** The accumulated type of a global (`Scope::GlobalScope.lookup(...).expr_type`). */
    method LookupGlobal(name: string) returns (t: Type)
      ensures t == ReadGlobal(State(), name)
      ensures Valid(State()) ==> NILCLASS <= t
    {
      t := if name in globals then globals[name] else NILCLASS;
    }

    /** The accumulated type of an instance variable of the given class. */
    method LookupIvar(owner: string, field: string) returns (t: Type)
      ensures t == ReadIvar(State(), owner, field)
      ensures Valid(State()) ==> NILCLASS <= t
    {
      t := if (owner, field) in ivars then ivars[(owner, field)] else NILCLASS;
    }

    /** Joins one write into its entry. */
    method Perform(w: Write)
      requires Valid(State())
      modifies this
      ensures State() == ApplyWrite(old(State()), w)
      ensures Valid(State())
    {
      match w
      case GlobalWrite(name, t) =>
        var prior := LookupGlobal(name);
        globals := globals[name := Join(prior, t)];
      case IvarWrite(owner, field, t) =>
        var prior := LookupIvar(owner, field);
        ivars := ivars[(owner, field) := Join(prior, t)];
    }

    /** Performs the writes of one analysis run, step by step, in order. */
    method PerformAll(ws: seq<Write>)
      requires Valid(State())
      modifies this
      ensures State() == ApplyWrites(old(State()), ws)
      ensures Valid(State())
    {
      var i := 0;
      while i < |ws|
        invariant 0 <= i <= |ws|
        invariant State() == ApplyWrites(old(State()), ws[..i])
        invariant Valid(State())
      {
        assert ws[..i + 1][..i] == ws[..i];
        Perform(ws[i]);
        i := i + 1;
      }
      assert ws[..|ws|] == ws;
    }
  }
}
