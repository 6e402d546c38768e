/** The analysed programs of the behaviour the engine is held to, each method
    inferred for the receiver and argument types it is queried with. Line numbers
    count from the first line of each program. */
module Scenarios {
  import opened Types
  import opened Tuples
  import opened Overloads
  import opened Flow
  import opened Fields
  import opened Engine
  import opened Query

  /** The singleton class of a module, which holds its `def self.` methods. */
  function Meta(name: string): string {
    "#<Class:" + name + ">"
  }

  /** The type of a module object: an instance of its singleton class. */
  function ModuleType(name: string): Type {
    Instance(Meta(name))
  }

  // ---------------------------------------------------------------------------
  // RTI2: `def self.multiply(x, y); x * y; end`

  const Rti2Multiply: MethodDef :=
    MethodDef(["x", "y"], None, [ExprStmt(Call(LocalVar("x"), "*", [LocalVar("y")], 3))], 2)

  const Rti2: Program := map[Meta("RTI2") := ClassDef(None, map["multiply" := Rti2Multiply])]

  /** `x * y` with x and y read off the environment, into the built-in table. */
  lemma MultiplyLocals(prog: Program, st0: Store, f: Frame, ctx: Ctx, fuel: nat, tx: Type, ty: Type)
    requires Lookup(ctx.env, "x") == tx && Lookup(ctx.env, "y") == ty
    requires UserTarget(prog, tx, "*").None?
    ensures Eval(prog, st0, f, Call(LocalVar("x"), "*", [LocalVar("y")], 3), ctx, fuel) ==
      CallBuiltin(Val(tx, None), "*", [Val(ty, None)], 3, ctx)
  {
    EvalCallStep(prog, st0, f, LocalVar("x"), "*", [LocalVar("y")], 3, ctx, fuel);
    EvalLeaf(prog, st0, f, LocalVar("x"), ctx, fuel);
    EvalListCons(prog, st0, f, [LocalVar("y")], ctx, fuel);
    EvalLeaf(prog, st0, f, LocalVar("y"), ctx, fuel);
    EvalListNil(prog, st0, f, ctx, fuel);
    assert [LocalVar("y")][1..] == [];
    CallMethodBuiltin(prog, st0, Val(tx, None), "*", [Val(ty, None)], 3, ctx, fuel);
  }

  /** `multiply(x, y)` binds x and y to the argument types. */
  lemma Rti2Binds(tx: Type, ty: Type)
    ensures BindParams(map[], ["x", "y"], None, [tx, ty]) == map["x" := tx, "y" := ty]
  {
  }

  /** The body's one expression, on a primitive receiver, has the type the built-in table gives. */
  lemma Rti2Body(st0: Store, tx: Prim, ty: Type, ws: seq<Write>, ds: seq<Diagnostic>, fuel: nat)
    ensures var env := map["x" := {PrimType(tx)}, "y" := ty];
      var f := Frame(Meta("RTI2"), "multiply", ModuleType("RTI2"), ["x", "y"], None);
      var r := Resolve({PrimType(tx)}, "*", [ty], None);
      r.Resolved? ==> Eval(Rti2, st0, f, Rti2Multiply.body[0].e, Ctx(env, ws, ds), fuel).val.ty == r.ty
  {
    var env := map["x" := {PrimType(tx)}, "y" := ty];
    var f := Frame(Meta("RTI2"), "multiply", ModuleType("RTI2"), ["x", "y"], None);
    BuiltinReceiver(Rti2, tx, "*");
    MultiplyLocals(Rti2, st0, f, Ctx(env, ws, ds), fuel, {PrimType(tx)}, ty);
    assert TypesOf([Val(ty, None)]) == [ty];
  }

  /** `multiply` returns what the built-in table gives for its argument types. */
  lemma Rti2Returns(st0: Store, tx: Prim, ty: Type, ws: seq<Write>, ds: seq<Diagnostic>, fuel: nat)
    requires fuel > 0 && Resolve({PrimType(tx)}, "*", [ty], None).Resolved?
    ensures InferReturn(Rti2, st0, Meta("RTI2"), "multiply", Rti2Multiply, ModuleType("RTI2"), [{PrimType(tx)}, ty], ws, ds, fuel).ty
      == Resolve({PrimType(tx)}, "*", [ty], None).ty
  {
    var env := map["x" := {PrimType(tx)}, "y" := ty];
    var f := Frame(Meta("RTI2"), "multiply", ModuleType("RTI2"), ["x", "y"], None);
    var v := Eval(Rti2, st0, f, Rti2Multiply.body[0].e, Ctx(env, ws, ds), fuel - 1);
    Rti2Binds({PrimType(tx)}, ty);
    Rti2Body(st0, tx, ty, ws, ds, fuel - 1);
    assert v.val.ty == Resolve({PrimType(tx)}, "*", [ty], None).ty;
    InferExpressionBody(Rti2, st0, Meta("RTI2"), "multiply", Rti2Multiply, ModuleType("RTI2"), [{PrimType(tx)}, ty], ws, ds, fuel);
    assert "multiply" !in Contracts;
    NoContract("multiply", 2, v.val.ty);
  }

  /** Fixnum * Float is a Float, and Fixnum * Fixnum a Fixnum or a Bignum. */
  lemma Rti2MultiplyTypes(st0: Store, fuel: nat)
    requires fuel > 0
    ensures InferReturn(Rti2, st0, Meta("RTI2"), "multiply", Rti2Multiply, ModuleType("RTI2"), [FIXNUM, FLOAT], [], [], fuel).ty == FLOAT
    ensures InferReturn(Rti2, st0, Meta("RTI2"), "multiply", Rti2Multiply, ModuleType("RTI2"), [FIXNUM, FIXNUM], [], [], fuel).ty == INTEGER
  {
    FixnumTimesFloat();
    Rti2Returns(st0, Fixnum, FLOAT, [], [], fuel);
    FixnumTimesFixnum(None);
    Rti2Returns(st0, Fixnum, FIXNUM, [], [], fuel);
  }

  // ---------------------------------------------------------------------------
  // TI1 and TI2: `def set_foo(x); @foo = x; end` and `def get_foo; @foo; end`
  // in two classes

  function SetFoo(line: nat): MethodDef {
    MethodDef(["x"], None, [ExprStmt(IvarAssign("foo", LocalVar("x")))], line)
  }

  function GetFoo(line: nat): MethodDef {
    MethodDef([], None, [ExprStmt(IvarRef("foo"))], line)
  }

  const Ti: Program := map[
    "TI1" := ClassDef(None, map["set_foo" := SetFoo(2), "get_foo" := GetFoo(5)]),
    "TI2" := ClassDef(None, map["set_foo" := SetFoo(10), "get_foo" := GetFoo(13)])]

  /** `get_foo` returns the accumulated type of its class's @foo and writes nothing. */
  lemma GetFooReads(cls: string, line: nat, st: Store, fuel: nat)
    requires fuel > 0
    ensures InferReturn(Ti, st, cls, "get_foo", GetFoo(line), Instance(cls), [], [], [], fuel) ==
      Inferred(ReadIvar(st, cls, "foo"), [], [])
  {
    var f := Frame(cls, "get_foo", Instance(cls), [], None);
    InferExpressionBody(Ti, st, cls, "get_foo", GetFoo(line), Instance(cls), [], [], [], fuel);
    EvalLeaf(Ti, st, f, IvarRef("foo"), Ctx(map[], [], []), fuel - 1);
  }

  /** `set_foo(x)` returns the type written, not the accumulated one, and logs one
      write to its class's @foo. */
  lemma SetFooWrites(cls: string, line: nat, st: Store, t: Type, fuel: nat)
    requires fuel > 0
    ensures InferReturn(Ti, st, cls, "set_foo", SetFoo(line), Instance(cls), [t], [], [], fuel) ==
      Inferred(t, [IvarWrite(cls, "foo", t)], [])
  {
    var f := Frame(cls, "set_foo", Instance(cls), ["x"], None);
    var env := map["x" := t];
    assert BindParams(map[], ["x"], None, [t]) == env;
    var v := Eval(Ti, st, f, IvarAssign("foo", LocalVar("x")), Ctx(env, [], []), fuel - 1);
    assert v == Evaluated(Val(t, None), Ctx(env, [IvarWrite(cls, "foo", t)], [])) by {
      EvalIvarAssign(Ti, st, f, "foo", LocalVar("x"), Ctx(env, [], []), fuel - 1);
      EvalLeaf(Ti, st, f, LocalVar("x"), Ctx(env, [], []), fuel - 1);
    }
    InferExpressionBody(Ti, st, cls, "set_foo", SetFoo(line), Instance(cls), [t], [], [], fuel);
    assert "set_foo" !in Contracts;
    NoContract("set_foo", line, t);
  }

  /** Querying `get_foo` of a class: the accumulated type, and the store unchanged. */
  method QueryGetFoo(store: FieldStore, cls: string, line: nat, fuel: nat) returns (t: Type)
    requires fuel > 0 && Valid(store.State())
    modifies store
    ensures t == ReadIvar(old(store.State()), cls, "foo") && store.State() == old(store.State())
    ensures Valid(store.State())
  {
    GetFooReads(cls, line, store.State(), fuel);
    var ds;
    t, ds := ReturnTypeForTypes(store, Ti, cls, "get_foo", GetFoo(line), Instance(cls), [], fuel);
  }

  /** Querying `set_foo` of a class with an argument type: that type, and one
      write joined into the class's @foo. */
  method QuerySetFoo(store: FieldStore, cls: string, line: nat, arg: Type, fuel: nat) returns (t: Type)
    requires fuel > 0 && Valid(store.State())
    modifies store
    ensures t == arg && store.State() == ApplyWrite(old(store.State()), IvarWrite(cls, "foo", arg))
    ensures Valid(store.State())
  {
    SetFooWrites(cls, line, store.State(), arg, fuel);
    var ds;
    t, ds := ReturnTypeForTypes(store, Ti, cls, "set_foo", SetFoo(line), Instance(cls), [arg], fuel);
    assert ApplyWrites(old(store.State()), [IvarWrite(cls, "foo", arg)]) == ApplyWrite(old(store.State()), IvarWrite(cls, "foo", arg)) by {
      assert [IvarWrite(cls, "foo", arg)][..0] == [];
    }
  }

  /** The query sequence on a fresh process: each class's @foo starts out nil,
      accumulates every type written to it, and is independent of the other
      class's @foo; each setter returns the type it was given. */
  method InstanceVariablesByClass(fuel: nat) returns (results: seq<Type>)
    requires fuel > 0
    ensures results == [NILCLASS, STRING, Join(NILCLASS, STRING), FIXNUM, Join(Join(NILCLASS, STRING), FIXNUM),
                        NILCLASS, FIXNUM, Join(NILCLASS, FIXNUM)]
  {
    var store := new FieldStore();
    var a := QueryGetFoo(store, "TI1", 5, fuel);
    var b := QuerySetFoo(store, "TI1", 2, STRING, fuel);
    var c := QueryGetFoo(store, "TI1", 5, fuel);
    var d := QuerySetFoo(store, "TI1", 2, FIXNUM, fuel);
    var e := QueryGetFoo(store, "TI1", 5, fuel);
    var g := QueryGetFoo(store, "TI2", 13, fuel);
    var h := QuerySetFoo(store, "TI2", 10, FIXNUM, fuel);
    var i := QueryGetFoo(store, "TI2", 13, fuel);
    results := [a, b, c, d, e, g, h, i];
  }

  // ---------------------------------------------------------------------------
  // RTI9: `bar` is `$sim9 = x = gets; qux(baz(x))`, `baz(y)` is
  // `$sim9 = y.to_sym.size` and `qux(z)` is `$sim9`

  const Rti9Bar: MethodDef := MethodDef([], None, [
    ExprStmt(GlobalAssign("$sim9", LocalAssign("x", Gets))),
    ExprStmt(Call(SelfRef, "qux", [Call(SelfRef, "baz", [LocalVar("x")], 4)], 4))], 2)

  const Rti9Baz: MethodDef :=
    MethodDef(["y"], None, [ExprStmt(GlobalAssign("$sim9", Call(Call(LocalVar("y"), "to_sym", [], 7), "size", [], 7)))], 6)

  const Rti9Qux: MethodDef := MethodDef(["z"], None, [ExprStmt(GlobalVar("$sim9"))], 9)

  const Rti9: Program :=
    map[Meta("RTI9") := ClassDef(None, map["bar" := Rti9Bar, "baz" := Rti9Baz, "qux" := Rti9Qux])]

  /** `qux` returns what the global holds so far, and changes nothing. */
  lemma Rti9QuxReads(st0: Store, t: Type, ws: seq<Write>, ds: seq<Diagnostic>, fuel: nat)
    requires fuel > 0
    ensures InferReturn(Rti9, st0, Meta("RTI9"), "qux", Rti9Qux, ModuleType("RTI9"), [t], ws, ds, fuel)
      == Inferred(ReadGlobal(ApplyWrites(st0, ws), "$sim9"), ws, ds)
  {
    var env := map["z" := t];
    assert BindParams(map[], ["z"], None, [t]) == env;
    var f := Frame(Meta("RTI9"), "qux", ModuleType("RTI9"), ["z"], None);
    EvalLeaf(Rti9, st0, f, GlobalVar("$sim9"), Ctx(env, ws, ds), fuel - 1);
    assert "qux" !in Contracts;
    InferExpressionBody(Rti9, st0, Meta("RTI9"), "qux", Rti9Qux, ModuleType("RTI9"), [t], ws, ds, fuel);
  }

  /** `y.to_sym.size` with y a String is an Integer. */
  lemma Rti9SymbolSize(st0: Store, f: Frame, ctx: Ctx, fuel: nat)
    requires Lookup(ctx.env, "y") == STRING
    ensures var r := Eval(Rti9, st0, f, Call(Call(LocalVar("y"), "to_sym", [], 7), "size", [], 7), ctx, fuel);
      r.val.ty == INTEGER && r.ctx == ctx
  {
    EvalLeaf(Rti9, st0, f, LocalVar("y"), ctx, fuel);
    BuiltinReceiver(Rti9, Str, "to_sym");
    EvalBuiltinCall0(Rti9, st0, f, LocalVar("y"), "to_sym", 7, ctx, fuel);
    StringMethods();
    BuiltinReceiver(Rti9, Sym, "size");
    EvalBuiltinCall0(Rti9, st0, f, Call(LocalVar("y"), "to_sym", [], 7), "size", 7, ctx, fuel);
    SymbolSize();
  }

  lemma Rti9BazBody(st0: Store, f: Frame, ctx: Ctx, fuel: nat)
    requires Lookup(ctx.env, "y") == STRING
    ensures var r := Eval(Rti9, st0, f, Rti9Baz.body[0].e, ctx, fuel);
      r.val.ty == INTEGER && r.ctx == ctx.(writes := ctx.writes + [GlobalWrite("$sim9", INTEGER)])
  {
    var size := Call(Call(LocalVar("y"), "to_sym", [], 7), "size", [], 7);
    EvalGlobalAssign(Rti9, st0, f, "$sim9", size, ctx, fuel);
    Rti9SymbolSize(st0, f, ctx, fuel);
  }

  /** `baz(String)` returns an Integer and logs the Integer written to the global. */
  lemma Rti9BazWrites(st0: Store, ws: seq<Write>, ds: seq<Diagnostic>, fuel: nat)
    requires fuel > 0
    ensures InferReturn(Rti9, st0, Meta("RTI9"), "baz", Rti9Baz, ModuleType("RTI9"), [STRING], ws, ds, fuel)
      == Inferred(INTEGER, ws + [GlobalWrite("$sim9", INTEGER)], ds)
  {
    var env := map["y" := STRING];
    assert BindParams(map[], ["y"], None, [STRING]) == env;
    var f := Frame(Meta("RTI9"), "baz", ModuleType("RTI9"), ["y"], None);
    InferExpressionBody(Rti9, st0, Meta("RTI9"), "baz", Rti9Baz, ModuleType("RTI9"), [STRING], ws, ds, fuel);
    Rti9BazBody(st0, f, Ctx(env, ws, ds), fuel - 1);
    assert "baz" !in Contracts;
    NoContract("baz", 6, INTEGER);
  }

  /** `$sim9 = x = gets`: x is a String, and a String is written to the global. */
  lemma Rti9ReadsInput(st0: Store, f: Frame, run: Run, fuel: nat)
    ensures var r := ExecStmt(Rti9, st0, f, Rti9Bar.body[0], run, fuel);
      r.live && r.returned == run.returned && Lookup(r.ctx.env, "x") == STRING
      && r.ctx.writes == run.ctx.writes + [GlobalWrite("$sim9", STRING)] && r.ctx.diags == run.ctx.diags
  {
    ExecExprStmt(Rti9, st0, f, Rti9Bar.body[0].e, run, fuel);
    EvalGlobalAssign(Rti9, st0, f, "$sim9", LocalAssign("x", Gets), run.ctx, fuel);
    EvalLocalAssign(Rti9, st0, f, "x", Gets, run.ctx, fuel);
    EvalLeaf(Rti9, st0, f, Gets, run.ctx, fuel);
  }

  lemma Rti9CallsBaz(st0: Store, f: Frame, ctx: Ctx, fuel: nat)
    requires f.self == ModuleType("RTI9") && fuel > 0 && Lookup(ctx.env, "x") == STRING
    ensures Eval(Rti9, st0, f, Call(SelfRef, "baz", [LocalVar("x")], 4), ctx, fuel)
      == Plain(INTEGER, ctx.(writes := ctx.writes + [GlobalWrite("$sim9", INTEGER)]))
  {
    EvalSelfCall1(Rti9, st0, f, Meta("RTI9"), "baz", LocalVar("x"), 4, ctx, fuel);
    EvalLeaf(Rti9, st0, f, LocalVar("x"), ctx, fuel);
    Rti9BazWrites(st0, ctx.writes, ctx.diags, fuel);
  }

  lemma Rti9CallsQux(st0: Store, f: Frame, ctx: Ctx, fuel: nat)
    requires f.self == ModuleType("RTI9") && fuel > 0 && Lookup(ctx.env, "x") == STRING
    ensures var ws := ctx.writes + [GlobalWrite("$sim9", INTEGER)];
      Eval(Rti9, st0, f, Rti9Bar.body[1].e, ctx, fuel)
        == Plain(ReadGlobal(ApplyWrites(st0, ws), "$sim9"), ctx.(writes := ws))
  {
    var inner := Call(SelfRef, "baz", [LocalVar("x")], 4);
    EvalSelfCall1(Rti9, st0, f, Meta("RTI9"), "qux", inner, 4, ctx, fuel);
    Rti9CallsBaz(st0, f, ctx, fuel);
    Rti9QuxReads(st0, INTEGER, ctx.writes + [GlobalWrite("$sim9", INTEGER)], ctx.diags, fuel);
  }

  lemma Rti9BarBody(st0: Store, f: Frame, ctx: Ctx, fuel: nat)
    requires f.self == ModuleType("RTI9") && fuel > 0
    ensures var ws := ctx.writes + [GlobalWrite("$sim9", STRING), GlobalWrite("$sim9", INTEGER)];
      var r := Exec(Rti9, st0, f, Rti9Bar.body, Run(ctx, NILCLASS, EMPTY, true), fuel);
      r.live && r.last == ReadGlobal(ApplyWrites(st0, ws), "$sim9") && r.returned == EMPTY
      && r.ctx.writes == ws && r.ctx.diags == ctx.diags
  {
    var run := Run(ctx, NILCLASS, EMPTY, true);
    ExecCons(Rti9, st0, f, Rti9Bar.body, run, fuel);
    Rti9ReadsInput(st0, f, run, fuel);
    var mid := ExecStmt(Rti9, st0, f, Rti9Bar.body[0], run, fuel);
    assert Rti9Bar.body[1..] == [Rti9Bar.body[1]];
    ExecOne(Rti9, st0, f, Rti9Bar.body[1], mid, fuel);
    ExecExprStmt(Rti9, st0, f, Rti9Bar.body[1].e, mid, fuel);
    Rti9CallsQux(st0, f, mid.ctx, fuel);
    assert mid.ctx.writes + [GlobalWrite("$sim9", INTEGER)] ==
      ctx.writes + [GlobalWrite("$sim9", STRING), GlobalWrite("$sim9", INTEGER)];
  }

  /** `bar` logs the String read into x, then the Integer `baz` writes, and returns
      what `qux` then reads: the global's earlier type joined with both. */
  lemma Rti9BarReturns(st0: Store, ws: seq<Write>, ds: seq<Diagnostic>, fuel: nat)
    requires fuel > 1
    ensures var ws' := ws + [GlobalWrite("$sim9", STRING), GlobalWrite("$sim9", INTEGER)];
      InferReturn(Rti9, st0, Meta("RTI9"), "bar", Rti9Bar, ModuleType("RTI9"), [], ws, ds, fuel)
        == Inferred(ReadGlobal(ApplyWrites(st0, ws'), "$sim9"), ws', ds)
  {
    var f := Frame(Meta("RTI9"), "bar", ModuleType("RTI9"), [], None);
    assert BindParams(map[], [], None, []) == map[];
    assert "bar" !in Contracts;
    InferFallThrough(Rti9, st0, Meta("RTI9"), "bar", Rti9Bar, ModuleType("RTI9"), [], ws, ds, fuel);
    Rti9BarBody(st0, f, Ctx(map[], ws, ds), fuel - 1);
  }

  /** The two writes `bar` logs, performed on a store. */
  lemma Rti9Writes(st: Store)
    ensures var st' := ApplyWrites(st, [GlobalWrite("$sim9", STRING), GlobalWrite("$sim9", INTEGER)]);
      ReadGlobal(st', "$sim9") == Join(Join(ReadGlobal(st, "$sim9"), STRING), INTEGER)
  {
    var w1, w2 := GlobalWrite("$sim9", STRING), GlobalWrite("$sim9", INTEGER);
    assert [w1, w2][..1] == [w1];
    assert [w1][..0] == [];
    assert ApplyWrites(st, [w1]) == ApplyWrite(st, w1);
    assert ApplyWrites(st, [w1, w2]) == ApplyWrite(ApplyWrite(st, w1), w2);
  }

  /** Querying `qux`: what the global holds, and the store unchanged. */
  method QueryQux(store: FieldStore, arg: Type, fuel: nat) returns (t: Type)
    requires fuel > 0 && Valid(store.State())
    modifies store
    ensures t == ReadGlobal(old(store.State()), "$sim9") && store.State() == old(store.State())
    ensures Valid(store.State())
  {
    Rti9QuxReads(store.State(), arg, [], [], fuel);
    var ds;
    t, ds := ReturnTypeForTypes(store, Rti9, Meta("RTI9"), "qux", Rti9Qux, ModuleType("RTI9"), [arg], fuel);
  }

  /** Querying `bar`: the global's earlier type joined with a String and an
      Integer, which the store now holds too. */
  method QueryBar(store: FieldStore, fuel: nat) returns (t: Type)
    requires fuel > 1 && Valid(store.State())
    modifies store
    ensures t == Join(Join(ReadGlobal(old(store.State()), "$sim9"), STRING), INTEGER)
    ensures ReadGlobal(store.State(), "$sim9") == t
    ensures Valid(store.State())
  {
    Rti9BarReturns(store.State(), [], [], fuel);
    Rti9Writes(store.State());
    var ds;
    t, ds := ReturnTypeForTypes(store, Rti9, Meta("RTI9"), "bar", Rti9Bar, ModuleType("RTI9"), [], fuel);
    assert [] + [GlobalWrite("$sim9", STRING), GlobalWrite("$sim9", INTEGER)] ==
      [GlobalWrite("$sim9", STRING), GlobalWrite("$sim9", INTEGER)];
  }

  /** The query sequence on a fresh process: `qux` first sees nil; `bar` then
      returns nil, String, Fixnum or Bignum, the global holds the same, and so
      does `qux` asked again. */
  method GlobalsCollectTypes(fuel: nat) returns (results: seq<Type>)
    requires fuel > 1
    ensures var all := Join(Join(NILCLASS, STRING), INTEGER);
      results == [NILCLASS, all, all, all]
  {
    var store := new FieldStore();
    var first := QueryQux(store, STRING, fuel);
    var bar := QueryBar(store, fuel);
    var global := store.LookupGlobal("$sim9");
    var again := QueryQux(store, STRING, fuel);
    results := [first, bar, global, again];
  }
}
