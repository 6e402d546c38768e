/** The programs whose methods call one another: calls into the built-in table,
    calls to methods of the program with the implicit receiver, `Class#new`, the
    `to_s` contract, and explicit and implicit-argument `super`. */
module Calls {
  import opened Types
  import opened Overloads
  import opened Flow
  import opened Fields
  import opened Engine
  import opened Scenarios

  // ---------------------------------------------------------------------------
  // RTI4: `bar` is `x = gets; qux(baz(x))`, `baz(y)` is `y.to_sym.size` and
  // `qux(z)` is `z.zero?`

  const Rti4Bar: MethodDef := MethodDef([], None, [
    ExprStmt(LocalAssign("x", Gets)),
    ExprStmt(Call(SelfRef, "qux", [Call(SelfRef, "baz", [LocalVar("x")], 4)], 4))], 2)

  const Rti4Baz: MethodDef :=
    MethodDef(["y"], None, [ExprStmt(Call(Call(LocalVar("y"), "to_sym", [], 7), "size", [], 7))], 6)

  const Rti4Qux: MethodDef := MethodDef(["z"], None, [ExprStmt(Call(LocalVar("z"), "zero?", [], 10))], 9)

  const Rti4: Program :=
    map[Meta("RTI4") := ClassDef(None, map["bar" := Rti4Bar, "baz" := Rti4Baz, "qux" := Rti4Qux])]

  /** `y.to_sym.size` with y a String is an Integer. */
  lemma Rti4BazBody(st0: Store, f: Frame, ctx: Ctx, fuel: nat)
    requires Lookup(ctx.env, "y") == STRING
    ensures var r := Eval(Rti4, st0, f, Rti4Baz.body[0].e, ctx, fuel);
      r.val.ty == INTEGER && r.ctx == ctx
  {
    var toSym := Call(LocalVar("y"), "to_sym", [], 7);
    EvalLeaf(Rti4, st0, f, LocalVar("y"), ctx, fuel);
    BuiltinReceiver(Rti4, Str, "to_sym");
    EvalBuiltinCall0(Rti4, st0, f, LocalVar("y"), "to_sym", 7, ctx, fuel);
    StringMethods();
    BuiltinReceiver(Rti4, Sym, "size");
    EvalBuiltinCall0(Rti4, st0, f, toSym, "size", 7, ctx, fuel);
    SymbolSize();
  }

  /** `baz(String)` is an Integer. */
  lemma Rti4BazReturns(st0: Store, ws: seq<Write>, ds: seq<Diagnostic>, fuel: nat)
    requires fuel > 0
    ensures InferReturn(Rti4, st0, Meta("RTI4"), "baz", Rti4Baz, ModuleType("RTI4"), [STRING], ws, ds, fuel)
      == Inferred(INTEGER, ws, ds)
  {
    assert BindParams(map[], ["y"], None, [STRING]) == map["y" := STRING];
    var f := Frame(Meta("RTI4"), "baz", ModuleType("RTI4"), ["y"], None);
    Rti4BazBody(st0, f, Ctx(map["y" := STRING], ws, ds), fuel - 1);
    assert "baz" !in Contracts;
    InferExpressionBody(Rti4, st0, Meta("RTI4"), "baz", Rti4Baz, ModuleType("RTI4"), [STRING], ws, ds, fuel);
  }

  /** `z.zero?` with z an Integer is a Boolean. */
  lemma Rti4QuxBody(st0: Store, f: Frame, ctx: Ctx, fuel: nat)
    requires Lookup(ctx.env, "z") == INTEGER
    ensures var r := Eval(Rti4, st0, f, Rti4Qux.body[0].e, ctx, fuel);
      r.val.ty == BOOLEAN && r.ctx == ctx
  {
    EvalLeaf(Rti4, st0, f, LocalVar("z"), ctx, fuel);
    NoClassReceiver(Rti4, INTEGER, "zero?");
    EvalBuiltinCall0(Rti4, st0, f, LocalVar("z"), "zero?", 10, ctx, fuel);
    IntegerMethods();
  }

  /** `qux(Integer)` is a Boolean. */
  lemma Rti4QuxReturns(st0: Store, ws: seq<Write>, ds: seq<Diagnostic>, fuel: nat)
    requires fuel > 0
    ensures InferReturn(Rti4, st0, Meta("RTI4"), "qux", Rti4Qux, ModuleType("RTI4"), [INTEGER], ws, ds, fuel)
      == Inferred(BOOLEAN, ws, ds)
  {
    assert BindParams(map[], ["z"], None, [INTEGER]) == map["z" := INTEGER];
    var f := Frame(Meta("RTI4"), "qux", ModuleType("RTI4"), ["z"], None);
    Rti4QuxBody(st0, f, Ctx(map["z" := INTEGER], ws, ds), fuel - 1);
    assert "qux" !in Contracts;
    InferExpressionBody(Rti4, st0, Meta("RTI4"), "qux", Rti4Qux, ModuleType("RTI4"), [INTEGER], ws, ds, fuel);
  }

  /** `baz(x)` with x a String, from a singleton method of RTI4. */
  lemma Rti4CallsBaz(st0: Store, f: Frame, ctx: Ctx, fuel: nat)
    requires f.self == ModuleType("RTI4") && fuel > 0 && Lookup(ctx.env, "x") == STRING
    ensures Eval(Rti4, st0, f, Call(SelfRef, "baz", [LocalVar("x")], 4), ctx, fuel) == Plain(INTEGER, ctx)
  {
    EvalSelfCall1(Rti4, st0, f, Meta("RTI4"), "baz", LocalVar("x"), 4, ctx, fuel);
    EvalLeaf(Rti4, st0, f, LocalVar("x"), ctx, fuel);
    Rti4BazReturns(st0, ctx.writes, ctx.diags, fuel);
  }

  lemma Rti4CallsQux(st0: Store, f: Frame, ctx: Ctx, fuel: nat)
    requires f.self == ModuleType("RTI4") && fuel > 0 && Lookup(ctx.env, "x") == STRING
    ensures Eval(Rti4, st0, f, Rti4Bar.body[1].e, ctx, fuel) == Plain(BOOLEAN, ctx)
  {
    var inner := Call(SelfRef, "baz", [LocalVar("x")], 4);
    EvalSelfCall1(Rti4, st0, f, Meta("RTI4"), "qux", inner, 4, ctx, fuel);
    Rti4CallsBaz(st0, f, ctx, fuel);
    Rti4QuxReturns(st0, ctx.writes, ctx.diags, fuel);
  }

  lemma Rti4BarBody(st0: Store, f: Frame, ctx: Ctx, fuel: nat)
    requires f.self == ModuleType("RTI4") && fuel > 0
    ensures var r := Exec(Rti4, st0, f, Rti4Bar.body, Run(ctx, NILCLASS, EMPTY, true), fuel);
      r.live && r.last == BOOLEAN && r.returned == EMPTY && r.ctx.writes == ctx.writes && r.ctx.diags == ctx.diags
  {
    var run := Run(ctx, NILCLASS, EMPTY, true);
    ExecCons(Rti4, st0, f, Rti4Bar.body, run, fuel);
    ExecAssign(Rti4, st0, f, "x", Gets, run, fuel);
    EvalLeaf(Rti4, st0, f, Gets, ctx, fuel);
    var mid := ExecStmt(Rti4, st0, f, Rti4Bar.body[0], run, fuel);
    assert Rti4Bar.body[1..] == [Rti4Bar.body[1]];
    ExecOne(Rti4, st0, f, Rti4Bar.body[1], mid, fuel);
    ExecExprStmt(Rti4, st0, f, Rti4Bar.body[1].e, mid, fuel);
    Rti4CallsQux(st0, f, mid.ctx, fuel);
  }

  /** A chain through two methods of the program and three built-in methods:
      `bar` is a Boolean, with no report. Two levels of calls need fuel 2. */
  lemma Rti4Returns(st0: Store, ws: seq<Write>, ds: seq<Diagnostic>, fuel: nat)
    requires fuel > 1
    ensures InferReturn(Rti4, st0, Meta("RTI4"), "bar", Rti4Bar, ModuleType("RTI4"), [], ws, ds, fuel)
      == Inferred(BOOLEAN, ws, ds)
  {
    var f := Frame(Meta("RTI4"), "bar", ModuleType("RTI4"), [], None);
    assert BindParams(map[], [], None, []) == map[];
    assert "bar" !in Contracts;
    InferFallThrough(Rti4, st0, Meta("RTI4"), "bar", Rti4Bar, ModuleType("RTI4"), [], ws, ds, fuel);
    Rti4BarBody(st0, f, Ctx(map[], ws, ds), fuel - 1);
  }

  // ---------------------------------------------------------------------------
  // RTI5: `Foo.new(a, b)` inside module RTI5, whose class Foo has a two-argument
  // initialize

  const Rti5Init: MethodDef := MethodDef(["x", "y"], None, [
    ExprStmt(IvarAssign("x", LocalVar("x"))), ExprStmt(IvarAssign("y", LocalVar("y")))], 3)

  const Rti5MakeAFoo: MethodDef :=
    MethodDef(["a", "b"], None, [ExprStmt(New("RTI5::Foo", [LocalVar("a"), LocalVar("b")]))], 8)

  const Rti5: Program := map[
    "RTI5::Foo" := ClassDef(None, map["initialize" := Rti5Init]),
    Meta("RTI5") := ClassDef(None, map["make_a_foo" := Rti5MakeAFoo])]

  lemma Rti5Body(st0: Store, f: Frame, ctx: Ctx, fuel: nat)
    ensures Eval(Rti5, st0, f, Rti5MakeAFoo.body[0].e, ctx, fuel) == Plain(Instance("RTI5::Foo"), ctx)
  {
    var args := [LocalVar("a"), LocalVar("b")];
    EvalNewStep(Rti5, st0, f, "RTI5::Foo", args, ctx, fuel);
    EvalListCons(Rti5, st0, f, args, ctx, fuel);
    EvalLeaf(Rti5, st0, f, LocalVar("a"), ctx, fuel);
    assert args[1..] == [LocalVar("b")];
    EvalListOne(Rti5, st0, f, LocalVar("b"), ctx, fuel);
    EvalLeaf(Rti5, st0, f, LocalVar("b"), ctx, fuel);
  }

  /** `Foo.new(...)` is exactly an instance of the invariant class RTI5::Foo,
      whatever the arguments. */
  lemma Rti5Returns(st0: Store, args: seq<Type>, ws: seq<Write>, ds: seq<Diagnostic>, fuel: nat)
    requires fuel > 0
    ensures InferReturn(Rti5, st0, Meta("RTI5"), "make_a_foo", Rti5MakeAFoo, ModuleType("RTI5"), args, ws, ds, fuel)
      == Inferred(Instance("RTI5::Foo"), ws, ds)
  {
    var env := BindParams(map[], ["a", "b"], None, args);
    var f := Frame(Meta("RTI5"), "make_a_foo", ModuleType("RTI5"), ["a", "b"], None);
    InferExpressionBody(Rti5, st0, Meta("RTI5"), "make_a_foo", Rti5MakeAFoo, ModuleType("RTI5"), args, ws, ds, fuel);
    var v := Eval(Rti5, st0, f, Rti5MakeAFoo.body[0].e, Ctx(env, ws, ds), fuel - 1);
    Rti5Body(st0, f, Ctx(env, ws, ds), fuel - 1);
    assert v.val.ty == Instance("RTI5::Foo") && v.ctx.writes == ws && v.ctx.diags == ds;
    assert "make_a_foo" !in Contracts;
    NoContract("make_a_foo", 8, Instance("RTI5::Foo"));
  }

  // ---------------------------------------------------------------------------
  // The `to_s` contract: `def to_s; gets.strip!; end` in class RTI8

  const StripToS: MethodDef := MethodDef([], None, [ExprStmt(Call(Gets, "strip!", [], 3))], 2)

  const StripProgram: Program := map["RTI8" := ClassDef(None, map["to_s" := StripToS])]

  lemma StripBody(prog: Program, st0: Store, f: Frame, ctx: Ctx, fuel: nat)
    ensures var r := Eval(prog, st0, f, Call(Gets, "strip!", [], 3), ctx, fuel);
      r.val.ty == Join(STRING, NILCLASS) && r.ctx == ctx
  {
    assert Eval(prog, st0, f, Call(Gets, "strip!", [], 3), ctx, fuel) ==
           CallBuiltin(Val(STRING, None), "strip!", [], 3, ctx) by {
      EvalLeaf(prog, st0, f, Gets, ctx, fuel);
      BuiltinReceiver(prog, Str, "strip!");
      EvalBuiltinCall0(prog, st0, f, Gets, "strip!", 3, ctx, fuel);
    }
    StripBuiltin(ctx);
  }

  /** `strip!` on a String is a String or nil. */
  lemma StripBuiltin(ctx: Ctx)
    ensures var c := CallBuiltin(Val(STRING, None), "strip!", [], 3, ctx);
      c.val.ty == Join(STRING, NILCLASS) && c.ctx == ctx
  {
    StringStrip();
    BuiltinResolved0(Val(STRING, None), "strip!", 3, ctx, Join(STRING, NILCLASS));
  }

  /** `to_s` may return nil, which its contract (a String) forbids: the analysis
      ends with one ImproperOverloadTypeError, on the definition's line, naming
      `to_s`. */
  lemma StripViolatesContract(st0: Store, ws: seq<Write>, ds: seq<Diagnostic>, fuel: nat)
    requires fuel > 0
    ensures var r := InferReturn(StripProgram, st0, "RTI8", "to_s", StripToS, Instance("RTI8"), [], ws, ds, fuel);
      r.ty == Join(STRING, NILCLASS) && r.writes == ws && |r.diags| == |ds| + 1 && r.diags[..|ds|] == ds
      && r.diags[|ds|].kind == ImproperOverloadTypeError && r.diags[|ds|].line == 2
      && Mentions(r.diags[|ds|].message, "to_s")
  {
    var f := Frame("RTI8", "to_s", Instance("RTI8"), [], None);
    assert BindParams(map[], [], None, []) == map[];
    StripBody(StripProgram, st0, f, Ctx(map[], ws, ds), fuel - 1);
    InferExpressionBody(StripProgram, st0, "RTI8", "to_s", StripToS, Instance("RTI8"), [], ws, ds, fuel);
    assert NILCLASS <= Join(STRING, NILCLASS) && !(NILCLASS <= STRING);
    assert |ContractCheck("to_s", 2, Join(STRING, NILCLASS))| == 1;
  }

  // ---------------------------------------------------------------------------
  // RTI18 < RTI19 < RTI20, each defining foo: `"Hello #{x}"`, `super(y).size`,
  // and `z = super; z.to_s`

  const Rti18Foo: MethodDef := MethodDef(["x"], None, [ExprStmt(Interpolation([LocalVar("x")]))], 2)

  const Rti19Foo: MethodDef := MethodDef(["x", "y"], None, [ExprStmt(Call(Super([LocalVar("y")], 8), "size", [], 8))], 7)

  const Rti20Foo: MethodDef := MethodDef(["x", "y"], None, [
    ExprStmt(LocalAssign("z", ZSuper(13))),
    ExprStmt(Call(LocalVar("z"), "to_s", [], 14))], 12)

  const Rti18To20: Program := map[
    "RTI18" := ClassDef(None, map["foo" := Rti18Foo]),
    "RTI19" := ClassDef(Some("RTI18"), map["foo" := Rti19Foo]),
    "RTI20" := ClassDef(Some("RTI19"), map["foo" := Rti20Foo])]

  /** An interpolated string is a String whatever it interpolates. */
  lemma Rti18Returns(st0: Store, self: Type, t: Type, ws: seq<Write>, ds: seq<Diagnostic>, fuel: nat)
    requires fuel > 0
    ensures InferReturn(Rti18To20, st0, "RTI18", "foo", Rti18Foo, self, [t], ws, ds, fuel) == Inferred(STRING, ws, ds)
  {
    var env := map["x" := t];
    assert BindParams(map[], ["x"], None, [t]) == env;
    var f := Frame("RTI18", "foo", self, ["x"], None);
    var v := Eval(Rti18To20, st0, f, Rti18Foo.body[0].e, Ctx(env, ws, ds), fuel - 1);
    Rti18Body(st0, f, Ctx(env, ws, ds), fuel - 1);
    assert v.val.ty == STRING && v.ctx.writes == ws && v.ctx.diags == ds;
    InferExpressionBody(Rti18To20, st0, "RTI18", "foo", Rti18Foo, self, [t], ws, ds, fuel);
    assert "foo" !in Contracts;
    NoContract("foo", 2, STRING);
  }

  lemma Rti18Body(st0: Store, f: Frame, ctx: Ctx, fuel: nat)
    ensures Eval(Rti18To20, st0, f, Rti18Foo.body[0].e, ctx, fuel) == Plain(STRING, ctx)
  {
    EvalInterpolationStep(Rti18To20, st0, f, [LocalVar("x")], ctx, fuel);
    EvalListOne(Rti18To20, st0, f, LocalVar("x"), ctx, fuel);
    EvalLeaf(Rti18To20, st0, f, LocalVar("x"), ctx, fuel);
  }

  /** `super(y)` in RTI19's foo runs RTI18's foo on y: a String. */
  lemma Rti19Super(st0: Store, f: Frame, ctx: Ctx, fuel: nat)
    requires f.owner == "RTI19" && f.name == "foo" && fuel > 0
    ensures Eval(Rti18To20, st0, f, Super([LocalVar("y")], 8), ctx, fuel) == Plain(STRING, ctx)
  {
    SuperFromDeclaringClass(Rti18To20, "RTI19", "RTI18", "foo");
    EvalSuper1(Rti18To20, st0, f, LocalVar("y"), 8, ctx, fuel);
    EvalLeaf(Rti18To20, st0, f, LocalVar("y"), ctx, fuel);
    Rti18Returns(st0, f.self, Lookup(ctx.env, "y"), ctx.writes, ctx.diags, fuel);
  }

  lemma Rti19Body(st0: Store, f: Frame, ctx: Ctx, fuel: nat)
    requires f.owner == "RTI19" && f.name == "foo" && fuel > 0
    ensures Eval(Rti18To20, st0, f, Rti19Foo.body[0].e, ctx, fuel) == Plain(INTEGER, ctx)
  {
    var sup := Super([LocalVar("y")], 8);
    Rti19Super(st0, f, ctx, fuel);
    NoClassReceiver(Rti18To20, STRING, "size");
    EvalBuiltinCall0(Rti18To20, st0, f, sup, "size", 8, ctx, fuel);
    StringSize();
    BuiltinResolved0(Val(STRING, None), "size", 8, ctx, INTEGER);
  }

  /** `super(y)` runs the superclass's foo on y alone: RTI19's foo is the size of a
      String, an Integer, whatever its arguments. Nested calls need fuel 2. */
  lemma Rti19Returns(st0: Store, self: Type, args: seq<Type>, ws: seq<Write>, ds: seq<Diagnostic>, fuel: nat)
    requires fuel > 1
    ensures InferReturn(Rti18To20, st0, "RTI19", "foo", Rti19Foo, self, args, ws, ds, fuel) == Inferred(INTEGER, ws, ds)
  {
    var env := BindParams(map[], ["x", "y"], None, args);
    var f := Frame("RTI19", "foo", self, ["x", "y"], None);
    Rti19Body(st0, f, Ctx(env, ws, ds), fuel - 1);
    assert "foo" !in Contracts;
    InferExpressionBody(Rti18To20, st0, "RTI19", "foo", Rti19Foo, self, args, ws, ds, fuel);
  }

  /** `z = super` forwards RTI20's own arguments to RTI19's foo: z is an Integer. */
  lemma Rti20Super(st0: Store, f: Frame, run: Run, fuel: nat)
    requires f.owner == "RTI20" && f.name == "foo" && fuel > 1
    ensures var r := ExecStmt(Rti18To20, st0, f, Rti20Foo.body[0], run, fuel);
      r.live && r.returned == run.returned && r.ctx.writes == run.ctx.writes && r.ctx.diags == run.ctx.diags
      && Lookup(r.ctx.env, "z") == INTEGER
  {
    SuperFromDeclaringClass(Rti18To20, "RTI20", "RTI19", "foo");
    ExecAssign(Rti18To20, st0, f, "z", ZSuper(13), run, fuel);
    EvalZSuperStep(Rti18To20, st0, f, 13, run.ctx, fuel);
    var args := Forwarded(f, run.ctx.env);
    CallSuperFound(Rti18To20, st0, f, args, 13, run.ctx, fuel);
    Rti19Returns(st0, f.self, args, run.ctx.writes, run.ctx.diags, fuel);
  }

  lemma Rti20ToS(st0: Store, f: Frame, run: Run, fuel: nat)
    requires Lookup(run.ctx.env, "z") == INTEGER
    ensures var r := ExecStmt(Rti18To20, st0, f, Rti20Foo.body[1], run, fuel);
      r.live && r.last == STRING && r.returned == run.returned && r.ctx == run.ctx
  {
    ExecExprStmt(Rti18To20, st0, f, Rti20Foo.body[1].e, run, fuel);
    EvalLeaf(Rti18To20, st0, f, LocalVar("z"), run.ctx, fuel);
    NoClassReceiver(Rti18To20, INTEGER, "to_s");
    EvalBuiltinCall0(Rti18To20, st0, f, LocalVar("z"), "to_s", 14, run.ctx, fuel);
    IntegerMethods();
  }

  lemma Rti20Body(st0: Store, f: Frame, ctx: Ctx, fuel: nat)
    requires f.owner == "RTI20" && f.name == "foo" && fuel > 1
    ensures var r := Exec(Rti18To20, st0, f, Rti20Foo.body, Run(ctx, NILCLASS, EMPTY, true), fuel);
      r.live && r.last == STRING && r.returned == EMPTY && r.ctx.writes == ctx.writes && r.ctx.diags == ctx.diags
  {
    var run := Run(ctx, NILCLASS, EMPTY, true);
    ExecCons(Rti18To20, st0, f, Rti20Foo.body, run, fuel);
    Rti20Super(st0, f, run, fuel);
    var mid := ExecStmt(Rti18To20, st0, f, Rti20Foo.body[0], run, fuel);
    assert Rti20Foo.body[1..] == [Rti20Foo.body[1]];
    ExecOne(Rti18To20, st0, f, Rti20Foo.body[1], mid, fuel);
    Rti20ToS(st0, f, mid, fuel);
  }

  /** Through two levels of `super`, RTI20's foo is `to_s` of an Integer, a
      String. Three levels of calls need fuel 3. */
  lemma Rti20Returns(st0: Store, self: Type, args: seq<Type>, ws: seq<Write>, ds: seq<Diagnostic>, fuel: nat)
    requires fuel > 2
    ensures InferReturn(Rti18To20, st0, "RTI20", "foo", Rti20Foo, self, args, ws, ds, fuel) == Inferred(STRING, ws, ds)
  {
    var env := BindParams(map[], ["x", "y"], None, args);
    var f := Frame("RTI20", "foo", self, ["x", "y"], None);
    assert "foo" !in Contracts;
    InferFallThrough(Rti18To20, st0, "RTI20", "foo", Rti20Foo, self, args, ws, ds, fuel);
    Rti20Body(st0, f, Ctx(env, ws, ds), fuel - 1);
  }
}
