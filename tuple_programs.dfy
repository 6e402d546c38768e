/** The programs whose methods take a rest parameter or build arrays: element
    access, range slicing, destructuring, `size` folding, `to_a`, array literals,
    concatenation and replication, each inferred on the tuple of the argument
    types. */
module TuplePrograms {
  import opened Types
  import opened Tuples
  import opened Overloads
  import opened Flow
  import opened Fields
  import opened Engine

  /** A method `def m(*args)`: args is bound to the tuple of the argument types. */
  function RestMethod(body: seq<Stmt>, line: nat): MethodDef {
    MethodDef([], Some("args"), body, line)
  }

  lemma BindRest(args: seq<Type>)
    ensures BindParams(map[], [], Some("args"), args) == map["args" := Tuple(args)]
  {
  }

  /** A rest-parameter method without a contract whose body is one expression
      returns that expression's type, evaluated with args bound to the tuple. */
  lemma RestExpressionBody(prog: Program, st0: Store, owner: string, name: string, def: MethodDef,
                           self: Type, args: seq<Type>, ws: seq<Write>, ds: seq<Diagnostic>, fuel: nat)
    requires fuel > 0 && def.params == [] && def.rest == Some("args") && name !in Contracts
    requires |def.body| == 1 && def.body[0].ExprStmt?
    ensures var f := Frame(owner, name, self, [], Some("args"));
      var v := Eval(prog, st0, f, def.body[0].e, Ctx(map["args" := Tuple(args)], ws, ds), fuel - 1);
      InferReturn(prog, st0, owner, name, def, self, args, ws, ds, fuel) == Inferred(v.val.ty, v.ctx.writes, v.ctx.diags)
  {
    BindRest(args);
    InferExpressionBody(prog, st0, owner, name, def, self, args, ws, ds, fuel);
    var f := Frame(owner, name, self, [], Some("args"));
    var v := Eval(prog, st0, f, def.body[0].e, Ctx(map["args" := Tuple(args)], ws, ds), fuel - 1);
    NoContract(name, def.line, v.val.ty);
  }

  /** `args[i]` with a literal index. */
  lemma IndexLiteral(prog: Program, st0: Store, f: Frame, i: int, line: nat, ctx: Ctx, fuel: nat, elems: seq<Type>)
    requires Lookup(ctx.env, "args") == Tuple(elems)
    ensures var r := Eval(prog, st0, f, Call(LocalVar("args"), "[]", [IntLiteral(i)], line), ctx, fuel);
      r.val.ty == At(elems, i) && r.ctx == ctx
  {
    EvalLeaf(prog, st0, f, LocalVar("args"), ctx, fuel);
    NoClassReceiver(prog, Tuple(elems), "[]");
    EvalBuiltinCall1(prog, st0, f, LocalVar("args"), "[]", IntLiteral(i), line, ctx, fuel);
    EvalLeaf(prog, st0, f, IntLiteral(i), ctx, fuel);
    TupleIndex(elems, i);
  }

  /** A method `def m(*args); args[i]; end` returns the argument type at i. */
  lemma IndexReturns(prog: Program, st0: Store, owner: string, name: string, i: int, line: nat, defLine: nat,
                     self: Type, args: seq<Type>, ws: seq<Write>, ds: seq<Diagnostic>, fuel: nat)
    requires fuel > 0 && name !in Contracts
    ensures var def := RestMethod([ExprStmt(Call(LocalVar("args"), "[]", [IntLiteral(i)], line))], defLine);
      InferReturn(prog, st0, owner, name, def, self, args, ws, ds, fuel) == Inferred(At(args, i), ws, ds)
  {
    var def := RestMethod([ExprStmt(Call(LocalVar("args"), "[]", [IntLiteral(i)], line))], defLine);
    RestExpressionBody(prog, st0, owner, name, def, self, args, ws, ds, fuel);
    IndexLiteral(prog, st0, Frame(owner, name, self, [], Some("args")), i, line,
      Ctx(map["args" := Tuple(args)], ws, ds), fuel - 1, args);
  }

  // ---------------------------------------------------------------------------
  // RTI11: `def foo(*args); args[0]; end` and `def bar(*args); args[1]; end`

  const Rti11Foo: MethodDef := RestMethod([ExprStmt(Call(LocalVar("args"), "[]", [IntLiteral(0)], 3))], 2)
  const Rti11Bar: MethodDef := RestMethod([ExprStmt(Call(LocalVar("args"), "[]", [IntLiteral(1)], 6))], 5)

  const Rti11: Program := map["RTI11" := ClassDef(None, map["foo" := Rti11Foo, "bar" := Rti11Bar])]

  /** Indexing the rest parameter selects the argument at that position: `foo` is
      the first argument's type and `bar` the second's (nil when missing). */
  lemma Rti11Returns(st0: Store, args: seq<Type>, ws: seq<Write>, ds: seq<Diagnostic>, fuel: nat)
    requires fuel > 0
    ensures InferReturn(Rti11, st0, "RTI11", "foo", Rti11Foo, Instance("RTI11"), args, ws, ds, fuel) == Inferred(At(args, 0), ws, ds)
    ensures InferReturn(Rti11, st0, "RTI11", "bar", Rti11Bar, Instance("RTI11"), args, ws, ds, fuel) == Inferred(At(args, 1), ws, ds)
    ensures InferReturn(Rti11, st0, "RTI11", "foo", Rti11Foo, Instance("RTI11"), [FIXNUM, PROC], ws, ds, fuel).ty == FIXNUM
    ensures InferReturn(Rti11, st0, "RTI11", "bar", Rti11Bar, Instance("RTI11"), [FIXNUM, PROC], ws, ds, fuel).ty == PROC
  {
    assert "foo" !in Contracts && "bar" !in Contracts;
    IndexReturns(Rti11, st0, "RTI11", "foo", 0, 3, 2, Instance("RTI11"), args, ws, ds, fuel);
    IndexReturns(Rti11, st0, "RTI11", "bar", 1, 6, 5, Instance("RTI11"), args, ws, ds, fuel);
    IndexReturns(Rti11, st0, "RTI11", "foo", 0, 3, 2, Instance("RTI11"), [FIXNUM, PROC], ws, ds, fuel);
    IndexReturns(Rti11, st0, "RTI11", "bar", 1, 6, 5, Instance("RTI11"), [FIXNUM, PROC], ws, ds, fuel);
  }

  // ---------------------------------------------------------------------------
  // RTI12: `args[0..1]`, `args[1..3]`, `args[-3..4]`, `args[-4..4]`

  /** A range with literal bounds is a Range whose bounds are known. */
  lemma RangeLiteralKnown(prog: Program, st0: Store, f: Frame, lo: int, hi: int, ctx: Ctx, fuel: nat)
    ensures Eval(prog, st0, f, RangeLiteral(IntLiteral(lo), IntLiteral(hi)), ctx, fuel) ==
      Evaluated(Val(RANGE, Some(KnownRange(lo, hi))), ctx)
  {
    EvalRangeStep(prog, st0, f, IntLiteral(lo), IntLiteral(hi), ctx, fuel);
    EvalLeaf(prog, st0, f, IntLiteral(lo), ctx, fuel);
    EvalLeaf(prog, st0, f, IntLiteral(hi), ctx, fuel);
  }

  function SliceExpr(lo: int, hi: int, line: nat): Expr {
    Call(LocalVar("args"), "[]", [RangeLiteral(IntLiteral(lo), IntLiteral(hi))], line)
  }

  /** `args[lo..hi]` with literal bounds. */
  lemma SliceLiteral(prog: Program, st0: Store, f: Frame, lo: int, hi: int, line: nat, ctx: Ctx, fuel: nat, elems: seq<Type>)
    requires Lookup(ctx.env, "args") == Tuple(elems)
    ensures var r := Eval(prog, st0, f, SliceExpr(lo, hi, line), ctx, fuel);
      r.val.ty == Slice(elems, lo, hi) && r.ctx == ctx
  {
    var range := RangeLiteral(IntLiteral(lo), IntLiteral(hi));
    EvalLeaf(prog, st0, f, LocalVar("args"), ctx, fuel);
    NoClassReceiver(prog, Tuple(elems), "[]");
    EvalBuiltinCall1(prog, st0, f, LocalVar("args"), "[]", range, line, ctx, fuel);
    RangeLiteralKnown(prog, st0, f, lo, hi, ctx, fuel);
    TupleSlice(elems, lo, hi);
    assert TypesOf([Val(RANGE, Some(KnownRange(lo, hi)))]) == [RANGE];
  }

  /** A method `def m(*args); args[lo..hi]; end` returns the slice of the argument types. */
  lemma SliceReturns(prog: Program, st0: Store, owner: string, name: string, lo: int, hi: int, line: nat, defLine: nat,
                     self: Type, args: seq<Type>, ws: seq<Write>, ds: seq<Diagnostic>, fuel: nat)
    requires fuel > 0 && name !in Contracts
    ensures InferReturn(prog, st0, owner, name, RestMethod([ExprStmt(SliceExpr(lo, hi, line))], defLine), self, args, ws, ds, fuel)
      == Inferred(Slice(args, lo, hi), ws, ds)
  {
    var def := RestMethod([ExprStmt(SliceExpr(lo, hi, line))], defLine);
    RestExpressionBody(prog, st0, owner, name, def, self, args, ws, ds, fuel);
    SliceLiteral(prog, st0, Frame(owner, name, self, [], Some("args")), lo, hi, line,
      Ctx(map["args" := Tuple(args)], ws, ds), fuel - 1, args);
  }

  const Rti12Foo: MethodDef := RestMethod([ExprStmt(SliceExpr(0, 1, 3))], 2)
  const Rti12Bar: MethodDef := RestMethod([ExprStmt(SliceExpr(1, 3, 6))], 5)
  const Rti12Baz: MethodDef := RestMethod([ExprStmt(SliceExpr(-3, 4, 9))], 8)
  const Rti12Qux: MethodDef := RestMethod([ExprStmt(SliceExpr(-4, 4, 12))], 11)

  const Rti12: Program :=
    map["RTI12" := ClassDef(None, map["foo" := Rti12Foo, "bar" := Rti12Bar, "baz" := Rti12Baz, "qux" := Rti12Qux])]

  /** Range indexing on the rest parameter selects the argument types in the range. */
  lemma Rti12Returns(st0: Store, args: seq<Type>, ws: seq<Write>, ds: seq<Diagnostic>, fuel: nat)
    requires fuel > 0
    ensures InferReturn(Rti12, st0, "RTI12", "foo", Rti12Foo, Instance("RTI12"), args, ws, ds, fuel) == Inferred(Slice(args, 0, 1), ws, ds)
    ensures InferReturn(Rti12, st0, "RTI12", "bar", Rti12Bar, Instance("RTI12"), args, ws, ds, fuel) == Inferred(Slice(args, 1, 3), ws, ds)
    ensures InferReturn(Rti12, st0, "RTI12", "baz", Rti12Baz, Instance("RTI12"), args, ws, ds, fuel) == Inferred(Slice(args, -3, 4), ws, ds)
    ensures InferReturn(Rti12, st0, "RTI12", "qux", Rti12Qux, Instance("RTI12"), args, ws, ds, fuel) == Inferred(Slice(args, -4, 4), ws, ds)
  {
    assert "foo" !in Contracts && "bar" !in Contracts && "baz" !in Contracts && "qux" !in Contracts;
    SliceReturns(Rti12, st0, "RTI12", "foo", 0, 1, 3, 2, Instance("RTI12"), args, ws, ds, fuel);
    SliceReturns(Rti12, st0, "RTI12", "bar", 1, 3, 6, 5, Instance("RTI12"), args, ws, ds, fuel);
    SliceReturns(Rti12, st0, "RTI12", "baz", -3, 4, 9, 8, Instance("RTI12"), args, ws, ds, fuel);
    SliceReturns(Rti12, st0, "RTI12", "qux", -4, 4, 12, 11, Instance("RTI12"), args, ws, ds, fuel);
  }

  /** On three arguments: `0..1` keeps the first two, `1..3` the last two (the end is
      clamped), `-3..4` all three, and `-4..4` starts before the first and is nil. */
  lemma Rti12Slices(a: Type, b: Type, c: Type)
    ensures Slice([a, b, c], 0, 1) == Tuple([a, b])
    ensures Slice([a, b, c], 1, 3) == Tuple([b, c])
    ensures Slice([a, b, c], -3, 4) == Tuple([a, b, c])
    ensures Slice([a, b, c], -4, 4) == NILCLASS
  {
    assert [a, b, c][0..2] == [a, b];
    assert [a, b, c][1..3] == [b, c];
    assert [a, b, c][0..3] == [a, b, c];
  }

  // ---------------------------------------------------------------------------
  // RTI13: `a, b, c = args` followed by `a`, `b` or `c`

  const Abc: seq<string> := ["a", "b", "c"]

  function DestructureMethod(i: nat, defLine: nat): MethodDef
    requires i < 3
  {
    RestMethod([MultiAssign(Abc, LocalVar("args")), ExprStmt(LocalVar(Abc[i]))], defLine)
  }

  /** A statement that only reads a local is that local's type. */
  lemma ExecRead(prog: Program, st0: Store, f: Frame, x: string, run: Run, fuel: nat)
    requires run.live
    ensures Exec(prog, st0, f, [ExprStmt(LocalVar(x))], run, fuel) == Run(run.ctx, Lookup(run.ctx.env, x), run.returned, true)
  {
    ExecOne(prog, st0, f, ExprStmt(LocalVar(x)), run, fuel);
    ExecExprStmt(prog, st0, f, LocalVar(x), run, fuel);
    EvalLeaf(prog, st0, f, LocalVar(x), run.ctx, fuel);
  }

  /** `a, b, c = args` binds the targets from the tuple and changes nothing else. */
  lemma DestructureArgs(prog: Program, st0: Store, f: Frame, run: Run, fuel: nat, elems: seq<Type>)
    requires Lookup(run.ctx.env, "args") == Tuple(elems)
    ensures ExecStmt(prog, st0, f, MultiAssign(Abc, LocalVar("args")), run, fuel) ==
      Run(run.ctx.(env := BindTargets(run.ctx.env, Abc, Tuple(elems), 0)), Tuple(elems), run.returned, true)
  {
    EvalLeaf(prog, st0, f, LocalVar("args"), run.ctx, fuel);
  }

  /** Destructuring the rest parameter binds target i to argument i. */
  lemma DestructureBody(prog: Program, st0: Store, f: Frame, i: nat, ctx: Ctx, fuel: nat, elems: seq<Type>)
    requires i < 3 && Lookup(ctx.env, "args") == Tuple(elems)
    ensures var r := Exec(prog, st0, f, DestructureMethod(i, 0).body, Run(ctx, NILCLASS, EMPTY, true), fuel);
      r.live && r.last == At(elems, i) && r.returned == EMPTY && r.ctx.writes == ctx.writes && r.ctx.diags == ctx.diags
  {
    var ss := DestructureMethod(i, 0).body;
    var run := Run(ctx, NILCLASS, EMPTY, true);
    ExecCons(prog, st0, f, ss, run, fuel);
    DestructureArgs(prog, st0, f, run, fuel, elems);
    var r1 := ExecStmt(prog, st0, f, ss[0], run, fuel);
    assert ss[1..] == [ExprStmt(LocalVar(Abc[i]))];
    ExecRead(prog, st0, f, Abc[i], r1, fuel);
    assert Distinct(Abc);
    BindTargetsAt(ctx.env, Abc, Tuple(elems), 0, i);
    DestructureTuple(elems, i);
  }

  /** A method `def m(*args); a, b, c = args; <target i>; end` returns argument i. */
  lemma DestructureReturns(prog: Program, st0: Store, owner: string, name: string, i: nat, defLine: nat,
                           self: Type, args: seq<Type>, ws: seq<Write>, ds: seq<Diagnostic>, fuel: nat)
    requires fuel > 0 && name !in Contracts && i < 3
    ensures InferReturn(prog, st0, owner, name, DestructureMethod(i, defLine), self, args, ws, ds, fuel) == Inferred(At(args, i), ws, ds)
  {
    BindRest(args);
    InferFallThrough(prog, st0, owner, name, DestructureMethod(i, defLine), self, args, ws, ds, fuel);
    assert DestructureMethod(i, defLine).body == DestructureMethod(i, 0).body;
    DestructureBody(prog, st0, Frame(owner, name, self, [], Some("args")), i, Ctx(map["args" := Tuple(args)], ws, ds), fuel - 1, args);
  }

  const Rti13Foo: MethodDef := DestructureMethod(0, 2)
  const Rti13Bar: MethodDef := DestructureMethod(1, 6)
  const Rti13Baz: MethodDef := DestructureMethod(2, 10)

  const Rti13: Program := map["RTI13" := ClassDef(None, map["foo" := Rti13Foo, "bar" := Rti13Bar, "baz" := Rti13Baz])]

  /** Destructuring binds each target to the argument at its position; a target past
      the last argument is nil. */
  lemma Rti13Returns(st0: Store, args: seq<Type>, ws: seq<Write>, ds: seq<Diagnostic>, fuel: nat)
    requires fuel > 0
    ensures InferReturn(Rti13, st0, "RTI13", "foo", Rti13Foo, Instance("RTI13"), args, ws, ds, fuel) == Inferred(At(args, 0), ws, ds)
    ensures InferReturn(Rti13, st0, "RTI13", "bar", Rti13Bar, Instance("RTI13"), args, ws, ds, fuel) == Inferred(At(args, 1), ws, ds)
    ensures InferReturn(Rti13, st0, "RTI13", "baz", Rti13Baz, Instance("RTI13"), args, ws, ds, fuel) == Inferred(At(args, 2), ws, ds)
    ensures InferReturn(Rti13, st0, "RTI13", "baz", Rti13Baz, Instance("RTI13"), [FIXNUM, PROC], ws, ds, fuel).ty == NILCLASS
  {
    assert "foo" !in Contracts && "bar" !in Contracts && "baz" !in Contracts;
    DestructureReturns(Rti13, st0, "RTI13", "foo", 0, 2, Instance("RTI13"), args, ws, ds, fuel);
    DestructureReturns(Rti13, st0, "RTI13", "bar", 1, 6, Instance("RTI13"), args, ws, ds, fuel);
    DestructureReturns(Rti13, st0, "RTI13", "baz", 2, 10, Instance("RTI13"), args, ws, ds, fuel);
    DestructureReturns(Rti13, st0, "RTI13", "baz", 2, 10, Instance("RTI13"), [FIXNUM, PROC], ws, ds, fuel);
  }

  // ---------------------------------------------------------------------------
  // RTI14: `args[args.size - k]`

  function SizeExpr(name: string, line: nat): Expr {
    Call(LocalVar("args"), name, [], line)
  }

  function FromEndExpr(name: string, k: int, line: nat): Expr {
    Call(LocalVar("args"), "[]", [Call(SizeExpr(name, line), "-", [IntLiteral(k)], line)], line)
  }

  /** `args.size` and `args.length` are Fixnums whose value, the argument count, is known. */
  lemma SizeKnown(prog: Program, st0: Store, f: Frame, name: string, line: nat, ctx: Ctx, fuel: nat, elems: seq<Type>)
    requires name == "size" || name == "length"
    requires Lookup(ctx.env, "args") == Tuple(elems)
    ensures Eval(prog, st0, f, SizeExpr(name, line), ctx, fuel) == Evaluated(Val(FIXNUM, Some(KnownInt(|elems|))), ctx)
  {
    EvalLeaf(prog, st0, f, LocalVar("args"), ctx, fuel);
    NoClassReceiver(prog, Tuple(elems), name);
    EvalBuiltinCall0(prog, st0, f, LocalVar("args"), name, line, ctx, fuel);
    TupleSize(elems, name);
    assert TypesOf([]) == [] && KnownOf([]) == [];
  }

  /** `args.size - k` is an Integer whose value is known. */
  lemma SizeMinus(prog: Program, st0: Store, f: Frame, name: string, k: int, line: nat, ctx: Ctx, fuel: nat, elems: seq<Type>)
    requires name == "size" || name == "length"
    requires Lookup(ctx.env, "args") == Tuple(elems)
    ensures Eval(prog, st0, f, Call(SizeExpr(name, line), "-", [IntLiteral(k)], line), ctx, fuel) ==
      Evaluated(Val(INTEGER, Some(KnownInt(|elems| - k))), ctx)
  {
    SizeKnown(prog, st0, f, name, line, ctx, fuel, elems);
    EvalMinusKnown(prog, st0, f, SizeExpr(name, line), |elems|, k, line, ctx, fuel);
  }

  /** A known Fixnum minus a literal is an Integer whose value is known. */
  lemma EvalMinusKnown(prog: Program, st0: Store, f: Frame, recv: Expr, x: int, y: int, line: nat, ctx: Ctx, fuel: nat)
    requires Eval(prog, st0, f, recv, ctx, fuel) == Evaluated(Val(FIXNUM, Some(KnownInt(x))), ctx)
    ensures Eval(prog, st0, f, Call(recv, "-", [IntLiteral(y)], line), ctx, fuel) ==
      Evaluated(Val(INTEGER, Some(KnownInt(x - y))), ctx)
  {
    BuiltinReceiver(prog, Fixnum, "-");
    EvalBuiltinCall1(prog, st0, f, recv, "-", IntLiteral(y), line, ctx, fuel);
    EvalLeaf(prog, st0, f, IntLiteral(y), ctx, fuel);
    MinusKnown(x, y, line, ctx);
  }

  /** A Fixnum minus a Fixnum, both known, is an Integer whose value is known. */
  lemma MinusKnown(x: int, y: int, line: nat, ctx: Ctx)
    ensures CallBuiltin(Val(FIXNUM, Some(KnownInt(x))), "-", [Val(FIXNUM, Some(KnownInt(y)))], line, ctx) ==
      Evaluated(Val(INTEGER, Some(KnownInt(x - y))), ctx)
  {
    FixnumMinus(x, y);
    var w := Val(FIXNUM, Some(KnownInt(y)));
    assert TypesOf([w]) == [FIXNUM] && KnownOf([w]) == [w.known];
  }

  /** `args[args.size - k]` selects the argument k positions from the end. */
  lemma FromEnd(prog: Program, st0: Store, f: Frame, name: string, k: int, line: nat, ctx: Ctx, fuel: nat, elems: seq<Type>)
    requires name == "size" || name == "length"
    requires Lookup(ctx.env, "args") == Tuple(elems)
    ensures var r := Eval(prog, st0, f, FromEndExpr(name, k, line), ctx, fuel);
      r.val.ty == At(elems, |elems| - k) && r.ctx == ctx
  {
    var index := Call(SizeExpr(name, line), "-", [IntLiteral(k)], line);
    EvalLeaf(prog, st0, f, LocalVar("args"), ctx, fuel);
    NoClassReceiver(prog, Tuple(elems), "[]");
    EvalBuiltinCall1(prog, st0, f, LocalVar("args"), "[]", index, line, ctx, fuel);
    SizeMinus(prog, st0, f, name, k, line, ctx, fuel, elems);
    TupleIndex(elems, |elems| - k);
    assert TypesOf([Val(INTEGER, Some(KnownInt(|elems| - k)))]) == [INTEGER];
  }

  /** A method `def m(*args); args[args.size - k]; end` returns the argument k from the end. */
  lemma FromEndReturns(prog: Program, st0: Store, owner: string, name: string, size: string, k: int, line: nat, defLine: nat,
                       self: Type, args: seq<Type>, ws: seq<Write>, ds: seq<Diagnostic>, fuel: nat)
    requires fuel > 0 && name !in Contracts && (size == "size" || size == "length")
    ensures InferReturn(prog, st0, owner, name, RestMethod([ExprStmt(FromEndExpr(size, k, line))], defLine), self, args, ws, ds, fuel)
      == Inferred(At(args, |args| - k), ws, ds)
  {
    var def := RestMethod([ExprStmt(FromEndExpr(size, k, line))], defLine);
    RestExpressionBody(prog, st0, owner, name, def, self, args, ws, ds, fuel);
    FromEnd(prog, st0, Frame(owner, name, self, [], Some("args")), size, k, line,
      Ctx(map["args" := Tuple(args)], ws, ds), fuel - 1, args);
  }

  const Rti14Foo: MethodDef := RestMethod([ExprStmt(FromEndExpr("size", 2, 3))], 2)
  const Rti14Bar: MethodDef := RestMethod([ExprStmt(FromEndExpr("length", 2, 6))], 5)
  const Rti14Baz: MethodDef := RestMethod([ExprStmt(FromEndExpr("size", 4, 9))], 8)

  const Rti14: Program := map["RTI14" := ClassDef(None, map["foo" := Rti14Foo, "bar" := Rti14Bar, "baz" := Rti14Baz])]

  /** `size` and `length` fold to the argument count, so the index is known: `foo`
      and `bar` are the second argument from the end, and `baz` indexes 4 from the
      end, which counts from the back once more when negative. */
  lemma Rti14Returns(st0: Store, args: seq<Type>, ws: seq<Write>, ds: seq<Diagnostic>, fuel: nat)
    requires fuel > 0
    ensures InferReturn(Rti14, st0, "RTI14", "foo", Rti14Foo, Instance("RTI14"), args, ws, ds, fuel) == Inferred(At(args, |args| - 2), ws, ds)
    ensures InferReturn(Rti14, st0, "RTI14", "bar", Rti14Bar, Instance("RTI14"), args, ws, ds, fuel) == Inferred(At(args, |args| - 2), ws, ds)
    ensures InferReturn(Rti14, st0, "RTI14", "baz", Rti14Baz, Instance("RTI14"), args, ws, ds, fuel) == Inferred(At(args, |args| - 4), ws, ds)
  {
    assert "foo" !in Contracts && "bar" !in Contracts && "baz" !in Contracts;
    FromEndReturns(Rti14, st0, "RTI14", "foo", "size", 2, 3, 2, Instance("RTI14"), args, ws, ds, fuel);
    FromEndReturns(Rti14, st0, "RTI14", "bar", "length", 2, 6, 5, Instance("RTI14"), args, ws, ds, fuel);
    FromEndReturns(Rti14, st0, "RTI14", "baz", "size", 4, 9, 8, Instance("RTI14"), args, ws, ds, fuel);
  }

  /** On (Fixnum, Proc, TrueClass) `foo` is Proc and `baz` TrueClass; on (Fixnum, Proc)
      `foo` is Fixnum. */
  lemma Rti14Positions()
    ensures At([FIXNUM, PROC, TRUECLASS], 3 - 2) == PROC
    ensures At([FIXNUM, PROC], 2 - 2) == FIXNUM
    ensures At([FIXNUM, PROC, TRUECLASS], 3 - 4) == TRUECLASS
  {
  }

  // ---------------------------------------------------------------------------
  // RTI15: `args.to_a.to_ary.to_a.to_a`

  /** `to_a` and `to_ary` on an expression whose type is a tuple keep that tuple. */
  lemma ConvertKeeps(prog: Program, st0: Store, f: Frame, recv: Expr, conv: string, line: nat, ctx: Ctx, fuel: nat, elems: seq<Type>)
    requires conv == "to_a" || conv == "to_ary"
    requires Eval(prog, st0, f, recv, ctx, fuel) == Plain(Tuple(elems), ctx)
    ensures Eval(prog, st0, f, Call(recv, conv, [], line), ctx, fuel) == Plain(Tuple(elems), ctx)
  {
    NoClassReceiver(prog, Tuple(elems), conv);
    EvalBuiltinCall0(prog, st0, f, recv, conv, line, ctx, fuel);
    TupleToA(elems, conv);
    assert TypesOf([]) == [] && KnownOf([]) == [];
  }

  const ToAChain: Expr :=
    Call(Call(Call(Call(LocalVar("args"), "to_a", [], 3), "to_ary", [], 3), "to_a", [], 3), "to_a", [], 3)

  /** The chain of conversions is the tuple of the arguments. */
  lemma ToAChainKeeps(prog: Program, st0: Store, f: Frame, ctx: Ctx, fuel: nat, elems: seq<Type>)
    requires Lookup(ctx.env, "args") == Tuple(elems)
    ensures Eval(prog, st0, f, ToAChain, ctx, fuel) == Plain(Tuple(elems), ctx)
  {
    var e0 := LocalVar("args");
    var e1 := Call(e0, "to_a", [], 3);
    var e2 := Call(e1, "to_ary", [], 3);
    var e3 := Call(e2, "to_a", [], 3);
    EvalLeaf(prog, st0, f, e0, ctx, fuel);
    ConvertKeeps(prog, st0, f, e0, "to_a", 3, ctx, fuel, elems);
    ConvertKeeps(prog, st0, f, e1, "to_ary", 3, ctx, fuel, elems);
    ConvertKeeps(prog, st0, f, e2, "to_a", 3, ctx, fuel, elems);
    ConvertKeeps(prog, st0, f, e3, "to_a", 3, ctx, fuel, elems);
  }

  const Rti15Foo: MethodDef := RestMethod([ExprStmt(ToAChain)], 2)

  const Rti15: Program := map["RTI15" := ClassDef(None, map["foo" := Rti15Foo])]

  /** Converting the rest parameter to an array, any number of times, keeps the
      tuple of the argument types. */
  lemma Rti15Returns(st0: Store, args: seq<Type>, ws: seq<Write>, ds: seq<Diagnostic>, fuel: nat)
    requires fuel > 0
    ensures InferReturn(Rti15, st0, "RTI15", "foo", Rti15Foo, Instance("RTI15"), args, ws, ds, fuel) == Inferred(Tuple(args), ws, ds)
  {
    assert "foo" !in Contracts;
    RestExpressionBody(Rti15, st0, "RTI15", "foo", Rti15Foo, Instance("RTI15"), args, ws, ds, fuel);
    ToAChainKeeps(Rti15, st0, Frame("RTI15", "foo", Instance("RTI15"), [], Some("args")),
      Ctx(map["args" := Tuple(args)], ws, ds), fuel - 1, args);
  }

  // ---------------------------------------------------------------------------
  // RTI16, RTI17: array literals

  /** A method without a contract and with one parameter x, whose body is one
      expression, returns that expression's type with x bound to the argument. */
  lemma OneParamExpressionBody(prog: Program, st0: Store, owner: string, name: string, def: MethodDef,
                               self: Type, t: Type, ws: seq<Write>, ds: seq<Diagnostic>, fuel: nat)
    requires fuel > 0 && def.params == ["x"] && def.rest.None? && name !in Contracts
    requires |def.body| == 1 && def.body[0].ExprStmt?
    ensures var f := Frame(owner, name, self, ["x"], None);
      var v := Eval(prog, st0, f, def.body[0].e, Ctx(map["x" := t], ws, ds), fuel - 1);
      InferReturn(prog, st0, owner, name, def, self, [t], ws, ds, fuel) == Inferred(v.val.ty, v.ctx.writes, v.ctx.diags)
  {
    assert BindParams(map[], ["x"], None, [t]) == map["x" := t];
    InferExpressionBody(prog, st0, owner, name, def, self, [t], ws, ds, fuel);
    var f := Frame(owner, name, self, ["x"], None);
    var v := Eval(prog, st0, f, def.body[0].e, Ctx(map["x" := t], ws, ds), fuel - 1);
    NoContract(name, def.line, v.val.ty);
  }

  /** Two literals or variable reads in an array literal. */
  lemma ArrayOfTwo(prog: Program, st0: Store, f: Frame, e1: Expr, e2: Expr, ctx: Ctx, fuel: nat)
    requires IsLeaf(e1) && IsLeaf(e2)
    ensures Eval(prog, st0, f, ArrayLiteral([e1, e2]), ctx, fuel) ==
      Plain(Tuple([Leaf(st0, f, e1, ctx).val.ty, Leaf(st0, f, e2, ctx).val.ty]), ctx)
  {
    EvalArrayOfLeaves(prog, st0, f, [e1, e2], ctx, fuel);
    var ts := LeafTypes(st0, f, [e1, e2], ctx);
    assert ts == [ts[0], ts[1]];
  }

  /** Four literals or variable reads in an array literal. */
  lemma ArrayOfFour(prog: Program, st0: Store, f: Frame, e1: Expr, e2: Expr, e3: Expr, e4: Expr, ctx: Ctx, fuel: nat)
    requires IsLeaf(e1) && IsLeaf(e2) && IsLeaf(e3) && IsLeaf(e4)
    ensures Eval(prog, st0, f, ArrayLiteral([e1, e2, e3, e4]), ctx, fuel) ==
      Plain(Tuple([Leaf(st0, f, e1, ctx).val.ty, Leaf(st0, f, e2, ctx).val.ty,
                   Leaf(st0, f, e3, ctx).val.ty, Leaf(st0, f, e4, ctx).val.ty]), ctx)
  {
    EvalArrayOfLeaves(prog, st0, f, [e1, e2, e3, e4], ctx, fuel);
    var ts := LeafTypes(st0, f, [e1, e2, e3, e4], ctx);
    assert ts == [ts[0], ts[1], ts[2], ts[3]];
  }

  const Rti16Foo: MethodDef :=
    MethodDef([], None, [ExprStmt(ArrayLiteral([IntLiteral(1), SymbolLiteral, StringLiteral, HashLiteral]))], 2)

  const Rti16: Program := map["RTI16" := ClassDef(None, map["foo" := Rti16Foo])]

  lemma Rti16Body(prog: Program, st0: Store, f: Frame, ctx: Ctx, fuel: nat)
    ensures Eval(prog, st0, f, Rti16Foo.body[0].e, ctx, fuel) == Plain(Tuple([FIXNUM, SYMBOL, STRING, HASH]), ctx)
  {
    ArrayOfFour(prog, st0, f, IntLiteral(1), SymbolLiteral, StringLiteral, HashLiteral, ctx, fuel);
    assert Leaf(st0, f, IntLiteral(1), ctx).val.ty == FIXNUM;
    assert Leaf(st0, f, SymbolLiteral, ctx).val.ty == SYMBOL;
    assert Leaf(st0, f, StringLiteral, ctx).val.ty == STRING;
    assert Leaf(st0, f, HashLiteral, ctx).val.ty == HASH;
  }

  /** An array literal is the tuple of its element types, in order. */
  lemma Rti16Returns(st0: Store, ws: seq<Write>, ds: seq<Diagnostic>, fuel: nat)
    requires fuel > 0
    ensures InferReturn(Rti16, st0, "RTI16", "foo", Rti16Foo, Instance("RTI16"), [], ws, ds, fuel) ==
      Inferred(Tuple([FIXNUM, SYMBOL, STRING, HASH]), ws, ds)
  {
    var f := Frame("RTI16", "foo", Instance("RTI16"), [], None);
    assert "foo" !in Contracts;
    assert BindParams(map[], [], None, []) == map[];
    InferExpressionBody(Rti16, st0, "RTI16", "foo", Rti16Foo, Instance("RTI16"), [], ws, ds, fuel);
    Rti16Body(Rti16, st0, f, Ctx(map[], ws, ds), fuel - 1);
    NoContract("foo", 2, Tuple([FIXNUM, SYMBOL, STRING, HASH]));
  }

  const Rti17Foo: MethodDef :=
    MethodDef(["x"], None, [ExprStmt(ArrayLiteral([LocalVar("x"), SymbolLiteral, StringLiteral, HashLiteral]))], 2)

  const Rti17: Program := map["RTI17" := ClassDef(None, map["foo" := Rti17Foo])]

  lemma Rti17Body(prog: Program, st0: Store, f: Frame, t: Type, ctx: Ctx, fuel: nat)
    requires Lookup(ctx.env, "x") == t
    ensures Eval(prog, st0, f, Rti17Foo.body[0].e, ctx, fuel) == Plain(Tuple([t, SYMBOL, STRING, HASH]), ctx)
  {
    ArrayOfFour(prog, st0, f, LocalVar("x"), SymbolLiteral, StringLiteral, HashLiteral, ctx, fuel);
    assert Leaf(st0, f, LocalVar("x"), ctx).val.ty == t;
    assert Leaf(st0, f, SymbolLiteral, ctx).val.ty == SYMBOL;
    assert Leaf(st0, f, StringLiteral, ctx).val.ty == STRING;
    assert Leaf(st0, f, HashLiteral, ctx).val.ty == HASH;
  }

  /** An element read from a variable takes the variable's type. */
  lemma Rti17Returns(st0: Store, t: Type, ws: seq<Write>, ds: seq<Diagnostic>, fuel: nat)
    requires fuel > 0
    ensures InferReturn(Rti17, st0, "RTI17", "foo", Rti17Foo, Instance("RTI17"), [t], ws, ds, fuel) ==
      Inferred(Tuple([t, SYMBOL, STRING, HASH]), ws, ds)
  {
    assert "foo" !in Contracts;
    OneParamExpressionBody(Rti17, st0, "RTI17", "foo", Rti17Foo, Instance("RTI17"), t, ws, ds, fuel);
    Rti17Body(Rti17, st0, Frame("RTI17", "foo", Instance("RTI17"), ["x"], None), t, Ctx(map["x" := t], ws, ds), fuel - 1);
  }

  // ---------------------------------------------------------------------------
  // RTI22 and RTI21: tuple addition and multiplication

  const Rti22Foo: MethodDef :=
    MethodDef(["x"], None, [ExprStmt(Call(ArrayLiteral([LocalVar("x"), SymbolLiteral]), "+",
                                          [ArrayLiteral([StringLiteral, LocalVar("x")])], 3))], 2)

  const Rti22: Program := map["RTI22" := ClassDef(None, map["foo" := Rti22Foo])]

  /** `[x, :foo]` and `['foobar', x]`, with x bound to t. */
  lemma Rti22Operands(prog: Program, st0: Store, f: Frame, t: Type, ctx: Ctx, fuel: nat)
    requires Lookup(ctx.env, "x") == t
    ensures Eval(prog, st0, f, ArrayLiteral([LocalVar("x"), SymbolLiteral]), ctx, fuel) == Plain(Tuple([t, SYMBOL]), ctx)
    ensures Eval(prog, st0, f, ArrayLiteral([StringLiteral, LocalVar("x")]), ctx, fuel) == Plain(Tuple([STRING, t]), ctx)
  {
    ArrayOfTwo(prog, st0, f, LocalVar("x"), SymbolLiteral, ctx, fuel);
    ArrayOfTwo(prog, st0, f, StringLiteral, LocalVar("x"), ctx, fuel);
  }

  /** Adding two array literals concatenates their element types. */
  lemma Rti22Sum(prog: Program, st0: Store, f: Frame, t: Type, ctx: Ctx, fuel: nat)
    requires Lookup(ctx.env, "x") == t
    ensures Eval(prog, st0, f, Rti22Foo.body[0].e, ctx, fuel) == Plain(Tuple([t, SYMBOL, STRING, t]), ctx)
  {
    var a := ArrayLiteral([LocalVar("x"), SymbolLiteral]);
    var b := ArrayLiteral([StringLiteral, LocalVar("x")]);
    Rti22Operands(prog, st0, f, t, ctx, fuel);
    NoClassReceiver(prog, Tuple([t, SYMBOL]), "+");
    EvalBuiltinCall1(prog, st0, f, a, "+", b, 3, ctx, fuel);
    TupleConcat([t, SYMBOL], [STRING, t], None);
    assert [t, SYMBOL] + [STRING, t] == [t, SYMBOL, STRING, t];
    var w := Val(Tuple([STRING, t]), None);
    assert TypesOf([w]) == [Tuple([STRING, t])] && KnownOf([w]) == [None];
  }

  /** `[x, :foo] + ['foobar', x]` is the tuple (t, Symbol, String, t). */
  lemma Rti22Returns(st0: Store, t: Type, ws: seq<Write>, ds: seq<Diagnostic>, fuel: nat)
    requires fuel > 0
    ensures InferReturn(Rti22, st0, "RTI22", "foo", Rti22Foo, Instance("RTI22"), [t], ws, ds, fuel) ==
      Inferred(Tuple([t, SYMBOL, STRING, t]), ws, ds)
  {
    assert "foo" !in Contracts;
    OneParamExpressionBody(Rti22, st0, "RTI22", "foo", Rti22Foo, Instance("RTI22"), t, ws, ds, fuel);
    Rti22Sum(Rti22, st0, Frame("RTI22", "foo", Instance("RTI22"), ["x"], None), t, Ctx(map["x" := t], ws, ds), fuel - 1);
  }

  const Rti21Foo: MethodDef :=
    MethodDef(["x"], None, [ExprStmt(Call(ArrayLiteral([LocalVar("x"), SymbolLiteral]), "*", [IntLiteral(3)], 3))], 2)

  const Rti21: Program := map["RTI21" := ClassDef(None, map["foo" := Rti21Foo])]

  /** Multiplying an array literal by a literal count repeats its element types. */
  lemma Rti21Product(prog: Program, st0: Store, f: Frame, t: Type, ctx: Ctx, fuel: nat)
    requires Lookup(ctx.env, "x") == t
    ensures Eval(prog, st0, f, Rti21Foo.body[0].e, ctx, fuel) == Plain(Tuple(Replicate([t, SYMBOL], 3)), ctx)
  {
    var a := ArrayLiteral([LocalVar("x"), SymbolLiteral]);
    Rti22Operands(prog, st0, f, t, ctx, fuel);
    NoClassReceiver(prog, Tuple([t, SYMBOL]), "*");
    EvalBuiltinCall1(prog, st0, f, a, "*", IntLiteral(3), 3, ctx, fuel);
    EvalLeaf(prog, st0, f, IntLiteral(3), ctx, fuel);
    TupleReplicate([t, SYMBOL], 3);
    var w := Val(FIXNUM, Some(KnownInt(3)));
    assert TypesOf([w]) == [FIXNUM] && KnownOf([w]) == [w.known];
  }

  /** `[x, :foo] * 3` is the tuple (t, Symbol) three times over. */
  lemma Rti21Returns(st0: Store, t: Type, ws: seq<Write>, ds: seq<Diagnostic>, fuel: nat)
    requires fuel > 0
    ensures InferReturn(Rti21, st0, "RTI21", "foo", Rti21Foo, Instance("RTI21"), [t], ws, ds, fuel) ==
      Inferred(Tuple([t, SYMBOL, t, SYMBOL, t, SYMBOL]), ws, ds)
  {
    assert "foo" !in Contracts;
    OneParamExpressionBody(Rti21, st0, "RTI21", "foo", Rti21Foo, Instance("RTI21"), t, ws, ds, fuel);
    Rti21Product(Rti21, st0, Frame("RTI21", "foo", Instance("RTI21"), ["x"], None), t, Ctx(map["x" := t], ws, ds), fuel - 1);
    assert Replicate([t, SYMBOL], 3) == [t, SYMBOL, t, SYMBOL, t, SYMBOL] by {
      assert Replicate([t, SYMBOL], 0) == [];
      assert Replicate([t, SYMBOL], 1) == [t, SYMBOL];
      assert Replicate([t, SYMBOL], 2) == [t, SYMBOL, t, SYMBOL];
    }
  }
}
