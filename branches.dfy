/** The programs whose methods branch: the analysis walks both arms of an if and
    merges the variables' versions where they join. */
module Branches {
  import opened Types
  import opened Overloads
  import opened Flow
  import opened Fields
  import opened Engine
  import opened Scenarios

  /** `gets.size > 2`, the condition of RTI3: a Boolean, with no report and no write. */
  const GetsSizeAbove2: Expr := Call(Call(Gets, "size", [], 3), ">", [IntLiteral(2)], 3)

  /** `gets.size` is an Integer. */
  lemma GetsSize(prog: Program, st0: Store, f: Frame, line: nat, ctx: Ctx, fuel: nat)
    ensures var r := Eval(prog, st0, f, Call(Gets, "size", [], line), ctx, fuel);
      r.val.ty == INTEGER && r.ctx == ctx
  {
    EvalLeaf(prog, st0, f, Gets, ctx, fuel);
    BuiltinReceiver(prog, Str, "size");
    EvalBuiltinCall0(prog, st0, f, Gets, "size", line, ctx, fuel);
    StringSize();
    BuiltinResolved0(Val(STRING, None), "size", line, ctx, INTEGER);
  }

  lemma GetsSizeAbove2Pure(prog: Program, st0: Store, f: Frame, ctx: Ctx, fuel: nat)
    ensures var r := Eval(prog, st0, f, GetsSizeAbove2, ctx, fuel);
      r.val.ty == BOOLEAN && r.ctx == ctx
  {
    GetsSize(prog, st0, f, 3, ctx, fuel);
    NoClassReceiver(prog, INTEGER, ">");
    EvalBuiltinCall1(prog, st0, f, Call(Gets, "size", [], 3), ">", IntLiteral(2), 3, ctx, fuel);
    EvalLeaf(prog, st0, f, IntLiteral(2), ctx, fuel);
    IntegerGreater(Some(KnownInt(2)));
    BuiltinResolved1(Val(INTEGER, None), ">", Val(FIXNUM, Some(KnownInt(2))), 3, ctx, BOOLEAN);
  }

  // ---------------------------------------------------------------------------
  // RTI3: `if gets.size > 2; x = 'hi'; else x = :hi; end; y = 15 * x`

  const Rti3Multiply: Stmt := ExprStmt(LocalAssign("y", Call(IntLiteral(15), "*", [LocalVar("x")], 8)))

  const Rti3Sim3: MethodDef := MethodDef([], None, [
    If(GetsSizeAbove2, [ExprStmt(LocalAssign("x", StringLiteral))], [ExprStmt(LocalAssign("x", SymbolLiteral))]),
    Rti3Multiply], 2)

  const Rti3: Program := map[Meta("RTI3") := ClassDef(None, map["sim3" := Rti3Sim3])]

  /** `15 * x` with x a String or a Symbol matches no signature of Fixnum#*. */
  lemma Rti3Unresolved(st0: Store, f: Frame, run: Run, fuel: nat)
    requires Lookup(run.ctx.env, "x") == Join(STRING, SYMBOL)
    ensures var r := ExecStmt(Rti3, st0, f, Rti3Multiply, run, fuel);
      r.live && r.last == EMPTY && r.returned == run.returned && r.ctx.writes == run.ctx.writes
      && r.ctx.diags == run.ctx.diags + [Unresolved("*", 8)]
  {
    ExecAssign(Rti3, st0, f, "y", Call(IntLiteral(15), "*", [LocalVar("x")], 8), run, fuel);
    EvalLeaf(Rti3, st0, f, IntLiteral(15), run.ctx, fuel);
    BuiltinReceiver(Rti3, Fixnum, "*");
    EvalBuiltinCall1(Rti3, st0, f, IntLiteral(15), "*", LocalVar("x"), 8, run.ctx, fuel);
    EvalLeaf(Rti3, st0, f, LocalVar("x"), run.ctx, fuel);
    FixnumTimesUnionUnresolved(None);
  }

  lemma Rti3Body(st0: Store, f: Frame, ctx: Ctx, fuel: nat)
    ensures var r := Exec(Rti3, st0, f, Rti3Sim3.body, Run(ctx, NILCLASS, EMPTY, true), fuel);
      r.live && r.last == EMPTY && r.returned == EMPTY && r.ctx.writes == ctx.writes
      && r.ctx.diags == ctx.diags + [Unresolved("*", 8)]
  {
    var run := Run(ctx, NILCLASS, EMPTY, true);
    ExecCons(Rti3, st0, f, Rti3Sim3.body, run, fuel);
    var mid := ExecStmt(Rti3, st0, f, Rti3Sim3.body[0], run, fuel);
    GetsSizeAbove2Pure(Rti3, st0, f, ctx, fuel);
    IfAssigns(Rti3, st0, f, GetsSizeAbove2, "x", StringLiteral, SymbolLiteral, run, fuel);
    assert Rti3Sim3.body[1..] == [Rti3Multiply];
    ExecOne(Rti3, st0, f, Rti3Multiply, mid, fuel);
    Rti3Unresolved(st0, f, mid, fuel);
  }

  /** `sim3` returns EMPTY, and the analysis reports one NoMatchingTypeSignature, on
      line 8, naming `*`. */
  lemma Rti3Reports(st0: Store, ws: seq<Write>, ds: seq<Diagnostic>, fuel: nat)
    requires fuel > 0
    ensures InferReturn(Rti3, st0, Meta("RTI3"), "sim3", Rti3Sim3, ModuleType("RTI3"), [], ws, ds, fuel)
      == Inferred(EMPTY, ws, ds + [Unresolved("*", 8)])
  {
    var f := Frame(Meta("RTI3"), "sim3", ModuleType("RTI3"), [], None);
    assert BindParams(map[], [], None, []) == map[];
    assert "sim3" !in Contracts;
    InferFallThrough(Rti3, st0, Meta("RTI3"), "sim3", Rti3Sim3, ModuleType("RTI3"), [], ws, ds, fuel);
    Rti3Body(st0, f, Ctx(map[], ws, ds), fuel - 1);
  }

  // ---------------------------------------------------------------------------
  // RTI6, RTI7 and RTI8: `if $$ > 10; a = 'hello'; else a = 20; end` and then a
  // use of a

  const PidAbove10: Expr := Call(ProcessId, ">", [IntLiteral(10)], 3)

  /** `$$ > 10` is a Boolean, with no report and no write. */
  lemma PidAbove10Pure(prog: Program, st0: Store, f: Frame, ctx: Ctx, fuel: nat)
    ensures var r := Eval(prog, st0, f, PidAbove10, ctx, fuel);
      r.val.ty == BOOLEAN && r.ctx == ctx
  {
    assert Eval(prog, st0, f, PidAbove10, ctx, fuel)
        == CallBuiltin(Val(FIXNUM, None), ">", [Val(FIXNUM, Some(KnownInt(10)))], 3, ctx) by {
      EvalLeaf(prog, st0, f, ProcessId, ctx, fuel);
      BuiltinReceiver(prog, Fixnum, ">");
      EvalBuiltinCall1(prog, st0, f, ProcessId, ">", IntLiteral(10), 3, ctx, fuel);
      EvalLeaf(prog, st0, f, IntLiteral(10), ctx, fuel);
    }
    FixnumGreater(Some(KnownInt(10)));
    BuiltinResolved1(Val(FIXNUM, None), ">", Val(FIXNUM, Some(KnownInt(10))), 3, ctx, BOOLEAN);
  }

  const StringOrTwenty: Stmt :=
    If(PidAbove10, [ExprStmt(LocalAssign("a", StringLiteral))], [ExprStmt(LocalAssign("a", IntLiteral(20)))])

  /** After the if, a is a String or a Fixnum. */
  lemma StringOrTwentyMerges(prog: Program, st0: Store, f: Frame, run: Run, fuel: nat)
    requires run.live
    ensures var r := ExecStmt(prog, st0, f, StringOrTwenty, run, fuel);
      r.live && r.returned == run.returned && r.ctx.writes == run.ctx.writes && r.ctx.diags == run.ctx.diags
      && Lookup(r.ctx.env, "a") == Join(STRING, FIXNUM)
  {
    PidAbove10Pure(prog, st0, f, run.ctx, fuel);
    IfAssigns(prog, st0, f, PidAbove10, "a", StringLiteral, IntLiteral(20), run, fuel);
  }

  /** `a * 3` with a a String or a Fixnum: a String, a Fixnum or a Bignum. */
  lemma StringOrFixnumTimes3(prog: Program, st0: Store, f: Frame, line: nat, ctx: Ctx, fuel: nat)
    requires Lookup(ctx.env, "a") == Join(STRING, FIXNUM)
    ensures var r := Eval(prog, st0, f, Call(LocalVar("a"), "*", [IntLiteral(3)], line), ctx, fuel);
      r.val.ty == Join(STRING, INTEGER) && r.ctx == ctx
  {
    var recv := Val(Join(STRING, FIXNUM), None);
    var three := Val(FIXNUM, Some(KnownInt(3)));
    assert Eval(prog, st0, f, Call(LocalVar("a"), "*", [IntLiteral(3)], line), ctx, fuel)
        == CallBuiltin(recv, "*", [three], line, ctx) by {
      EvalLeaf(prog, st0, f, LocalVar("a"), ctx, fuel);
      NoClassReceiver(prog, Join(STRING, FIXNUM), "*");
      EvalBuiltinCall1(prog, st0, f, LocalVar("a"), "*", IntLiteral(3), line, ctx, fuel);
      EvalLeaf(prog, st0, f, IntLiteral(3), ctx, fuel);
    }
    UnionTimesFixnum(Some(KnownInt(3)));
    BuiltinResolved1(recv, "*", three, line, ctx, Join(STRING, INTEGER));
  }

  /** The body of RTI6's `multiply`: the if, then `a * 3` on line 8. */
  const Rti6Multiply: MethodDef :=
    MethodDef([], None, [StringOrTwenty, ExprStmt(Call(LocalVar("a"), "*", [IntLiteral(3)], 8))], 2)

  const Rti6: Program := map[Meta("RTI6") := ClassDef(None, map["multiply" := Rti6Multiply])]

  lemma Rti6Body(st0: Store, f: Frame, ctx: Ctx, fuel: nat)
    ensures var r := Exec(Rti6, st0, f, Rti6Multiply.body, Run(ctx, NILCLASS, EMPTY, true), fuel);
      r.live && r.last == Join(STRING, INTEGER) && r.returned == EMPTY
      && r.ctx.writes == ctx.writes && r.ctx.diags == ctx.diags
  {
    var run := Run(ctx, NILCLASS, EMPTY, true);
    ExecCons(Rti6, st0, f, Rti6Multiply.body, run, fuel);
    var mid := ExecStmt(Rti6, st0, f, StringOrTwenty, run, fuel);
    StringOrTwentyMerges(Rti6, st0, f, run, fuel);
    var use := Call(LocalVar("a"), "*", [IntLiteral(3)], 8);
    assert Rti6Multiply.body[1..] == [ExprStmt(use)];
    ExecOne(Rti6, st0, f, ExprStmt(use), mid, fuel);
    ExecExprStmt(Rti6, st0, f, use, mid, fuel);
    StringOrFixnumTimes3(Rti6, st0, f, 8, mid.ctx, fuel);
  }

  /** A variable that is a String on one branch and a Fixnum on the other is used
      at their union: `multiply` is a String, a Fixnum or a Bignum. */
  lemma Rti6Returns(st0: Store, ws: seq<Write>, ds: seq<Diagnostic>, fuel: nat)
    requires fuel > 0
    ensures InferReturn(Rti6, st0, Meta("RTI6"), "multiply", Rti6Multiply, ModuleType("RTI6"), [], ws, ds, fuel)
      == Inferred(Join(STRING, INTEGER), ws, ds)
  {
    var f := Frame(Meta("RTI6"), "multiply", ModuleType("RTI6"), [], None);
    assert BindParams(map[], [], None, []) == map[];
    assert "multiply" !in Contracts;
    InferFallThrough(Rti6, st0, Meta("RTI6"), "multiply", Rti6Multiply, ModuleType("RTI6"), [], ws, ds, fuel);
    Rti6Body(st0, f, Ctx(map[], ws, ds), fuel - 1);
  }

  /** RTI7's `multiply`: the same if, then `b = a * 3` (line 8), `a = 3.14` and
      `a * 20` (line 10). */
  const Rti7Tail: seq<Stmt> := [
    ExprStmt(LocalAssign("a", FloatLiteral)),
    ExprStmt(Call(LocalVar("a"), "*", [IntLiteral(20)], 10))]

  const Rti7Multiply: MethodDef := MethodDef([], None, [
    StringOrTwenty,
    ExprStmt(LocalAssign("b", Call(LocalVar("a"), "*", [IntLiteral(3)], 8)))] + Rti7Tail, 2)

  const Rti7: Program := map[Meta("RTI7") := ClassDef(None, map["multiply" := Rti7Multiply])]

  /** Once a is reassigned a Float, `a * 20` is a Float whatever a was before; the
      reassignment starts a new version of a and leaves b, an earlier use, alone. */
  lemma Rti7Reassigned(st0: Store, f: Frame, run: Run, fuel: nat)
    requires run.live
    ensures var r := Exec(Rti7, st0, f, Rti7Tail, run, fuel);
      r.live && r.last == FLOAT && r.returned == run.returned
      && r.ctx.writes == run.ctx.writes && r.ctx.diags == run.ctx.diags
      && Lookup(r.ctx.env, "a") == FLOAT && Lookup(r.ctx.env, "b") == Lookup(run.ctx.env, "b")
  {
    var use := Call(LocalVar("a"), "*", [IntLiteral(20)], 10);
    ExecCons(Rti7, st0, f, Rti7Tail, run, fuel);
    ExecAssign(Rti7, st0, f, "a", FloatLiteral, run, fuel);
    EvalLeaf(Rti7, st0, f, FloatLiteral, run.ctx, fuel);
    var mid := ExecStmt(Rti7, st0, f, Rti7Tail[0], run, fuel);
    assert Rti7Tail[1..] == [ExprStmt(use)];
    ExecOne(Rti7, st0, f, ExprStmt(use), mid, fuel);
    ExecExprStmt(Rti7, st0, f, use, mid, fuel);
    assert Lookup(mid.ctx.env, "a") == FLOAT;
    FloatTimes20(Rti7, st0, f, mid.ctx, fuel);
  }

  /** `a * 20` (line 10) with a a Float is a Float and changes nothing. */
  lemma FloatTimes20(prog: Program, st0: Store, f: Frame, ctx: Ctx, fuel: nat)
    requires Lookup(ctx.env, "a") == FLOAT
    ensures var r := Eval(prog, st0, f, Call(LocalVar("a"), "*", [IntLiteral(20)], 10), ctx, fuel);
      r.val.ty == FLOAT && r.ctx == ctx
  {
    var twenty := Val(FIXNUM, Some(KnownInt(20)));
    assert Eval(prog, st0, f, Call(LocalVar("a"), "*", [IntLiteral(20)], 10), ctx, fuel)
        == CallBuiltin(Val(FLOAT, None), "*", [twenty], 10, ctx) by {
      EvalLeaf(prog, st0, f, LocalVar("a"), ctx, fuel);
      BuiltinReceiver(prog, Float, "*");
      EvalBuiltinCall1(prog, st0, f, LocalVar("a"), "*", IntLiteral(20), 10, ctx, fuel);
      EvalLeaf(prog, st0, f, IntLiteral(20), ctx, fuel);
    }
    FloatTimesFixnum(Some(KnownInt(20)));
    BuiltinResolved1(Val(FLOAT, None), "*", twenty, 10, ctx, FLOAT);
  }

  /** The first two statements of RTI7's `multiply`: after the merge, `b = a * 3`
      (line 8) is a String, Fixnum or Bignum. */
  lemma Rti7Head(st0: Store, f: Frame, ctx: Ctx, fuel: nat)
    ensures var r := Exec(Rti7, st0, f, Rti7Multiply.body[..2], Run(ctx, NILCLASS, EMPTY, true), fuel);
      r.live && r.returned == EMPTY && r.ctx.writes == ctx.writes && r.ctx.diags == ctx.diags
      && Lookup(r.ctx.env, "a") == Join(STRING, FIXNUM) && Lookup(r.ctx.env, "b") == Join(STRING, INTEGER)
  {
    var run := Run(ctx, NILCLASS, EMPTY, true);
    var b := LocalAssign("b", Call(LocalVar("a"), "*", [IntLiteral(3)], 8));
    ExecCons(Rti7, st0, f, Rti7Multiply.body[..2], run, fuel);
    var mid := ExecStmt(Rti7, st0, f, StringOrTwenty, run, fuel);
    StringOrTwentyMerges(Rti7, st0, f, run, fuel);
    assert Rti7Multiply.body[..2][1..] == [ExprStmt(b)];
    ExecOne(Rti7, st0, f, ExprStmt(b), mid, fuel);
    ExecAssign(Rti7, st0, f, "b", b.rhs, mid, fuel);
    StringOrFixnumTimes3(Rti7, st0, f, 8, mid.ctx, fuel);
  }

  /** The whole body: the result is a Float, a is now a Float, and b, computed from
      the merged version of a, is still a String, Fixnum or Bignum. */
  lemma Rti7Body(st0: Store, f: Frame, ctx: Ctx, fuel: nat)
    ensures var r := Exec(Rti7, st0, f, Rti7Multiply.body, Run(ctx, NILCLASS, EMPTY, true), fuel);
      r.live && r.last == FLOAT && r.returned == EMPTY && r.ctx.writes == ctx.writes && r.ctx.diags == ctx.diags
      && Lookup(r.ctx.env, "a") == FLOAT && Lookup(r.ctx.env, "b") == Join(STRING, INTEGER)
  {
    var run := Run(ctx, NILCLASS, EMPTY, true);
    assert Rti7Multiply.body == Rti7Multiply.body[..2] + Rti7Tail;
    ExecAppend(Rti7, st0, f, Rti7Multiply.body[..2], Rti7Tail, run, fuel);
    Rti7Head(st0, f, ctx, fuel);
    Rti7Reassigned(st0, f, Exec(Rti7, st0, f, Rti7Multiply.body[..2], run, fuel), fuel);
  }

  /** A reassignment starts a new version: after `a = 3.14`, `a * 20` is a Float,
      although a was a String or a Fixnum before. */
  lemma Rti7Returns(st0: Store, ws: seq<Write>, ds: seq<Diagnostic>, fuel: nat)
    requires fuel > 0
    ensures InferReturn(Rti7, st0, Meta("RTI7"), "multiply", Rti7Multiply, ModuleType("RTI7"), [], ws, ds, fuel)
      == Inferred(FLOAT, ws, ds)
  {
    var f := Frame(Meta("RTI7"), "multiply", ModuleType("RTI7"), [], None);
    assert BindParams(map[], [], None, []) == map[];
    assert "multiply" !in Contracts;
    InferFallThrough(Rti7, st0, Meta("RTI7"), "multiply", Rti7Multiply, ModuleType("RTI7"), [], ws, ds, fuel);
    Rti7Body(st0, f, Ctx(map[], ws, ds), fuel - 1);
  }

  /** RTI8's `switch`: `if $$ > 10; a = 'hello'; end; b = a` (line 6). */
  const Rti8Switch: MethodDef := MethodDef([], None, [
    If(PidAbove10, [ExprStmt(LocalAssign("a", StringLiteral))], []),
    ExprStmt(LocalAssign("b", LocalVar("a")))], 2)

  const Rti8: Program := map[Meta("RTI8") := ClassDef(None, map["switch" := Rti8Switch])]

  lemma Rti8Body(st0: Store, f: Frame, ctx: Ctx, fuel: nat)
    requires "a" !in ctx.env
    ensures var r := Exec(Rti8, st0, f, Rti8Switch.body, Run(ctx, NILCLASS, EMPTY, true), fuel);
      r.live && r.last == Join(STRING, NILCLASS) && r.returned == EMPTY
      && r.ctx.writes == ctx.writes && r.ctx.diags == ctx.diags
  {
    var run := Run(ctx, NILCLASS, EMPTY, true);
    ExecCons(Rti8, st0, f, Rti8Switch.body, run, fuel);
    var mid := ExecStmt(Rti8, st0, f, Rti8Switch.body[0], run, fuel);
    PidAbove10Pure(Rti8, st0, f, ctx, fuel);
    IfAssignsOne(Rti8, st0, f, PidAbove10, "a", StringLiteral, run, fuel);
    assert Rti8Switch.body[1..] == [ExprStmt(LocalAssign("b", LocalVar("a")))];
    ExecAssignLeaf(Rti8, st0, f, "b", LocalVar("a"), mid, fuel);
  }

  /** A variable assigned on only one branch is nil on the other: `switch` is a
      String or nil. */
  lemma Rti8Returns(st0: Store, ws: seq<Write>, ds: seq<Diagnostic>, fuel: nat)
    requires fuel > 0
    ensures InferReturn(Rti8, st0, Meta("RTI8"), "switch", Rti8Switch, ModuleType("RTI8"), [], ws, ds, fuel)
      == Inferred(Join(STRING, NILCLASS), ws, ds)
  {
    var f := Frame(Meta("RTI8"), "switch", ModuleType("RTI8"), [], None);
    assert BindParams(map[], [], None, []) == map[];
    assert "switch" !in Contracts;
    InferFallThrough(Rti8, st0, Meta("RTI8"), "switch", Rti8Switch, ModuleType("RTI8"), [], ws, ds, fuel);
    Rti8Body(st0, f, Ctx(map[], ws, ds), fuel - 1);
  }
}
