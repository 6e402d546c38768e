/** The inference engine: what a method can return, given its receiver type and
    the types of its arguments.

    Method bodies are given as a small syntax tree (expressions, assignments,
    if/else, destructuring, return). The engine walks a body once, in order, keeping
    an environment of the current SSA version of every local, the writes it has
    made to fields, and the diagnostics it has reported. Calls to methods of the
    analysed program are inferred recursively; calls into built-in classes are
    resolved against the overload table; `super` is resolved statically from the
    class that declares the running method. */
module Engine {
  import opened Types
  import opened Tuples
  import opened Overloads
  import opened Flow
  import opened Fields

  // ---------------------------------------------------------------------------
  // Diagnostics

  datatype Kind = NoMatchingTypeSignature | ImproperOverloadTypeError

  datatype Diagnostic = Diagnostic(kind: Kind, line: nat, message: string)

  /** `token` occurs in `message` at position i. */
  predicate OccursAt(message: string, token: string, i: nat) {
    i + |token| <= |message| && message[i..i + |token|] == token
  }

  /** `token` occurs in `message`. */
  predicate Mentions(message: string, token: string) {
    exists i: nat :: i <= |message| && OccursAt(message, token, i)
  }

  function Unresolved(name: string, line: nat): (d: Diagnostic)
    ensures d.kind == NoMatchingTypeSignature && d.line == line && Mentions(d.message, name)
  {
    var prefix := "no signature of ";
    var message := prefix + name + " matches the operand types";
    assert OccursAt(message, name, |prefix|) by {
      assert message[|prefix|..|prefix| + |name|] == name;
    }
    Diagnostic(NoMatchingTypeSignature, line, message)
  }

  /** Conversion methods whose result must stay within a fixed type. */
  const Contracts: map<string, Type> := map["to_s" := STRING]

  /** The contract check run after a method's return type is inferred: a
      conversion method whose inferred type leaves its contract type is reported,
      naming the method. */
  function ContractCheck(name: string, line: nat, t: Type): (ds: seq<Diagnostic>)
    ensures |ds| <= 1
    ensures ds != [] <==> name in Contracts && !Within(t, Contracts[name])
    ensures ds != [] ==>
      ds[0].kind == ImproperOverloadTypeError && ds[0].line == line && Mentions(ds[0].message, name)
  {
    if name in Contracts && !Within(t, Contracts[name]) then
      var message := name + " may return a type outside its contract";
      assert OccursAt(message, name, 0) by {
        assert message[0..|name|] == name;
      }
      [Diagnostic(ImproperOverloadTypeError, line, message)]
    else []
  }

  /** Methods without a contract are never reported. */
  lemma NoContract(name: string, line: nat, t: Type)
    requires name !in Contracts
    ensures ContractCheck(name, line, t) == []
  {
  }

  // ---------------------------------------------------------------------------
  // Programs

  datatype Expr =
    | IntLiteral(value: int)
    | FloatLiteral
    | StringLiteral
    | SymbolLiteral
    | HashLiteral
    | NilLiteral
    | TrueLiteral
    | FalseLiteral
    | Interpolation(parts: seq<Expr>)          // "... #{e} ..."
    | ArrayLiteral(elems: seq<Expr>)
    | RangeLiteral(lo: Expr, hi: Expr)         // lo..hi
    | LocalVar(name: string)
    | LocalAssign(name: string, rhs: Expr)
    | SelfRef
    | Gets                                     // Kernel#gets: a line of input
    | ProcessId                                // $$
    | GlobalVar(global: string)
    | GlobalAssign(global: string, rhs: Expr)
    | IvarRef(field: string)
    | IvarAssign(field: string, rhs: Expr)
    | Call(recv: Expr, meth: string, args: seq<Expr>, line: nat)
    | New(cls: string, args: seq<Expr>)        // Cls.new(args)
    | Super(args: seq<Expr>, line: nat)        // super(args)
    | ZSuper(line: nat)                        // bare super

  datatype Stmt =
    | ExprStmt(e: Expr)
    | If(cond: Expr, thn: seq<Stmt>, els: seq<Stmt>)
    | MultiAssign(targets: seq<string>, rhs: Expr)   // a, b, c = rhs
    | Return(e: Expr)

  datatype MethodDef = MethodDef(params: seq<string>, rest: Option<string>, body: seq<Stmt>, line: nat)

  datatype ClassDef = ClassDef(superclass: Option<string>, methods: map<string, MethodDef>)

  /** The classes of the analysed program by name. A module's singleton methods
      belong to its singleton class. */
  type Program = map<string, ClassDef>

  /** Method lookup from `cls` up its superclass chain: the nearest class that
      defines `name`, with that definition. `hops` bounds the walk. */
  function FindMethod(prog: Program, cls: string, name: string, hops: nat): (r: Option<(string, MethodDef)>)
    decreases hops
  {
    if hops == 0 || cls !in prog then None
    else if name in prog[cls].methods then Some((cls, prog[cls].methods[name]))
    else match prog[cls].superclass
      case None => None
      case Some(parent) => FindMethod(prog, parent, name, hops - 1)
  }

  function LookupMethod(prog: Program, cls: string, name: string): Option<(string, MethodDef)> {
    FindMethod(prog, cls, name, |prog|)
  }

  /** The target of `super` inside method `name` of class `owner`: looked up from
      owner's superclass, whatever the class of the receiver. */
  function SuperTarget(prog: Program, owner: string, name: string): Option<(string, MethodDef)> {
    if owner in prog && prog[owner].superclass.Some? then
      LookupMethod(prog, prog[owner].superclass.value, name)
    else None
  }

  /** A call dispatches to a method of the program when its receiver is an
      instance of exactly one class of the program that defines or inherits it. */
  function UserTarget(prog: Program, recv: Type, name: string): Option<(string, MethodDef)> {
    if |recv| == 1 then
      match TheAtom(recv)
      case ClassType(cls, _) => LookupMethod(prog, cls, name)
      case _ => None
    else None
  }

  // ---------------------------------------------------------------------------
  // Analysis state

  /** The running method: the class that declares it (owner of its instance
      variables, start of its super lookup), its name, its receiver type and its
      parameters. */
  datatype Frame = Frame(owner: string, name: string, self: Type, params: seq<string>, rest: Option<string>)

  /** Local versions, the field writes made so far (in order), and the diagnostics. */
  datatype Ctx = Ctx(env: Env, writes: seq<Write>, diags: seq<Diagnostic>)

  /** An expression's type, with its value when that is a known literal. */
  datatype Val = Val(ty: Type, known: Option<Known>)

  datatype Evaluated = Evaluated(val: Val, ctx: Ctx)

  datatype EvaluatedList = EvaluatedList(vals: seq<Val>, ctx: Ctx)

  /** The state after some statements: the value of the last one, the join of the
      explicit returns met so far, and whether control can still reach the end. */
  datatype Run = Run(ctx: Ctx, last: Type, returned: Type, live: bool)

  datatype Inferred = Inferred(ty: Type, writes: seq<Write>, diags: seq<Diagnostic>)

  /** The analysis only ever adds to the field writes and the diagnostics: nothing
      written or reported is taken back. */
  predicate Extends(before: Ctx, after: Ctx) {
    before.writes <= after.writes && before.diags <= after.diags
  }

  function TypesOf(vs: seq<Val>): (ts: seq<Type>)
    ensures |ts| == |vs| && forall i :: 0 <= i < |vs| ==> ts[i] == vs[i].ty
  {
    if vs == [] then [] else [vs[0].ty] + TypesOf(vs[1..])
  }

  predicate Distinct(xs: seq<string>) {
    forall j, k :: 0 <= j < k < |xs| ==> xs[j] != xs[k]
  }

  /** Positional parameter binding: missing arguments bind to NilClass, and a rest
      parameter binds to the tuple of the surplus arguments. */
  function BindParams(env: Env, params: seq<string>, rest: Option<string>, args: seq<Type>): Env
    decreases params
  {
    if params == [] then
      match rest
      case None => env
      case Some(r) => Bind(env, r, Tuple(args))
    else
      var arg := if args == [] then NILCLASS else args[0];
      BindParams(Bind(env, params[0], arg), params[1..], rest, if args == [] then [] else args[1..])
  }

  /** `a, b, c = t`: each target is bound to its position of t. */
  function BindTargets(env: Env, targets: seq<string>, t: Type, from: nat): Env
    decreases |targets|
  {
    if targets == [] then env
    else BindTargets(Bind(env, targets[0], Destructure(t, from)), targets[1..], t, from + 1)
  }

  /** The argument types a bare `super` forwards: the current versions of the
      running method's parameters, then the elements of its rest parameter. */
  function Forwarded(f: Frame, env: Env): (args: seq<Type>)
    ensures |f.params| <= |args| && (f.rest.None? ==> |args| == |f.params|)
    ensures forall i :: 0 <= i < |f.params| ==> args[i] == Lookup(env, f.params[i])
  {
    var named := seq(|f.params|, i requires 0 <= i < |f.params| => Lookup(env, f.params[i]));
    match f.rest
    case None => named
    case Some(r) =>
      var t := Lookup(env, r);
      if |t| == 1 && TheAtom(t).TupleType? then named + TheAtom(t).elems else named
  }

  // ---------------------------------------------------------------------------
  // Sizes, for termination

  function ExprSize(e: Expr): (n: nat)
    ensures n >= 1
  {
    match e
    case Interpolation(parts) => 1 + ExprsSize(parts)
    case ArrayLiteral(elems) => 1 + ExprsSize(elems)
    case RangeLiteral(lo, hi) => 1 + ExprSize(lo) + ExprSize(hi)
    case LocalAssign(_, rhs) => 1 + ExprSize(rhs)
    case GlobalAssign(_, rhs) => 1 + ExprSize(rhs)
    case IvarAssign(_, rhs) => 1 + ExprSize(rhs)
    case Call(recv, _, args, _) => 1 + ExprSize(recv) + ExprsSize(args)
    case New(_, args) => 1 + ExprsSize(args)
    case Super(args, _) => 1 + ExprsSize(args)
    case _ => 1
  }

  function ExprsSize(es: seq<Expr>): (n: nat)
    ensures n >= 1
  {
    if es == [] then 1 else ExprSize(es[0]) + ExprsSize(es[1..])
  }

  function StmtSize(s: Stmt): nat {
    match s
    case ExprStmt(e) => 1 + ExprSize(e)
    case If(cond, thn, els) => 1 + ExprSize(cond) + StmtsSize(thn) + StmtsSize(els)
    case MultiAssign(_, rhs) => 1 + ExprSize(rhs)
    case Return(e) => 1 + ExprSize(e)
  }

  function StmtsSize(ss: seq<Stmt>): (n: nat)
    ensures n >= 1
  {
    if ss == [] then 1 else StmtSize(ss[0]) + StmtsSize(ss[1..])
  }

  // ---------------------------------------------------------------------------
  // Inference

  /** Infers the return type of method `def` (found in class `owner` under `name`)
      for the given receiver and argument types. The fields read during the run see
      `st0` together with the writes made so far. The return type joins every
      explicit return and the value of the last statement when control reaches the
      end. `fuel` bounds the depth of nested calls: a call past the bound
      contributes the bottom type. */
  function InferReturn(prog: Program, st0: Store, owner: string, name: string, def: MethodDef,
                       self: Type, args: seq<Type>, writes: seq<Write>, diags: seq<Diagnostic>, fuel: nat): (r: Inferred)
    ensures writes <= r.writes && diags <= r.diags
    decreases fuel, 0, 0
  {
    if fuel == 0 then Inferred(EMPTY, writes, diags)
    else
      var env := BindParams(map[], def.params, def.rest, args);
      var f := Frame(owner, name, self, def.params, def.rest);
      var run := Exec(prog, st0, f, def.body, Run(Ctx(env, writes, diags), NILCLASS, EMPTY, true), fuel - 1);
      var t := Join(run.returned, if run.live then run.last else EMPTY);
      Inferred(t, run.ctx.writes, run.ctx.diags + ContractCheck(name, def.line, t))
  }

  function Exec(prog: Program, st0: Store, f: Frame, ss: seq<Stmt>, run: Run, fuel: nat): (r: Run)
    ensures Extends(run.ctx, r.ctx) && run.returned <= r.returned
    decreases fuel, StmtsSize(ss), 0
  {
    if ss == [] || !run.live then run
    else Exec(prog, st0, f, ss[1..], ExecStmt(prog, st0, f, ss[0], run, fuel), fuel)
  }

  function ExecStmt(prog: Program, st0: Store, f: Frame, s: Stmt, run: Run, fuel: nat): (r: Run)
    ensures Extends(run.ctx, r.ctx) && run.returned <= r.returned
    decreases fuel, StmtSize(s), 0
  {
    match s
    case ExprStmt(e) =>
      var r := Eval(prog, st0, f, e, run.ctx, fuel);
      Run(r.ctx, r.val.ty, run.returned, true)
    case Return(e) =>
      var r := Eval(prog, st0, f, e, run.ctx, fuel);
      Run(r.ctx, EMPTY, Join(run.returned, r.val.ty), false)
    case MultiAssign(targets, rhs) =>
      var r := Eval(prog, st0, f, rhs, run.ctx, fuel);
      Run(r.ctx.(env := BindTargets(r.ctx.env, targets, r.val.ty, 0)), r.val.ty, run.returned, true)
    case If(cond, thn, els) =>
      // The condition is analysed for its effects; both branches are walked, the
      // else branch after the then branch, each from the environment before the if.
      var c := Eval(prog, st0, f, cond, run.ctx, fuel);
      var t := Exec(prog, st0, f, thn, Run(c.ctx, NILCLASS, run.returned, true), fuel);
      var e := Exec(prog, st0, f, els, Run(t.ctx.(env := c.ctx.env), NILCLASS, t.returned, true), fuel);
      JoinBranches(t, e)
  }

  /** The join point after an if/else: live branches merge their environments and
      values; a branch that returned contributes only through `returned`. */
  function JoinBranches(t: Run, e: Run): (r: Run)
    ensures r.live <==> t.live || e.live
    ensures r.returned == e.returned && r.ctx.writes == e.ctx.writes && r.ctx.diags == e.ctx.diags
    ensures t.live && e.live ==>
      r.last == Join(t.last, e.last)
      && forall x :: Lookup(r.ctx.env, x) == Join(Lookup(t.ctx.env, x), Lookup(e.ctx.env, x))
    ensures t.live && !e.live ==> r.ctx.env == t.ctx.env && r.last == t.last
    ensures !t.live && e.live ==> r.ctx.env == e.ctx.env && r.last == e.last
  {
    var env := if t.live && e.live then Merge(t.ctx.env, e.ctx.env)
               else if t.live then t.ctx.env else e.ctx.env;
    var last := if t.live && e.live then Join(t.last, e.last)
                else if t.live then t.last else if e.live then e.last else EMPTY;
    Run(e.ctx.(env := env), last, e.returned, t.live || e.live)
  }

  function Plain(t: Type, ctx: Ctx): Evaluated {
    Evaluated(Val(t, None), ctx)
  }

  function Eval(prog: Program, st0: Store, f: Frame, e: Expr, ctx: Ctx, fuel: nat): (r: Evaluated)
    ensures Extends(ctx, r.ctx)
    decreases fuel, ExprSize(e), 2
  {
    match e
    case Interpolation(parts) => EvalInterpolation(prog, st0, f, parts, ctx, fuel)
    case ArrayLiteral(elems) => EvalArray(prog, st0, f, elems, ctx, fuel)
    case RangeLiteral(lo, hi) => EvalRange(prog, st0, f, lo, hi, ctx, fuel)
    case LocalAssign(_, _) => EvalAssign(prog, st0, f, e, ctx, fuel)
    case GlobalAssign(_, _) => EvalAssign(prog, st0, f, e, ctx, fuel)
    case IvarAssign(_, _) => EvalAssign(prog, st0, f, e, ctx, fuel)
    case Call(recv, name, args, line) => EvalCall(prog, st0, f, recv, name, args, line, ctx, fuel)
    case New(cls, args) => EvalNew(prog, st0, f, cls, args, ctx, fuel)
    case Super(args, line) => EvalSuper(prog, st0, f, args, line, ctx, fuel)
    case ZSuper(line) => CallSuper(prog, st0, f, Forwarded(f, ctx.env), line, ctx, fuel)
    case _ => Leaf(st0, f, e, ctx)
  }

  /** Expressions without subexpressions: literals, reads, and the opaque input
      sources (`gets` reads a String, `$$` is a Fixnum). */
  function Leaf(st0: Store, f: Frame, e: Expr, ctx: Ctx): (r: Evaluated)
    ensures r.ctx == ctx
  {
    match e
    case IntLiteral(n) => Evaluated(Val(FIXNUM, Some(KnownInt(n))), ctx)
    case FloatLiteral => Plain(FLOAT, ctx)
    case StringLiteral => Plain(STRING, ctx)
    case SymbolLiteral => Plain(SYMBOL, ctx)
    case HashLiteral => Plain(HASH, ctx)
    case NilLiteral => Plain(NILCLASS, ctx)
    case TrueLiteral => Plain(TRUECLASS, ctx)
    case FalseLiteral => Plain(FALSECLASS, ctx)
    case LocalVar(x) => Plain(Lookup(ctx.env, x), ctx)
    case SelfRef => Plain(f.self, ctx)
    case Gets => Plain(STRING, ctx)
    case ProcessId => Plain(FIXNUM, ctx)
    case GlobalVar(g) => Plain(ReadGlobal(ApplyWrites(st0, ctx.writes), g), ctx)
    case IvarRef(field) => Plain(ReadIvar(ApplyWrites(st0, ctx.writes), f.owner, field), ctx)
    case _ => Plain(EMPTY, ctx)
  }

  /** A string with interpolated parts is a String; the parts are analysed for
      their effects. */
  function EvalInterpolation(prog: Program, st0: Store, f: Frame, parts: seq<Expr>, ctx: Ctx, fuel: nat): (r: Evaluated)
    ensures Extends(ctx, r.ctx)
    decreases fuel, 1 + ExprsSize(parts), 1
  {
    var a := EvalList(prog, st0, f, parts, ctx, fuel);
    Plain(STRING, a.ctx)
  }

  /** An array literal is the tuple of its element types, in order. */
  function EvalArray(prog: Program, st0: Store, f: Frame, elems: seq<Expr>, ctx: Ctx, fuel: nat): (r: Evaluated)
    ensures Extends(ctx, r.ctx)
    decreases fuel, 1 + ExprsSize(elems), 1
  {
    var a := EvalList(prog, st0, f, elems, ctx, fuel);
    Plain(Tuple(TypesOf(a.vals)), a.ctx)
  }

  /** A range literal is a Range; with literal bounds the bounds are kept. */
  function EvalRange(prog: Program, st0: Store, f: Frame, lo: Expr, hi: Expr, ctx: Ctx, fuel: nat): (r: Evaluated)
    ensures Extends(ctx, r.ctx)
    decreases fuel, 1 + ExprSize(lo) + ExprSize(hi), 1
  {
    var l := Eval(prog, st0, f, lo, ctx, fuel);
    var h := Eval(prog, st0, f, hi, l.ctx, fuel);
    var known := match (l.val.known, h.val.known)
      case (Some(KnownInt(a)), Some(KnownInt(b))) => Some(KnownRange(a, b))
      case _ => None;
    Evaluated(Val(RANGE, known), h.ctx)
  }

  /** An assignment's value is the value assigned. A local gets a new version; a
      global or instance variable write is logged for the field store. */
  function EvalAssign(prog: Program, st0: Store, f: Frame, e: Expr, ctx: Ctx, fuel: nat): (r: Evaluated)
    requires e.LocalAssign? || e.GlobalAssign? || e.IvarAssign?
    ensures Extends(ctx, r.ctx)
    decreases fuel, ExprSize(e), 1
  {
    var v := Eval(prog, st0, f, e.rhs, ctx, fuel);
    var after := match e
      case LocalAssign(x, _) => v.ctx.(env := Bind(v.ctx.env, x, v.val.ty))
      case GlobalAssign(g, _) => v.ctx.(writes := v.ctx.writes + [GlobalWrite(g, v.val.ty)])
      case IvarAssign(field, _) => v.ctx.(writes := v.ctx.writes + [IvarWrite(f.owner, field, v.val.ty)]);
    Evaluated(v.val, after)
  }

  /** `recv.name(args)`: the receiver, then the arguments, left to right. */
  function EvalCall(prog: Program, st0: Store, f: Frame, recv: Expr, name: string, args: seq<Expr>, line: nat, ctx: Ctx, fuel: nat): (r: Evaluated)
    ensures Extends(ctx, r.ctx)
    decreases fuel, 1 + ExprSize(recv) + ExprsSize(args), 1
  {
    var v := Eval(prog, st0, f, recv, ctx, fuel);
    var a := EvalList(prog, st0, f, args, v.ctx, fuel);
    CallMethod(prog, st0, v.val, name, a.vals, line, a.ctx, fuel)
  }

  /** `Cls.new(args)` is an instance of exactly Cls. */
  function EvalNew(prog: Program, st0: Store, f: Frame, cls: string, args: seq<Expr>, ctx: Ctx, fuel: nat): (r: Evaluated)
    ensures Extends(ctx, r.ctx)
    ensures r.val == Val(Instance(cls), None)
    decreases fuel, 1 + ExprsSize(args), 1
  {
    var a := EvalList(prog, st0, f, args, ctx, fuel);
    Plain(Instance(cls), a.ctx)
  }

  /** `super(args)` passes exactly the given arguments. */
  function EvalSuper(prog: Program, st0: Store, f: Frame, args: seq<Expr>, line: nat, ctx: Ctx, fuel: nat): (r: Evaluated)
    ensures Extends(ctx, r.ctx)
    decreases fuel, 1 + ExprsSize(args), 1
  {
    var a := EvalList(prog, st0, f, args, ctx, fuel);
    CallSuper(prog, st0, f, TypesOf(a.vals), line, a.ctx, fuel)
  }

  /** A call: to a method of the program when the receiver's class defines or
      inherits it, otherwise into the built-in classes. */
  function CallMethod(prog: Program, st0: Store, recv: Val, name: string, args: seq<Val>, line: nat, ctx: Ctx, fuel: nat): (r: Evaluated)
    ensures Extends(ctx, r.ctx)
    decreases fuel, 0, 3
  {
    match UserTarget(prog, recv.ty, name)
    case Some((owner, def)) =>
      var out := InferReturn(prog, st0, owner, name, def, recv.ty, TypesOf(args), ctx.writes, ctx.diags, fuel);
      Plain(out.ty, ctx.(writes := out.writes, diags := out.diags))
    case None => CallBuiltin(recv, name, args, line, ctx)
  }

  function CallSuper(prog: Program, st0: Store, f: Frame, args: seq<Type>, line: nat, ctx: Ctx, fuel: nat): (r: Evaluated)
    ensures Extends(ctx, r.ctx)
    decreases fuel, 0, 3
  {
    match SuperTarget(prog, f.owner, f.name)
    case Some((owner, def)) =>
      var out := InferReturn(prog, st0, owner, f.name, def, f.self, args, ctx.writes, ctx.diags, fuel);
      Plain(out.ty, ctx.(writes := out.writes, diags := out.diags))
    case None => Plain(EMPTY, ctx.(diags := ctx.diags + [Unresolved("super", line)]))
  }

  function EvalList(prog: Program, st0: Store, f: Frame, es: seq<Expr>, ctx: Ctx, fuel: nat): (r: EvaluatedList)
    ensures Extends(ctx, r.ctx) && |r.vals| == |es|
    decreases fuel, ExprsSize(es), 2
  {
    if es == [] then EvaluatedList([], ctx)
    else
      var h := Eval(prog, st0, f, es[0], ctx, fuel);
      var t := EvalList(prog, st0, f, es[1..], h.ctx, fuel);
      EvaluatedList([h.val] + t.vals, t.ctx)
  }

  /** A call into a built-in class: the overload table's answer, or EMPTY and a
      NoMatchingTypeSignature report on the call's line naming the method. */
  function CallBuiltin(recv: Val, name: string, args: seq<Val>, line: nat, ctx: Ctx): (r: Evaluated)
    ensures r.ctx.env == ctx.env && r.ctx.writes == ctx.writes
    ensures Resolve(recv.ty, name, TypesOf(args), if |args| == 1 then args[0].known else None).NoMatch? ==>
      r.val.ty == EMPTY && r.ctx.diags == ctx.diags + [Unresolved(name, line)]
    ensures Resolve(recv.ty, name, TypesOf(args), if |args| == 1 then args[0].known else None).Resolved? ==>
      r.val.ty == Resolve(recv.ty, name, TypesOf(args), if |args| == 1 then args[0].known else None).ty && r.ctx == ctx
  {
    var lit := if |args| == 1 then args[0].known else None;
    match Resolve(recv.ty, name, TypesOf(args), lit)
    case Resolved(t) => Evaluated(Val(t, Fold(recv.ty, recv.known, name, KnownOf(args))), ctx)
    case NoMatch => Plain(EMPTY, ctx.(diags := ctx.diags + [Unresolved(name, line)]))
  }

  function KnownOf(vs: seq<Val>): (ks: seq<Option<Known>>)
    ensures |ks| == |vs|
  {
    if vs == [] then [] else [vs[0].known] + KnownOf(vs[1..])
  }

  /** A built-in call without arguments that the table resolves has the table's type
      and changes nothing. */
  lemma BuiltinResolved0(recv: Val, name: string, line: nat, ctx: Ctx, t: Type)
    requires Resolve(recv.ty, name, [], None) == Resolved(t)
    ensures var r := CallBuiltin(recv, name, [], line, ctx);
      r.val.ty == t && r.ctx == ctx
  {
    assert TypesOf([]) == [];
  }

  /** The same for a built-in call with one argument. */
  lemma BuiltinResolved1(recv: Val, name: string, arg: Val, line: nat, ctx: Ctx, t: Type)
    requires Resolve(recv.ty, name, [arg.ty], arg.known) == Resolved(t)
    ensures var r := CallBuiltin(recv, name, [arg], line, ctx);
      r.val.ty == t && r.ctx == ctx
  {
    assert TypesOf([arg]) == [arg.ty];
  }

  // ---------------------------------------------------------------------------
  // Binding

  /** Parameter binding leaves every other variable alone. */
  lemma {:induction false} BindParamsOthers(env: Env, params: seq<string>, rest: Option<string>, args: seq<Type>, y: string)
    requires y !in params && (rest.Some? ==> y != rest.value)
    ensures Lookup(BindParams(env, params, rest, args), y) == Lookup(env, y)
    decreases params
  {
    if params != [] {
      BindParamsOthers(Bind(env, params[0], if args == [] then NILCLASS else args[0]), params[1..], rest,
                       if args == [] then [] else args[1..], y);
    }
  }

  /** Parameter i receives argument i, or NilClass when the call passed fewer. */
  lemma {:induction false} BindParamsNamed(env: Env, params: seq<string>, rest: Option<string>, args: seq<Type>, i: nat)
    requires Distinct(params) && (rest.Some? ==> rest.value !in params) && i < |params|
    ensures Lookup(BindParams(env, params, rest, args), params[i]) == if i < |args| then args[i] else NILCLASS
    decreases params
  {
    var arg := if args == [] then NILCLASS else args[0];
    var more := if args == [] then [] else args[1..];
    if i == 0 {
      assert params[0] !in params[1..];
      BindParamsOthers(Bind(env, params[0], arg), params[1..], rest, more, params[0]);
    } else {
      assert params[i] == params[1..][i - 1];
      BindParamsNamed(Bind(env, params[0], arg), params[1..], rest, more, i - 1);
    }
  }

  /** A rest parameter receives the tuple of the arguments past the named ones. */
  lemma {:induction false} BindParamsRest(env: Env, params: seq<string>, r: string, args: seq<Type>)
    requires r !in params
    ensures Lookup(BindParams(env, params, Some(r), args), r) == Tuple(if |args| <= |params| then [] else args[|params|..])
    decreases params
  {
    if params != [] {
      var more := if args == [] then [] else args[1..];
      BindParamsRest(Bind(env, params[0], if args == [] then NILCLASS else args[0]), params[1..], r, more);
      if |args| > |params| {
        assert more[|params| - 1..] == args[|params|..];
      }
    } else {
      assert args[0..] == args;
    }
  }

  /** Destructuring binds target i to position `from + i` of the right-hand side. */
  lemma {:induction false} BindTargetsAt(env: Env, targets: seq<string>, t: Type, from: nat, i: nat)
    requires Distinct(targets) && i < |targets|
    ensures Lookup(BindTargets(env, targets, t, from), targets[i]) == Destructure(t, from + i)
    decreases |targets|
  {
    var env' := Bind(env, targets[0], Destructure(t, from));
    if i == 0 {
      assert targets[0] !in targets[1..];
      BindTargetsOthers(env', targets[1..], t, from + 1, targets[0]);
    } else {
      assert targets[i] == targets[1..][i - 1];
      BindTargetsAt(env', targets[1..], t, from + 1, i - 1);
    }
  }

  lemma {:induction false} BindTargetsOthers(env: Env, targets: seq<string>, t: Type, from: nat, y: string)
    requires y !in targets
    ensures Lookup(BindTargets(env, targets, t, from), y) == Lookup(env, y)
    decreases |targets|
  {
    if targets != [] {
      BindTargetsOthers(Bind(env, targets[0], Destructure(t, from)), targets[1..], t, from + 1, y);
    }
  }

  // ---------------------------------------------------------------------------
  // Method lookup

  /** Lookup only ever returns a definition that the named class really declares. */
  lemma {:induction false} FindMethodSound(prog: Program, cls: string, name: string, hops: nat)
    ensures FindMethod(prog, cls, name, hops).Some? ==>
      var owner := FindMethod(prog, cls, name, hops).value.0;
      owner in prog && name in prog[owner].methods && prog[owner].methods[name] == FindMethod(prog, cls, name, hops).value.1
    decreases hops
  {
    if hops > 0 && cls in prog && name !in prog[cls].methods && prog[cls].superclass.Some? {
      FindMethodSound(prog, prog[cls].superclass.value, name, hops - 1);
    }
  }

  /** A class's own definition shadows every inherited one. */
  lemma LookupOwnFirst(prog: Program, cls: string, name: string)
    requires cls in prog && name in prog[cls].methods
    ensures LookupMethod(prog, cls, name) == Some((cls, prog[cls].methods[name]))
  {
    assert |prog| > 0 by {
      assert cls in prog.Keys;
    }
  }

  /** A class that does not declare the method inherits its parent's. */
  lemma LookupInherited(prog: Program, cls: string, parent: string, name: string)
    requires cls in prog && name !in prog[cls].methods && prog[cls].superclass == Some(parent)
    requires parent in prog && name in prog[parent].methods && cls != parent
    ensures LookupMethod(prog, cls, name) == Some((parent, prog[parent].methods[name]))
  {
    assert |prog| >= 2 by {
      assert {cls, parent} <= prog.Keys;
      assert |{cls, parent}| == 2;
      CardinalityMonotone({cls, parent}, prog.Keys);
    }
    assert FindMethod(prog, parent, name, |prog| - 1) == Some((parent, prog[parent].methods[name]));
  }

  lemma CardinalityMonotone<T>(a: set<T>, b: set<T>)
    requires a <= b
    ensures |a| <= |b|
  {
    assert b == a + (b - a);
  }

  /** `super` inside a method declared by `owner` runs the definition found from
      owner's superclass, whatever the class of the receiver. */
  lemma SuperFromDeclaringClass(prog: Program, owner: string, parent: string, name: string)
    requires owner in prog && prog[owner].superclass == Some(parent)
    requires parent in prog && name in prog[parent].methods
    ensures SuperTarget(prog, owner, name) == Some((parent, prog[parent].methods[name]))
  {
    LookupOwnFirst(prog, parent, name);
  }

  /** `super` infers the superclass's method with the caller's receiver type and the
      passed argument types, and the callee's field writes and diagnostics become the
      caller's. */
  lemma CallSuperParent(prog: Program, st0: Store, f: Frame, parent: string, args: seq<Type>, line: nat, ctx: Ctx, fuel: nat)
    requires f.owner in prog && prog[f.owner].superclass == Some(parent)
    requires parent in prog && f.name in prog[parent].methods
    ensures var out := InferReturn(prog, st0, parent, f.name, prog[parent].methods[f.name], f.self, args, ctx.writes, ctx.diags, fuel);
      CallSuper(prog, st0, f, args, line, ctx, fuel) == Plain(out.ty, ctx.(writes := out.writes, diags := out.diags))
  {
    SuperFromDeclaringClass(prog, f.owner, parent, f.name);
  }

  // ---------------------------------------------------------------------------
  // Unfolding lemmas. Each one restates a single case of Eval, Exec or
  // InferReturn so that the proofs about whole programs can take one step at a
  // time; they are proof plumbing and claim nothing about the analysis beyond
  // the definitions above.

  lemma EvalLocalAssign(prog: Program, st0: Store, f: Frame, x: string, rhs: Expr, ctx: Ctx, fuel: nat)
    ensures var v := Eval(prog, st0, f, rhs, ctx, fuel);
      Eval(prog, st0, f, LocalAssign(x, rhs), ctx, fuel) == Evaluated(v.val, v.ctx.(env := Bind(v.ctx.env, x, v.val.ty)))
  {
    assert Eval(prog, st0, f, LocalAssign(x, rhs), ctx, fuel) == EvalAssign(prog, st0, f, LocalAssign(x, rhs), ctx, fuel);
  }

  lemma EvalGlobalAssign(prog: Program, st0: Store, f: Frame, g: string, rhs: Expr, ctx: Ctx, fuel: nat)
    ensures var v := Eval(prog, st0, f, rhs, ctx, fuel);
      Eval(prog, st0, f, GlobalAssign(g, rhs), ctx, fuel) ==
        Evaluated(v.val, v.ctx.(writes := v.ctx.writes + [GlobalWrite(g, v.val.ty)]))
  {
    assert Eval(prog, st0, f, GlobalAssign(g, rhs), ctx, fuel) == EvalAssign(prog, st0, f, GlobalAssign(g, rhs), ctx, fuel);
  }

  lemma EvalIvarAssign(prog: Program, st0: Store, f: Frame, field: string, rhs: Expr, ctx: Ctx, fuel: nat)
    ensures var v := Eval(prog, st0, f, rhs, ctx, fuel);
      Eval(prog, st0, f, IvarAssign(field, rhs), ctx, fuel) ==
        Evaluated(v.val, v.ctx.(writes := v.ctx.writes + [IvarWrite(f.owner, field, v.val.ty)]))
  {
    assert Eval(prog, st0, f, IvarAssign(field, rhs), ctx, fuel) == EvalAssign(prog, st0, f, IvarAssign(field, rhs), ctx, fuel);
  }

  lemma EvalCallStep(prog: Program, st0: Store, f: Frame, recv: Expr, name: string, args: seq<Expr>, line: nat, ctx: Ctx, fuel: nat)
    ensures var v := Eval(prog, st0, f, recv, ctx, fuel);
      var a := EvalList(prog, st0, f, args, v.ctx, fuel);
      Eval(prog, st0, f, Call(recv, name, args, line), ctx, fuel) == CallMethod(prog, st0, v.val, name, a.vals, line, a.ctx, fuel)
  {
    assert Eval(prog, st0, f, Call(recv, name, args, line), ctx, fuel) == EvalCall(prog, st0, f, recv, name, args, line, ctx, fuel);
  }

  /** Expressions the analysis reads off directly. */
  predicate IsLeaf(e: Expr) {
    !(e.Interpolation? || e.ArrayLiteral? || e.RangeLiteral? || e.LocalAssign? || e.GlobalAssign?
      || e.IvarAssign? || e.Call? || e.New? || e.Super? || e.ZSuper?)
  }

  lemma EvalLeaf(prog: Program, st0: Store, f: Frame, e: Expr, ctx: Ctx, fuel: nat)
    requires IsLeaf(e)
    ensures Eval(prog, st0, f, e, ctx, fuel) == Leaf(st0, f, e, ctx)
  {
  }

  lemma EvalListNil(prog: Program, st0: Store, f: Frame, ctx: Ctx, fuel: nat)
    ensures EvalList(prog, st0, f, [], ctx, fuel) == EvaluatedList([], ctx)
  {
  }

  lemma EvalListCons(prog: Program, st0: Store, f: Frame, es: seq<Expr>, ctx: Ctx, fuel: nat)
    requires es != []
    ensures var h := Eval(prog, st0, f, es[0], ctx, fuel);
      var t := EvalList(prog, st0, f, es[1..], h.ctx, fuel);
      EvalList(prog, st0, f, es, ctx, fuel) == EvaluatedList([h.val] + t.vals, t.ctx)
  {
  }

  /** A call the program's methods do not handle goes to the built-in table. */
  lemma CallMethodBuiltin(prog: Program, st0: Store, recv: Val, name: string, args: seq<Val>, line: nat, ctx: Ctx, fuel: nat)
    requires UserTarget(prog, recv.ty, name).None?
    ensures CallMethod(prog, st0, recv, name, args, line, ctx, fuel) == CallBuiltin(recv, name, args, line, ctx)
  {
  }

  /** A call to a method of the program infers that method for the argument types. */
  lemma CallMethodUser(prog: Program, st0: Store, recv: Val, name: string, args: seq<Val>, line: nat, ctx: Ctx, fuel: nat)
    requires UserTarget(prog, recv.ty, name).Some?
    ensures var (owner, def) := UserTarget(prog, recv.ty, name).value;
      var out := InferReturn(prog, st0, owner, name, def, recv.ty, TypesOf(args), ctx.writes, ctx.diags, fuel);
      CallMethod(prog, st0, recv, name, args, line, ctx, fuel) == Plain(out.ty, ctx.(writes := out.writes, diags := out.diags))
  {
  }

  lemma CallSuperFound(prog: Program, st0: Store, f: Frame, args: seq<Type>, line: nat, ctx: Ctx, fuel: nat)
    requires SuperTarget(prog, f.owner, f.name).Some?
    ensures var (owner, def) := SuperTarget(prog, f.owner, f.name).value;
      var out := InferReturn(prog, st0, owner, f.name, def, f.self, args, ctx.writes, ctx.diags, fuel);
      CallSuper(prog, st0, f, args, line, ctx, fuel) == Plain(out.ty, ctx.(writes := out.writes, diags := out.diags))
  {
  }

  lemma EvalSuperStep(prog: Program, st0: Store, f: Frame, args: seq<Expr>, line: nat, ctx: Ctx, fuel: nat)
    ensures var a := EvalList(prog, st0, f, args, ctx, fuel);
      Eval(prog, st0, f, Super(args, line), ctx, fuel) == CallSuper(prog, st0, f, TypesOf(a.vals), line, a.ctx, fuel)
  {
    assert Eval(prog, st0, f, Super(args, line), ctx, fuel) == EvalSuper(prog, st0, f, args, line, ctx, fuel);
  }

  lemma EvalZSuperStep(prog: Program, st0: Store, f: Frame, line: nat, ctx: Ctx, fuel: nat)
    ensures Eval(prog, st0, f, ZSuper(line), ctx, fuel) == CallSuper(prog, st0, f, Forwarded(f, ctx.env), line, ctx, fuel)
  {
  }

  lemma EvalArrayStep(prog: Program, st0: Store, f: Frame, elems: seq<Expr>, ctx: Ctx, fuel: nat)
    ensures var a := EvalList(prog, st0, f, elems, ctx, fuel);
      Eval(prog, st0, f, ArrayLiteral(elems), ctx, fuel) == Plain(Tuple(TypesOf(a.vals)), a.ctx)
  {
    assert Eval(prog, st0, f, ArrayLiteral(elems), ctx, fuel) == EvalArray(prog, st0, f, elems, ctx, fuel);
  }

  lemma EvalInterpolationStep(prog: Program, st0: Store, f: Frame, parts: seq<Expr>, ctx: Ctx, fuel: nat)
    ensures var a := EvalList(prog, st0, f, parts, ctx, fuel);
      Eval(prog, st0, f, Interpolation(parts), ctx, fuel) == Plain(STRING, a.ctx)
  {
    assert Eval(prog, st0, f, Interpolation(parts), ctx, fuel) == EvalInterpolation(prog, st0, f, parts, ctx, fuel);
  }

  lemma EvalRangeStep(prog: Program, st0: Store, f: Frame, lo: Expr, hi: Expr, ctx: Ctx, fuel: nat)
    ensures Eval(prog, st0, f, RangeLiteral(lo, hi), ctx, fuel) == EvalRange(prog, st0, f, lo, hi, ctx, fuel)
  {
  }

  lemma EvalNewStep(prog: Program, st0: Store, f: Frame, cls: string, args: seq<Expr>, ctx: Ctx, fuel: nat)
    ensures var a := EvalList(prog, st0, f, args, ctx, fuel);
      Eval(prog, st0, f, New(cls, args), ctx, fuel) == Plain(Instance(cls), a.ctx)
  {
    assert Eval(prog, st0, f, New(cls, args), ctx, fuel) == EvalNew(prog, st0, f, cls, args, ctx, fuel);
  }

  /** A call with no arguments that the built-in table handles. */
  lemma EvalBuiltinCall0(prog: Program, st0: Store, f: Frame, recv: Expr, name: string, line: nat, ctx: Ctx, fuel: nat)
    requires UserTarget(prog, Eval(prog, st0, f, recv, ctx, fuel).val.ty, name).None?
    ensures var v := Eval(prog, st0, f, recv, ctx, fuel);
      Eval(prog, st0, f, Call(recv, name, [], line), ctx, fuel) == CallBuiltin(v.val, name, [], line, v.ctx)
  {
    var v := Eval(prog, st0, f, recv, ctx, fuel);
    EvalCallStep(prog, st0, f, recv, name, [], line, ctx, fuel);
    EvalListNil(prog, st0, f, v.ctx, fuel);
    CallMethodBuiltin(prog, st0, v.val, name, [], line, v.ctx, fuel);
  }

  /** A call with one argument that the built-in table handles. */
  lemma EvalBuiltinCall1(prog: Program, st0: Store, f: Frame, recv: Expr, name: string, arg: Expr, line: nat, ctx: Ctx, fuel: nat)
    requires UserTarget(prog, Eval(prog, st0, f, recv, ctx, fuel).val.ty, name).None?
    ensures var v := Eval(prog, st0, f, recv, ctx, fuel);
      var w := Eval(prog, st0, f, arg, v.ctx, fuel);
      Eval(prog, st0, f, Call(recv, name, [arg], line), ctx, fuel) == CallBuiltin(v.val, name, [w.val], line, w.ctx)
  {
    var v := Eval(prog, st0, f, recv, ctx, fuel);
    EvalCallStep(prog, st0, f, recv, name, [arg], line, ctx, fuel);
    EvalListOne(prog, st0, f, arg, v.ctx, fuel);
    var w := Eval(prog, st0, f, arg, v.ctx, fuel);
    CallMethodBuiltin(prog, st0, v.val, name, [w.val], line, w.ctx, fuel);
  }

  /** A call with one argument to a method of the program. */
  lemma EvalUserCall1(prog: Program, st0: Store, f: Frame, recv: Expr, name: string, arg: Expr, line: nat, ctx: Ctx, fuel: nat)
    requires UserTarget(prog, Eval(prog, st0, f, recv, ctx, fuel).val.ty, name).Some?
    ensures var v := Eval(prog, st0, f, recv, ctx, fuel);
      var w := Eval(prog, st0, f, arg, v.ctx, fuel);
      var (owner, def) := UserTarget(prog, v.val.ty, name).value;
      var out := InferReturn(prog, st0, owner, name, def, v.val.ty, [w.val.ty], w.ctx.writes, w.ctx.diags, fuel);
      Eval(prog, st0, f, Call(recv, name, [arg], line), ctx, fuel) == Plain(out.ty, w.ctx.(writes := out.writes, diags := out.diags))
  {
    var v := Eval(prog, st0, f, recv, ctx, fuel);
    EvalCallStep(prog, st0, f, recv, name, [arg], line, ctx, fuel);
    EvalListOne(prog, st0, f, arg, v.ctx, fuel);
    var w := Eval(prog, st0, f, arg, v.ctx, fuel);
    CallMethodUser(prog, st0, v.val, name, [w.val], line, w.ctx, fuel);
    assert TypesOf([w.val]) == [w.val.ty];
  }

  /** `name(arg)` with the implicit receiver, in a method whose receiver is an
      instance of a class of the program defining `name`. */
  lemma EvalSelfCall1(prog: Program, st0: Store, f: Frame, cls: string, name: string, arg: Expr, line: nat, ctx: Ctx, fuel: nat)
    requires f.self == Instance(cls) && cls in prog && name in prog[cls].methods
    ensures var w := Eval(prog, st0, f, arg, ctx, fuel);
      var out := InferReturn(prog, st0, cls, name, prog[cls].methods[name], f.self, [w.val.ty], w.ctx.writes, w.ctx.diags, fuel);
      Eval(prog, st0, f, Call(SelfRef, name, [arg], line), ctx, fuel) == Plain(out.ty, w.ctx.(writes := out.writes, diags := out.diags))
  {
    EvalLeaf(prog, st0, f, SelfRef, ctx, fuel);
    UserTargetOwn(prog, cls, name);
    EvalUserCall1(prog, st0, f, SelfRef, name, arg, line, ctx, fuel);
  }

  /** `super(arg)` in a method whose superclass chain defines it. */
  lemma EvalSuper1(prog: Program, st0: Store, f: Frame, arg: Expr, line: nat, ctx: Ctx, fuel: nat)
    requires SuperTarget(prog, f.owner, f.name).Some?
    ensures var w := Eval(prog, st0, f, arg, ctx, fuel);
      var (owner, def) := SuperTarget(prog, f.owner, f.name).value;
      var out := InferReturn(prog, st0, owner, f.name, def, f.self, [w.val.ty], w.ctx.writes, w.ctx.diags, fuel);
      Eval(prog, st0, f, Super([arg], line), ctx, fuel) == Plain(out.ty, w.ctx.(writes := out.writes, diags := out.diags))
  {
    EvalSuperStep(prog, st0, f, [arg], line, ctx, fuel);
    EvalListOne(prog, st0, f, arg, ctx, fuel);
    var w := Eval(prog, st0, f, arg, ctx, fuel);
    assert TypesOf([w.val]) == [w.val.ty];
    CallSuperFound(prog, st0, f, [w.val.ty], line, w.ctx, fuel);
  }

  lemma EvalListOne(prog: Program, st0: Store, f: Frame, e: Expr, ctx: Ctx, fuel: nat)
    ensures var h := Eval(prog, st0, f, e, ctx, fuel);
      EvalList(prog, st0, f, [e], ctx, fuel) == EvaluatedList([h.val], h.ctx)
  {
    var h := Eval(prog, st0, f, e, ctx, fuel);
    EvalListCons(prog, st0, f, [e], ctx, fuel);
    assert [e][1..] == [];
    EvalListNil(prog, st0, f, h.ctx, fuel);
  }

  /** An instance of a class of the program dispatches to the class's own method. */
  lemma UserTargetOwn(prog: Program, cls: string, name: string)
    requires cls in prog && name in prog[cls].methods
    ensures UserTarget(prog, Instance(cls), name) == Some((cls, prog[cls].methods[name]))
  {
    assert TheAtom(Instance(cls)) == ClassType(cls, Invariant);
    LookupOwnFirst(prog, cls, name);
  }

  /** A receiver none of whose members is an instance of a class has no methods
      in the program. */
  lemma NoClassReceiver(prog: Program, t: Type, name: string)
    requires forall a :: a in t ==> !a.ClassType?
    ensures UserTarget(prog, t, name).None?
  {
    if |t| == 1 {
      assert TheAtom(t) in t;
    }
  }

  /** `x = e` as a statement: the value assigned becomes x's new version. */
  lemma ExecAssign(prog: Program, st0: Store, f: Frame, x: string, rhs: Expr, run: Run, fuel: nat)
    ensures var v := Eval(prog, st0, f, rhs, run.ctx, fuel);
      ExecStmt(prog, st0, f, ExprStmt(LocalAssign(x, rhs)), run, fuel) ==
        Run(v.ctx.(env := Bind(v.ctx.env, x, v.val.ty)), v.val.ty, run.returned, true)
  {
    ExecExprStmt(prog, st0, f, LocalAssign(x, rhs), run, fuel);
    EvalLocalAssign(prog, st0, f, x, rhs, run.ctx, fuel);
  }

  /** A block of one assignment of a literal or a variable read. */
  lemma ExecAssignLeaf(prog: Program, st0: Store, f: Frame, x: string, e: Expr, run: Run, fuel: nat)
    requires run.live && IsLeaf(e)
    ensures var t := Leaf(st0, f, e, run.ctx).val.ty;
      Exec(prog, st0, f, [ExprStmt(LocalAssign(x, e))], run, fuel) ==
        Run(run.ctx.(env := Bind(run.ctx.env, x, t)), t, run.returned, true)
  {
    ExecOne(prog, st0, f, ExprStmt(LocalAssign(x, e)), run, fuel);
    ExecAssign(prog, st0, f, x, e, run, fuel);
    EvalLeaf(prog, st0, f, e, run.ctx, fuel);
  }

  lemma ExecCons(prog: Program, st0: Store, f: Frame, ss: seq<Stmt>, run: Run, fuel: nat)
    requires ss != [] && run.live
    ensures Exec(prog, st0, f, ss, run, fuel) == Exec(prog, st0, f, ss[1..], ExecStmt(prog, st0, f, ss[0], run, fuel), fuel)
  {
  }

  lemma ExecExprStmt(prog: Program, st0: Store, f: Frame, e: Expr, run: Run, fuel: nat)
    ensures var r := Eval(prog, st0, f, e, run.ctx, fuel);
      ExecStmt(prog, st0, f, ExprStmt(e), run, fuel) == Run(r.ctx, r.val.ty, run.returned, true)
  {
  }

  /** Values of built-in classes have no methods in the program. */
  lemma BuiltinReceiver(prog: Program, p: Prim, name: string)
    ensures UserTarget(prog, {PrimType(p)}, name).None?
  {
    assert TheAtom({PrimType(p)}) == PrimType(p);
  }

  lemma ExecNil(prog: Program, st0: Store, f: Frame, run: Run, fuel: nat)
    ensures Exec(prog, st0, f, [], run, fuel) == run
  {
  }

  /** Inference of a method, given fuel: its body from the bound parameters. */
  lemma InferReturnStep(prog: Program, st0: Store, owner: string, name: string, def: MethodDef,
                        self: Type, args: seq<Type>, writes: seq<Write>, diags: seq<Diagnostic>, fuel: nat)
    requires fuel > 0
    ensures var env := BindParams(map[], def.params, def.rest, args);
      var f := Frame(owner, name, self, def.params, def.rest);
      var run := Exec(prog, st0, f, def.body, Run(Ctx(env, writes, diags), NILCLASS, EMPTY, true), fuel - 1);
      var t := Join(run.returned, if run.live then run.last else EMPTY);
      InferReturn(prog, st0, owner, name, def, self, args, writes, diags, fuel) ==
        Inferred(t, run.ctx.writes, run.ctx.diags + ContractCheck(name, def.line, t))
  {
  }

  /** A method without a contract whose body reaches its end without a `return`
      returns the type of its last statement. */
  lemma InferFallThrough(prog: Program, st0: Store, owner: string, name: string, def: MethodDef,
                         self: Type, args: seq<Type>, writes: seq<Write>, diags: seq<Diagnostic>, fuel: nat)
    requires fuel > 0 && name !in Contracts
    ensures var env := BindParams(map[], def.params, def.rest, args);
      var f := Frame(owner, name, self, def.params, def.rest);
      var run := Exec(prog, st0, f, def.body, Run(Ctx(env, writes, diags), NILCLASS, EMPTY, true), fuel - 1);
      run.live && run.returned == EMPTY ==>
        InferReturn(prog, st0, owner, name, def, self, args, writes, diags, fuel) == Inferred(run.last, run.ctx.writes, run.ctx.diags)
  {
    InferReturnStep(prog, st0, owner, name, def, self, args, writes, diags, fuel);
  }

  /** A method whose body is one expression returns that expression's type. */
  lemma InferExpressionBody(prog: Program, st0: Store, owner: string, name: string, def: MethodDef,
                            self: Type, args: seq<Type>, writes: seq<Write>, diags: seq<Diagnostic>, fuel: nat)
    requires fuel > 0 && |def.body| == 1 && def.body[0].ExprStmt?
    ensures var env := BindParams(map[], def.params, def.rest, args);
      var f := Frame(owner, name, self, def.params, def.rest);
      var v := Eval(prog, st0, f, def.body[0].e, Ctx(env, writes, diags), fuel - 1);
      InferReturn(prog, st0, owner, name, def, self, args, writes, diags, fuel) ==
        Inferred(v.val.ty, v.ctx.writes, v.ctx.diags + ContractCheck(name, def.line, v.val.ty))
  {
    var env := BindParams(map[], def.params, def.rest, args);
    var f := Frame(owner, name, self, def.params, def.rest);
    var run := Run(Ctx(env, writes, diags), NILCLASS, EMPTY, true);
    InferReturnStep(prog, st0, owner, name, def, self, args, writes, diags, fuel);
    assert def.body == [def.body[0]];
    ExecOne(prog, st0, f, def.body[0], run, fuel - 1);
    ExecExprStmt(prog, st0, f, def.body[0].e, run, fuel - 1);
  }

  // ---------------------------------------------------------------------------
  // Statements

  /** Once control cannot reach the end (a return was met), later statements are
      not analysed. */
  lemma {:induction false} ExecDead(prog: Program, st0: Store, f: Frame, ss: seq<Stmt>, run: Run, fuel: nat)
    requires !run.live
    ensures Exec(prog, st0, f, ss, run, fuel) == run
  {
  }

  /** A body is analysed statement by statement, in order: analysing `ss + ts` is
      analysing `ts` from the state `ss` leaves. */
  lemma {:induction false} ExecAppend(prog: Program, st0: Store, f: Frame, ss: seq<Stmt>, ts: seq<Stmt>, run: Run, fuel: nat)
    ensures Exec(prog, st0, f, ss + ts, run, fuel) == Exec(prog, st0, f, ts, Exec(prog, st0, f, ss, run, fuel), fuel)
    decreases |ss|
  {
    if ss == [] {
      assert ss + ts == ts;
    } else if !run.live {
      ExecDead(prog, st0, f, ts, run, fuel);
    } else {
      assert (ss + ts)[0] == ss[0];
      assert (ss + ts)[1..] == ss[1..] + ts;
      ExecAppend(prog, st0, f, ss[1..], ts, ExecStmt(prog, st0, f, ss[0], run, fuel), fuel);
    }
  }

  /** One statement from a live state. */
  lemma ExecOne(prog: Program, st0: Store, f: Frame, s: Stmt, run: Run, fuel: nat)
    requires run.live
    ensures Exec(prog, st0, f, [s], run, fuel) == ExecStmt(prog, st0, f, s, run, fuel)
  {
    assert [s][1..] == [];
  }

  /** Statements after a `return` do not contribute to the method's type. */
  lemma ReturnEndsBody(prog: Program, st0: Store, f: Frame, e: Expr, rest: seq<Stmt>, run: Run, fuel: nat)
    requires run.live
    ensures var r := Exec(prog, st0, f, [Return(e)] + rest, run, fuel);
      !r.live && r == ExecStmt(prog, st0, f, Return(e), run, fuel)
      && r.returned == Join(run.returned, Eval(prog, st0, f, e, run.ctx, fuel).val.ty)
  {
    ExecAppend(prog, st0, f, [Return(e)], rest, run, fuel);
    ExecOne(prog, st0, f, Return(e), run, fuel);
    ExecDead(prog, st0, f, rest, ExecStmt(prog, st0, f, Return(e), run, fuel), fuel);
  }

  /** A reassignment gives the variable a new version whose type is the assigned
      type alone: the earlier type is not widened into it. */
  lemma ReassignmentReplaces(prog: Program, st0: Store, f: Frame, x: string, rhs: Expr, run: Run, fuel: nat)
    requires run.live
    ensures var v := Eval(prog, st0, f, rhs, run.ctx, fuel);
      var r := Exec(prog, st0, f, [ExprStmt(LocalAssign(x, rhs))], run, fuel);
      r.live && r.last == v.val.ty && Lookup(r.ctx.env, x) == v.val.ty
      && (forall y :: y != x ==> Lookup(r.ctx.env, y) == Lookup(v.ctx.env, y))
  {
    ExecOne(prog, st0, f, ExprStmt(LocalAssign(x, rhs)), run, fuel);
    EvalLocalAssign(prog, st0, f, x, rhs, run.ctx, fuel);
  }

  /** At the join after an if/else whose branches both reach the end, every
      variable has the union of its types on the two branches; a variable a branch
      did not assign contributes the type it had before the if. */
  lemma IfMerges(prog: Program, st0: Store, f: Frame, cond: Expr, thn: seq<Stmt>, els: seq<Stmt>, run: Run, fuel: nat, x: string)
    requires run.live
    ensures var c := Eval(prog, st0, f, cond, run.ctx, fuel);
      var t := Exec(prog, st0, f, thn, Run(c.ctx, NILCLASS, run.returned, true), fuel);
      var e := Exec(prog, st0, f, els, Run(t.ctx.(env := c.ctx.env), NILCLASS, t.returned, true), fuel);
      var r := ExecStmt(prog, st0, f, If(cond, thn, els), run, fuel);
      t.live && e.live ==> r.live && Lookup(r.ctx.env, x) == Join(Lookup(t.ctx.env, x), Lookup(e.ctx.env, x))
  {
    var c := Eval(prog, st0, f, cond, run.ctx, fuel);
    var t := Exec(prog, st0, f, thn, Run(c.ctx, NILCLASS, run.returned, true), fuel);
    var e := Exec(prog, st0, f, els, Run(t.ctx.(env := c.ctx.env), NILCLASS, t.returned, true), fuel);
    MergeLookup(t.ctx.env, e.ctx.env, x);
  }

  /** An if without an else: a variable assigned only in the then-branch merges
      with the type it had before, NilClass when it was unassigned. */
  lemma IfWithoutElse(prog: Program, st0: Store, f: Frame, cond: Expr, thn: seq<Stmt>, run: Run, fuel: nat, x: string)
    requires run.live
    ensures var c := Eval(prog, st0, f, cond, run.ctx, fuel);
      var t := Exec(prog, st0, f, thn, Run(c.ctx, NILCLASS, run.returned, true), fuel);
      var r := ExecStmt(prog, st0, f, If(cond, thn, []), run, fuel);
      t.live ==> r.live && Lookup(r.ctx.env, x) == Join(Lookup(t.ctx.env, x), Lookup(c.ctx.env, x))
  {
    IfMerges(prog, st0, f, cond, thn, [], run, fuel, x);
  }

  /** `if c; x = e1; else x = e2; end` with a condition that changes nothing: x
      merges the two assigned types. */
  lemma IfAssigns(prog: Program, st0: Store, f: Frame, cond: Expr, x: string, e1: Expr, e2: Expr, run: Run, fuel: nat)
    requires run.live && IsLeaf(e1) && IsLeaf(e2)
    requires Eval(prog, st0, f, cond, run.ctx, fuel).ctx == run.ctx
    ensures var r := ExecStmt(prog, st0, f, If(cond, [ExprStmt(LocalAssign(x, e1))], [ExprStmt(LocalAssign(x, e2))]), run, fuel);
      r.live && r.returned == run.returned && r.ctx.writes == run.ctx.writes && r.ctx.diags == run.ctx.diags
      && Lookup(r.ctx.env, x) == Join(Leaf(st0, f, e1, run.ctx).val.ty, Leaf(st0, f, e2, run.ctx).val.ty)
      && (forall y :: y != x ==> Lookup(r.ctx.env, y) == Lookup(run.ctx.env, y))
  {
    var ctx := run.ctx;
    ExecAssignLeaf(prog, st0, f, x, e1, Run(ctx, NILCLASS, run.returned, true), fuel);
    ExecAssignLeaf(prog, st0, f, x, e2, Run(ctx, NILCLASS, run.returned, true), fuel);
    var t1, t2 := Leaf(st0, f, e1, ctx).val.ty, Leaf(st0, f, e2, ctx).val.ty;
    forall y ensures Lookup(Merge(Bind(ctx.env, x, t1), Bind(ctx.env, x, t2)), y) ==
      Join(Lookup(Bind(ctx.env, x, t1), y), Lookup(Bind(ctx.env, x, t2), y)) {
      MergeLookup(Bind(ctx.env, x, t1), Bind(ctx.env, x, t2), y);
    }
  }

  /** `if c; x = e; end` with a condition that changes nothing: x merges the
      assigned type with the type it had before the if. */
  lemma IfAssignsOne(prog: Program, st0: Store, f: Frame, cond: Expr, x: string, e: Expr, run: Run, fuel: nat)
    requires run.live && IsLeaf(e)
    requires Eval(prog, st0, f, cond, run.ctx, fuel).ctx == run.ctx
    ensures var r := ExecStmt(prog, st0, f, If(cond, [ExprStmt(LocalAssign(x, e))], []), run, fuel);
      r.live && r.returned == run.returned && r.ctx.writes == run.ctx.writes && r.ctx.diags == run.ctx.diags
      && Lookup(r.ctx.env, x) == Join(Leaf(st0, f, e, run.ctx).val.ty, Lookup(run.ctx.env, x))
      && (forall y :: y != x ==> Lookup(r.ctx.env, y) == Lookup(run.ctx.env, y))
  {
    var ctx := run.ctx;
    ExecAssignLeaf(prog, st0, f, x, e, Run(ctx, NILCLASS, run.returned, true), fuel);
    var t := Leaf(st0, f, e, ctx).val.ty;
    var done := Run(ctx.(env := Bind(ctx.env, x, t)), t, run.returned, true);
    ExecNil(prog, st0, f, Run(done.ctx.(env := ctx.env), NILCLASS, run.returned, true), fuel);
    forall y ensures Lookup(Merge(Bind(ctx.env, x, t), ctx.env), y) == Join(Lookup(Bind(ctx.env, x, t), y), Lookup(ctx.env, y)) {
      MergeLookup(Bind(ctx.env, x, t), ctx.env, y);
    }
  }

  // ---------------------------------------------------------------------------
  // Array literals

  /** The types of a list of literals and variable reads. */
  function LeafTypes(st0: Store, f: Frame, es: seq<Expr>, ctx: Ctx): (ts: seq<Type>)
    requires forall i :: 0 <= i < |es| ==> IsLeaf(es[i])
    ensures |ts| == |es| && forall i :: 0 <= i < |es| ==> ts[i] == Leaf(st0, f, es[i], ctx).val.ty
  {
    seq(|es|, i requires 0 <= i < |es| => Leaf(st0, f, es[i], ctx).val.ty)
  }

  /** Literals and variable reads, evaluated left to right, change nothing. */
  lemma {:induction false} EvalLeaves(prog: Program, st0: Store, f: Frame, es: seq<Expr>, ctx: Ctx, fuel: nat)
    requires forall i :: 0 <= i < |es| ==> IsLeaf(es[i])
    ensures var r := EvalList(prog, st0, f, es, ctx, fuel);
      r.ctx == ctx && TypesOf(r.vals) == LeafTypes(st0, f, es, ctx)
    decreases |es|
  {
    if es == [] {
      EvalListNil(prog, st0, f, ctx, fuel);
    } else {
      EvalListCons(prog, st0, f, es, ctx, fuel);
      EvalLeaf(prog, st0, f, es[0], ctx, fuel);
      EvalLeaves(prog, st0, f, es[1..], ctx, fuel);
    }
  }

  /** An array literal of literals and variable reads is the tuple of their types. */
  lemma EvalArrayOfLeaves(prog: Program, st0: Store, f: Frame, es: seq<Expr>, ctx: Ctx, fuel: nat)
    requires forall i :: 0 <= i < |es| ==> IsLeaf(es[i])
    ensures Eval(prog, st0, f, ArrayLiteral(es), ctx, fuel) == Plain(Tuple(LeafTypes(st0, f, es, ctx)), ctx)
  {
    EvalArrayStep(prog, st0, f, es, ctx, fuel);
    EvalLeaves(prog, st0, f, es, ctx, fuel);
  }

  // ---------------------------------------------------------------------------
  // Fields and calls

  /** Assigning a global: the assignment's value is the assigned value, and a later
      read of the global sees what it held before joined with the assigned type. */
  lemma GlobalAssignment(prog: Program, st0: Store, f: Frame, g: string, rhs: Expr, ctx: Ctx, fuel: nat)
    ensures var v := Eval(prog, st0, f, rhs, ctx, fuel);
      var r := Eval(prog, st0, f, GlobalAssign(g, rhs), ctx, fuel);
      r.val == v.val
      && ReadGlobal(ApplyWrites(st0, r.ctx.writes), g) == Join(ReadGlobal(ApplyWrites(st0, v.ctx.writes), g), v.val.ty)
      && (forall h :: h != g ==> ReadGlobal(ApplyWrites(st0, r.ctx.writes), h) == ReadGlobal(ApplyWrites(st0, v.ctx.writes), h))
  {
    var v := Eval(prog, st0, f, rhs, ctx, fuel);
    EvalGlobalAssign(prog, st0, f, g, rhs, ctx, fuel);
    assert ApplyWrites(st0, v.ctx.writes + [GlobalWrite(g, v.val.ty)]) ==
      ApplyWrite(ApplyWrites(st0, v.ctx.writes), GlobalWrite(g, v.val.ty)) by {
      ApplyWritesAppend(st0, v.ctx.writes, [GlobalWrite(g, v.val.ty)]);
    }
  }

  /** Assigning an instance variable: the same, keyed by the class declaring the
      running method, so a same-named field of another class is untouched. */
  lemma IvarAssignment(prog: Program, st0: Store, f: Frame, field: string, rhs: Expr, ctx: Ctx, fuel: nat)
    ensures var v := Eval(prog, st0, f, rhs, ctx, fuel);
      var r := Eval(prog, st0, f, IvarAssign(field, rhs), ctx, fuel);
      r.val == v.val
      && ReadIvar(ApplyWrites(st0, r.ctx.writes), f.owner, field) ==
         Join(ReadIvar(ApplyWrites(st0, v.ctx.writes), f.owner, field), v.val.ty)
      && (forall owner :: owner != f.owner ==>
            ReadIvar(ApplyWrites(st0, r.ctx.writes), owner, field) == ReadIvar(ApplyWrites(st0, v.ctx.writes), owner, field))
  {
    var v := Eval(prog, st0, f, rhs, ctx, fuel);
    EvalIvarAssign(prog, st0, f, field, rhs, ctx, fuel);
    assert ApplyWrites(st0, v.ctx.writes + [IvarWrite(f.owner, field, v.val.ty)]) ==
      ApplyWrite(ApplyWrites(st0, v.ctx.writes), IvarWrite(f.owner, field, v.val.ty)) by {
      ApplyWritesAppend(st0, v.ctx.writes, [IvarWrite(f.owner, field, v.val.ty)]);
    }
  }

  /** A call that no method of the program handles and that no signature of the
      built-in table matches is reported on its line, naming the method, and
      yields the bottom type. */
  lemma UnresolvedCallReports(prog: Program, st0: Store, f: Frame, recv: Expr, name: string, args: seq<Expr>, line: nat, ctx: Ctx, fuel: nat)
    requires var v := Eval(prog, st0, f, recv, ctx, fuel);
      var a := EvalList(prog, st0, f, args, v.ctx, fuel);
      UserTarget(prog, v.val.ty, name).None?
      && Resolve(v.val.ty, name, TypesOf(a.vals), if |args| == 1 then a.vals[0].known else None).NoMatch?
    ensures var v := Eval(prog, st0, f, recv, ctx, fuel);
      var a := EvalList(prog, st0, f, args, v.ctx, fuel);
      var r := Eval(prog, st0, f, Call(recv, name, args, line), ctx, fuel);
      r.val.ty == EMPTY && r.ctx.diags == a.ctx.diags + [Unresolved(name, line)]
  {
    EvalCallStep(prog, st0, f, recv, name, args, line, ctx, fuel);
  }

  /** The contract check runs on every inferred method: a conversion method whose
      inferred type leaves its contract type ends with an ImproperOverloadTypeError
      on its definition line naming it. */
  lemma ContractReported(prog: Program, st0: Store, owner: string, name: string, def: MethodDef,
                         self: Type, args: seq<Type>, writes: seq<Write>, diags: seq<Diagnostic>, fuel: nat)
    requires fuel > 0
    ensures var r := InferReturn(prog, st0, owner, name, def, self, args, writes, diags, fuel);
      name in Contracts && !Within(r.ty, Contracts[name]) ==>
        |r.diags| > 0 && r.diags[|r.diags| - 1].kind == ImproperOverloadTypeError
        && r.diags[|r.diags| - 1].line == def.line && Mentions(r.diags[|r.diags| - 1].message, name)
  {
  }
}
