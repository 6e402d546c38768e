/** Overload resolution for calls into built-in classes.

    The table below holds the few built-in signatures the engine consults (the
    arithmetic and comparison operators, a handful of String, Symbol and Integer
    methods, and the tuple operations). A call whose receiver or argument is a union
    is resolved member by member: its type is the union of the results of every
    (receiver member, argument member) pair that has a signature. When no pair has
    one, the call is unresolved: the engine reports NoMatchingTypeSignature and the
    call contributes EMPTY. */
module Overloads {
  import opened Types
  import opened Tuples

  /** A value known at the call site, kept so that `t.size - 2` or `t * 3` fold to
      literals the tuple operations can use. */
  datatype Known = KnownInt(n: int) | KnownRange(lo: int, hi: int)

  predicate IsInteger(a: Atom) {
    a == PrimType(Fixnum) || a == PrimType(Bignum)
  }

  /** Signatures of methods called without arguments. */
  function Signature0(a: Atom, name: string): Option<Type> {
    match a
    case PrimType(p) =>
      if name == "to_s" then Some(STRING)
      else if p == Str then
        if name == "to_sym" then Some(SYMBOL)
        else if name == "size" || name == "length" then Some(INTEGER)
        else if name == "strip!" then Some(Join(STRING, NILCLASS))
        else None
      else if p == Sym then
        if name == "size" || name == "length" then Some(INTEGER)
        else if name == "to_sym" then Some(SYMBOL)
        else None
      else if p == Fixnum || p == Bignum then
        if name == "zero?" then Some(BOOLEAN) else None
      else None
    case TupleType(elems) =>
      if name == "size" || name == "length" then Some(FIXNUM)
      else if name == "to_a" || name == "to_ary" then Some({a})
      else None
    case ClassType(_, _) => None
  }

  /** Signatures of methods called with one argument; `lit` is the argument's literal
      value when it has one. */
  function Signature1(a: Atom, name: string, b: Atom, lit: Option<Known>): Option<Type> {
    match a
    case PrimType(p) =>
      if p == Fixnum then
        if name == "*" || name == "+" || name == "-" then
          if b == PrimType(Fixnum) then Some(INTEGER)
          else if b == PrimType(Float) then Some(FLOAT)
          else None
        else if name == ">" || name == "<" then
          if IsInteger(b) || b == PrimType(Float) then Some(BOOLEAN) else None
        else None
      else if p == Bignum then
        if name == "*" || name == "+" || name == "-" then
          if IsInteger(b) then Some(INTEGER) else None
        else if name == ">" || name == "<" then
          if IsInteger(b) || b == PrimType(Float) then Some(BOOLEAN) else None
        else None
      else if p == Float then
        if name == "*" || name == "+" || name == "-" then
          if b == PrimType(Fixnum) || b == PrimType(Float) then Some(FLOAT) else None
        else None
      else if p == Str then
        if name == "*" && b == PrimType(Fixnum) then Some(STRING)
        else if name == "+" && b == PrimType(Str) then Some(STRING)
        else None
      else None
    case TupleType(elems) => TupleSignature(elems, name, b, lit)
    case ClassType(_, _) => None
  }

  /** `[]`, `+` and `*` on a tuple. Element access and replication need the literal
      index or count; an integer index whose value is unknown may select any element. */
  function TupleSignature(elems: seq<Type>, name: string, b: Atom, lit: Option<Known>): Option<Type> {
    if name == "[]" then
      if IsInteger(b) then
        match lit
        case Some(KnownInt(i)) => Some(At(elems, i))
        case _ => Some(AtUnknown(elems))
      else if b == ClassType("Range", Invariant) then
        match lit
        case Some(KnownRange(lo, hi)) => Some(Slice(elems, lo, hi))
        case _ => None
      else None
    else if name == "+" then
      match b
      case TupleType(others) => Some(Tuple(elems + others))
      case _ => None
    else if name == "*" && b == PrimType(Fixnum) then
      match lit
      case Some(KnownInt(k)) => if k >= 0 then Some(Tuple(Replicate(elems, k))) else None
      case _ => None
    else None
  }

  function Out0(a: Atom, name: string): Type {
    match Signature0(a, name)
    case Some(t) => t
    case None => EMPTY
  }

  function Out1(a: Atom, name: string, b: Atom, lit: Option<Known>): Type {
    match Signature1(a, name, b, lit)
    case Some(t) => t
    case None => EMPTY
  }

  /** Some member of the receiver has a signature for `name`. */
  predicate Matches0(recv: Type, name: string) {
    exists a :: a in recv && Signature0(a, name).Some?
  }

  /** Some (receiver member, argument member) pair has a signature for `name`. */
  predicate Matches1(recv: Type, name: string, arg: Type, lit: Option<Known>) {
    exists a, b :: a in recv && b in arg && Signature1(a, name, b, lit).Some?
  }

  /** The union of the per-member results. */
  function Apply0(recv: Type, name: string): Type {
    set a, x {:trigger x in Out0(a, name)} | a in recv && x in Out0(a, name) :: x
  }

  function Apply1(recv: Type, name: string, arg: Type, lit: Option<Known>): Type {
    set a, b, x {:trigger x in Out1(a, name, b, lit)} | a in recv && b in arg && x in Out1(a, name, b, lit) :: x
  }

  datatype Resolution = Resolved(ty: Type) | NoMatch

  /** Resolves a call with the given argument types against the built-in table. An
      empty operand (a value no type could be derived for) resolves to EMPTY without
      a further report; otherwise the call is unresolved exactly when no member
      combination has a signature. No built-in method here takes two or more
      arguments. */
  function Resolve(recv: Type, name: string, args: seq<Type>, lit: Option<Known>): (r: Resolution)
    ensures (recv == EMPTY || EMPTY in args) ==> r == Resolved(EMPTY)
    ensures recv != EMPTY && EMPTY !in args && |args| >= 2 ==> r == NoMatch
  {
    if recv == EMPTY || EMPTY in args then Resolved(EMPTY)
    else if |args| == 0 then
      if Matches0(recv, name) then Resolved(Apply0(recv, name)) else NoMatch
    else if |args| == 1 then
      if Matches1(recv, name, args[0], lit) then Resolved(Apply1(recv, name, args[0], lit)) else NoMatch
    else NoMatch
  }

  /** What resolution means member by member, for non-empty operands: the call is
      unresolved exactly when no member combination has a signature, and otherwise
      its type holds the output of every matching combination and nothing else. */
  lemma ResolveMembers(recv: Type, name: string, arg: Type, lit: Option<Known>)
    requires recv != EMPTY && arg != EMPTY
    ensures Resolve(recv, name, [arg], lit).NoMatch? <==>
      forall a, b :: a in recv && b in arg ==> Signature1(a, name, b, lit).None?
    ensures Resolve(recv, name, [], None).NoMatch? <==>
      forall a :: a in recv ==> Signature0(a, name).None?
    ensures Resolve(recv, name, [arg], lit).Resolved? ==>
      (forall a, b :: a in recv && b in arg ==> Out1(a, name, b, lit) <= Resolve(recv, name, [arg], lit).ty)
      && (forall x :: x in Resolve(recv, name, [arg], lit).ty ==>
            exists a, b :: a in recv && b in arg && x in Out1(a, name, b, lit))
    ensures Resolve(recv, name, [], None).Resolved? ==>
      (forall a :: a in recv ==> Out0(a, name) <= Resolve(recv, name, [], None).ty)
      && (forall x :: x in Resolve(recv, name, [], None).ty ==> exists a :: a in recv && x in Out0(a, name))
  {
    assert EMPTY !in [arg];
  }

  /** The outcome of resolving against a union operand, from the outcomes for its
      two parts: the results join, and it is unresolved only if both parts are. */
  function Combine(r1: Resolution, r2: Resolution): Resolution {
    match (r1, r2)
    case (NoMatch, NoMatch) => NoMatch
    case (Resolved(t), NoMatch) => Resolved(t)
    case (NoMatch, Resolved(u)) => Resolved(u)
    case (Resolved(t), Resolved(u)) => Resolved(Join(t, u))
  }

  /** Literal folding: a tuple's `size`/`length` is its length, and integer
      literals subtract and add to literals. */
  function Fold(recv: Type, recvKnown: Option<Known>, name: string, argKnown: seq<Option<Known>>): Option<Known> {
    if |recv| == 1 && (name == "size" || name == "length") && |argKnown| == 0 then
      match TheAtom(recv)
      case TupleType(elems) => Some(KnownInt(|elems|))
      case _ => None
    else if |argKnown| == 1 && (name == "-" || name == "+") then
      match (recvKnown, argKnown[0])
      case (Some(KnownInt(x)), Some(KnownInt(y))) => Some(KnownInt(if name == "-" then x - y else x + y))
      case _ => None
    else None
  }

  // ---------------------------------------------------------------------------
  // Resolution over unions

  /** On single-member operands, resolution is the table entry itself. */
  lemma Apply1Single(a: Atom, name: string, b: Atom, lit: Option<Known>)
    ensures Apply1({a}, name, {b}, lit) == Out1(a, name, b, lit)
    ensures Matches1({a}, name, {b}, lit) <==> Signature1(a, name, b, lit).Some?
  {
    forall x | x in Out1(a, name, b, lit) ensures x in Apply1({a}, name, {b}, lit) {
    }
  }

  lemma Apply0Single(a: Atom, name: string)
    ensures Apply0({a}, name) == Out0(a, name)
    ensures Matches0({a}, name) <==> Signature0(a, name).Some?
  {
    forall x | x in Out0(a, name) ensures x in Apply0({a}, name) {
    }
  }

  /** A union receiver resolves to the union of its parts' results, and has a
      signature when either part has one. */
  lemma Apply1JoinReceiver(r1: Type, r2: Type, name: string, arg: Type, lit: Option<Known>)
    ensures Apply1(Join(r1, r2), name, arg, lit) == Join(Apply1(r1, name, arg, lit), Apply1(r2, name, arg, lit))
    ensures Matches1(Join(r1, r2), name, arg, lit) <==> Matches1(r1, name, arg, lit) || Matches1(r2, name, arg, lit)
  {
    var lhs := Apply1(Join(r1, r2), name, arg, lit);
    var rhs := Join(Apply1(r1, name, arg, lit), Apply1(r2, name, arg, lit));
    forall x | x in lhs ensures x in rhs {
      var a, b :| a in Join(r1, r2) && b in arg && x in Out1(a, name, b, lit);
      if a in r1 { assert x in Apply1(r1, name, arg, lit); } else { assert x in Apply1(r2, name, arg, lit); }
    }
    forall x | x in rhs ensures x in lhs {
      if x in Apply1(r1, name, arg, lit) {
        var a, b :| a in r1 && b in arg && x in Out1(a, name, b, lit);
        assert a in Join(r1, r2);
      } else {
        var a, b :| a in r2 && b in arg && x in Out1(a, name, b, lit);
        assert a in Join(r1, r2);
      }
    }
    if Matches1(Join(r1, r2), name, arg, lit) {
      var a, b :| a in Join(r1, r2) && b in arg && Signature1(a, name, b, lit).Some?;
      if a in r1 { assert Matches1(r1, name, arg, lit); } else { assert Matches1(r2, name, arg, lit); }
    }
    if Matches1(r1, name, arg, lit) {
      var a, b :| a in r1 && b in arg && Signature1(a, name, b, lit).Some?;
      assert a in Join(r1, r2);
    }
    if Matches1(r2, name, arg, lit) {
      var a, b :| a in r2 && b in arg && Signature1(a, name, b, lit).Some?;
      assert a in Join(r1, r2);
    }
  }

  /** A union argument resolves to the union of the results for its parts. */
  lemma Apply1JoinArgument(recv: Type, name: string, b1: Type, b2: Type, lit: Option<Known>)
    ensures Apply1(recv, name, Join(b1, b2), lit) == Join(Apply1(recv, name, b1, lit), Apply1(recv, name, b2, lit))
    ensures Matches1(recv, name, Join(b1, b2), lit) <==> Matches1(recv, name, b1, lit) || Matches1(recv, name, b2, lit)
  {
    var lhs := Apply1(recv, name, Join(b1, b2), lit);
    var rhs := Join(Apply1(recv, name, b1, lit), Apply1(recv, name, b2, lit));
    forall x | x in lhs ensures x in rhs {
      var a, b :| a in recv && b in Join(b1, b2) && x in Out1(a, name, b, lit);
      if b in b1 { assert x in Apply1(recv, name, b1, lit); } else { assert x in Apply1(recv, name, b2, lit); }
    }
    forall x | x in rhs ensures x in lhs {
      if x in Apply1(recv, name, b1, lit) {
        var a, b :| a in recv && b in b1 && x in Out1(a, name, b, lit);
        assert b in Join(b1, b2);
      } else {
        var a, b :| a in recv && b in b2 && x in Out1(a, name, b, lit);
        assert b in Join(b1, b2);
      }
    }
    if Matches1(recv, name, Join(b1, b2), lit) {
      var a, b :| a in recv && b in Join(b1, b2) && Signature1(a, name, b, lit).Some?;
      if b in b1 { assert Matches1(recv, name, b1, lit); } else { assert Matches1(recv, name, b2, lit); }
    }
    if Matches1(recv, name, b1, lit) {
      var a, b :| a in recv && b in b1 && Signature1(a, name, b, lit).Some?;
      assert b in Join(b1, b2);
    }
    if Matches1(recv, name, b2, lit) {
      var a, b :| a in recv && b in b2 && Signature1(a, name, b, lit).Some?;
      assert b in Join(b1, b2);
    }
  }

  lemma Apply0JoinReceiver(r1: Type, r2: Type, name: string)
    ensures Apply0(Join(r1, r2), name) == Join(Apply0(r1, name), Apply0(r2, name))
    ensures Matches0(Join(r1, r2), name) <==> Matches0(r1, name) || Matches0(r2, name)
  {
    var lhs := Apply0(Join(r1, r2), name);
    var rhs := Join(Apply0(r1, name), Apply0(r2, name));
    forall x | x in lhs ensures x in rhs {
      var a :| a in Join(r1, r2) && x in Out0(a, name);
      if a in r1 { assert x in Apply0(r1, name); } else { assert x in Apply0(r2, name); }
    }
    forall x | x in rhs ensures x in lhs {
      if x in Apply0(r1, name) {
        var a :| a in r1 && x in Out0(a, name);
        assert a in Join(r1, r2);
      } else {
        var a :| a in r2 && x in Out0(a, name);
        assert a in Join(r1, r2);
      }
    }
    if Matches0(Join(r1, r2), name) {
      var a :| a in Join(r1, r2) && Signature0(a, name).Some?;
      if a in r1 { assert Matches0(r1, name); } else { assert Matches0(r2, name); }
    }
    if Matches0(r1, name) {
      var a :| a in r1 && Signature0(a, name).Some?;
      assert a in Join(r1, r2);
    }
    if Matches0(r2, name) {
      var a :| a in r2 && Signature0(a, name).Some?;
      assert a in Join(r1, r2);
    }
  }

  // ---------------------------------------------------------------------------
  // Resolution of whole calls

  function FromSignature(sig: Option<Type>): Resolution {
    match sig
    case Some(t) => Resolved(t)
    case None => NoMatch
  }

  /** With single-member operands, a call resolves to its table entry, and is
      unresolved when the table has none. */
  lemma ResolveSingle1(a: Atom, name: string, b: Atom, lit: Option<Known>)
    ensures Resolve({a}, name, [{b}], lit) == FromSignature(Signature1(a, name, b, lit))
  {
    Apply1Single(a, name, b, lit);
  }

  lemma ResolveSingle0(a: Atom, name: string)
    ensures Resolve({a}, name, [], None) == FromSignature(Signature0(a, name))
  {
    Apply0Single(a, name);
  }

  /** A union receiver is resolved member by member: the results join, and the call
      is unresolved only when it is unresolved for every part. */
  lemma ResolveJoinReceiver1(r1: Type, r2: Type, name: string, arg: Type, lit: Option<Known>)
    requires r1 != EMPTY && r2 != EMPTY
    ensures Resolve(Join(r1, r2), name, [arg], lit) ==
      Combine(Resolve(r1, name, [arg], lit), Resolve(r2, name, [arg], lit))
  {
    Apply1JoinReceiver(r1, r2, name, arg, lit);
  }

  /** A union argument is resolved member by member in the same way. */
  lemma ResolveJoinArgument1(recv: Type, name: string, b1: Type, b2: Type, lit: Option<Known>)
    requires b1 != EMPTY && b2 != EMPTY
    ensures Resolve(recv, name, [Join(b1, b2)], lit) ==
      Combine(Resolve(recv, name, [b1], lit), Resolve(recv, name, [b2], lit))
  {
    Apply1JoinArgument(recv, name, b1, b2, lit);
  }

  lemma ResolveJoinReceiver0(r1: Type, r2: Type, name: string)
    requires r1 != EMPTY && r2 != EMPTY
    ensures Resolve(Join(r1, r2), name, [], None) ==
      Combine(Resolve(r1, name, [], None), Resolve(r2, name, [], None))
  {
    Apply0JoinReceiver(r1, r2, name);
  }

  // ---------------------------------------------------------------------------
  // The `*` table

  /** Fixnum * Float is Float. */
  lemma FixnumTimesFloat()
    ensures Resolve(FIXNUM, "*", [FLOAT], None) == Resolved(FLOAT)
  {
    ResolveSingle1(PrimType(Fixnum), "*", PrimType(Float), None);
  }

  /** Fixnum * Fixnum may overflow into a Bignum. */
  lemma FixnumTimesFixnum(lit: Option<Known>)
    ensures Resolve(FIXNUM, "*", [FIXNUM], lit) == Resolved(INTEGER)
  {
    ResolveSingle1(PrimType(Fixnum), "*", PrimType(Fixnum), lit);
  }

  /** String * Fixnum repeats the string. */
  lemma StringTimesFixnum(lit: Option<Known>)
    ensures Resolve(STRING, "*", [FIXNUM], lit) == Resolved(STRING)
  {
    ResolveSingle1(PrimType(Str), "*", PrimType(Fixnum), lit);
  }

  /** Float * Fixnum is Float. */
  lemma FloatTimesFixnum(lit: Option<Known>)
    ensures Resolve(FLOAT, "*", [FIXNUM], lit) == Resolved(FLOAT)
  {
    ResolveSingle1(PrimType(Float), "*", PrimType(Fixnum), lit);
  }

  /** Fixnum has no `*` taking a String or a Symbol. */
  lemma FixnumTimesText(lit: Option<Known>)
    ensures Resolve(FIXNUM, "*", [STRING], lit) == NoMatch
    ensures Resolve(FIXNUM, "*", [SYMBOL], lit) == NoMatch
  {
    ResolveSingle1(PrimType(Fixnum), "*", PrimType(Str), lit);
    ResolveSingle1(PrimType(Fixnum), "*", PrimType(Sym), lit);
  }

  /** {String, Fixnum} * Fixnum is {String, Fixnum, Bignum}: the union of the
      per-member results. */
  lemma UnionTimesFixnum(lit: Option<Known>)
    ensures Resolve(Join(STRING, FIXNUM), "*", [FIXNUM], lit) == Resolved(Join(STRING, INTEGER))
  {
    StringTimesFixnum(lit);
    FixnumTimesFixnum(lit);
    ResolveJoinReceiver1(STRING, FIXNUM, "*", FIXNUM, lit);
  }

  /** Fixnum * {String, Symbol}: no member combination has a signature. */
  lemma FixnumTimesUnionUnresolved(lit: Option<Known>)
    ensures Resolve(FIXNUM, "*", [Join(STRING, SYMBOL)], lit) == NoMatch
  {
    FixnumTimesText(lit);
    ResolveJoinArgument1(FIXNUM, "*", STRING, SYMBOL, lit);
  }

  // ---------------------------------------------------------------------------
  // String, Symbol and Integer methods

  /** `String#size` is an Integer, `String#to_sym` a Symbol, and `String#strip!`
      a String or nil (nil when nothing was stripped). */
  lemma StringMethods()
    ensures Resolve(STRING, "size", [], None) == Resolved(INTEGER)
    ensures Resolve(STRING, "to_sym", [], None) == Resolved(SYMBOL)
    ensures Resolve(STRING, "strip!", [], None) == Resolved(Join(STRING, NILCLASS))
  {
    StringSize();
    ResolveSingle0(PrimType(Str), "to_sym");
    StringStrip();
  }

  lemma StringStrip()
    ensures Resolve(STRING, "strip!", [], None) == Resolved(Join(STRING, NILCLASS))
  {
    ResolveSingle0(PrimType(Str), "strip!");
  }

  lemma StringSize()
    ensures Resolve(STRING, "size", [], None) == Resolved(INTEGER)
  {
    ResolveSingle0(PrimType(Str), "size");
  }

  /** `Symbol#size` is an Integer. */
  lemma SymbolSize()
    ensures Resolve(SYMBOL, "size", [], None) == Resolved(INTEGER)
  {
    ResolveSingle0(PrimType(Sym), "size");
  }

  /** On an Integer (Fixnum or Bignum), `zero?` is a Boolean and `to_s` a String. */
  lemma IntegerMethods()
    ensures Resolve(INTEGER, "zero?", [], None) == Resolved(BOOLEAN)
    ensures Resolve(INTEGER, "to_s", [], None) == Resolved(STRING)
  {
    ResolveSingle0(PrimType(Fixnum), "zero?");
    ResolveSingle0(PrimType(Bignum), "zero?");
    ResolveJoinReceiver0(FIXNUM, BIGNUM, "zero?");
    ResolveSingle0(PrimType(Fixnum), "to_s");
    ResolveSingle0(PrimType(Bignum), "to_s");
    ResolveJoinReceiver0(FIXNUM, BIGNUM, "to_s");
  }

  /** Comparing an Integer with a Fixnum is a Boolean. */
  lemma IntegerGreater(lit: Option<Known>)
    ensures Resolve(FIXNUM, ">", [FIXNUM], lit) == Resolved(BOOLEAN)
    ensures Resolve(INTEGER, ">", [FIXNUM], lit) == Resolved(BOOLEAN)
  {
    FixnumGreater(lit);
    BignumGreater(lit);
    ResolveJoinReceiver1(FIXNUM, BIGNUM, ">", FIXNUM, lit);
    assert Join(BOOLEAN, BOOLEAN) == BOOLEAN;
  }

  lemma BignumGreater(lit: Option<Known>)
    ensures Resolve(BIGNUM, ">", [FIXNUM], lit) == Resolved(BOOLEAN)
  {
    assert ">" != "*" && ">" != "+" && ">" != "-";
    ResolveSingle1(PrimType(Bignum), ">", PrimType(Fixnum), lit);
  }

  lemma FixnumGreater(lit: Option<Known>)
    ensures Resolve(FIXNUM, ">", [FIXNUM], lit) == Resolved(BOOLEAN)
  {
    assert ">" != "*" && ">" != "+" && ">" != "-";
    ResolveSingle1(PrimType(Fixnum), ">", PrimType(Fixnum), lit);
  }

  // ---------------------------------------------------------------------------
  // Tuple methods

  /** `t[i]` with a literal integer index is the element at i (from the end when
      negative), or NilClass out of bounds; an index whose value is not known may
      be any element, or nil. */
  lemma TupleIndex(elems: seq<Type>, i: int)
    ensures Resolve(Tuple(elems), "[]", [FIXNUM], Some(KnownInt(i))) == Resolved(At(elems, i))
    ensures Resolve(Tuple(elems), "[]", [INTEGER], Some(KnownInt(i))) == Resolved(At(elems, i))
    ensures Resolve(Tuple(elems), "[]", [FIXNUM], None) == Resolved(AtUnknown(elems))
  {
    ResolveSingle1(TupleType(elems), "[]", PrimType(Fixnum), Some(KnownInt(i)));
    ResolveSingle1(TupleType(elems), "[]", PrimType(Bignum), Some(KnownInt(i)));
    ResolveJoinArgument1(Tuple(elems), "[]", FIXNUM, BIGNUM, Some(KnownInt(i)));
    ResolveSingle1(TupleType(elems), "[]", PrimType(Fixnum), None);
  }

  /** `t[lo..hi]` with literal bounds is the slice Ruby's Array#[] selects. */
  lemma TupleSlice(elems: seq<Type>, lo: int, hi: int)
    ensures Resolve(Tuple(elems), "[]", [RANGE], Some(KnownRange(lo, hi))) == Resolved(Slice(elems, lo, hi))
  {
    ResolveSingle1(TupleType(elems), "[]", ClassType("Range", Invariant), Some(KnownRange(lo, hi)));
  }

  /** `t.size` and `t.length` are Fixnums whose value, the tuple's length, is known. */
  lemma TupleSize(elems: seq<Type>, name: string)
    requires name == "size" || name == "length"
    ensures Resolve(Tuple(elems), name, [], None) == Resolved(FIXNUM)
    ensures Fold(Tuple(elems), None, name, []) == Some(KnownInt(|elems|))
  {
    ResolveSingle0(TupleType(elems), name);
    assert TheAtom(Tuple(elems)) == TupleType(elems);
  }

  /** Subtracting a literal from a Fixnum is an Integer; between literals it folds
      to their difference. */
  lemma FixnumMinus(x: int, y: int)
    ensures Resolve(FIXNUM, "-", [FIXNUM], Some(KnownInt(y))) == Resolved(INTEGER)
    ensures Fold(FIXNUM, Some(KnownInt(x)), "-", [Some(KnownInt(y))]) == Some(KnownInt(x - y))
  {
    ResolveSingle1(PrimType(Fixnum), "-", PrimType(Fixnum), Some(KnownInt(y)));
    FoldMinus(FIXNUM, x, y);
  }

  lemma FoldMinus(recv: Type, x: int, y: int)
    ensures Fold(recv, Some(KnownInt(x)), "-", [Some(KnownInt(y))]) == Some(KnownInt(x - y))
  {
    assert "-" != "size" && "-" != "length";
  }

  /** `to_a` and `to_ary` on a tuple are the tuple itself. */
  lemma TupleToA(elems: seq<Type>, name: string)
    requires name == "to_a" || name == "to_ary"
    ensures Resolve(Tuple(elems), name, [], None) == Resolved(Tuple(elems))
  {
    ResolveSingle0(TupleType(elems), name);
  }

  /** `a + b` on tuples is the concatenation of their element types. */
  lemma TupleConcat(a: seq<Type>, b: seq<Type>, lit: Option<Known>)
    ensures Resolve(Tuple(a), "+", [Tuple(b)], lit) == Resolved(Tuple(a + b))
  {
    ResolveSingle1(TupleType(a), "+", TupleType(b), lit);
  }

  /** `t * k` with a literal k >= 0 repeats the element types k times; a negative
      or unknown count matches no signature. */
  lemma TupleReplicate(elems: seq<Type>, k: int)
    ensures k >= 0 ==> Resolve(Tuple(elems), "*", [FIXNUM], Some(KnownInt(k))) == Resolved(Tuple(Replicate(elems, k)))
    ensures k < 0 ==> Resolve(Tuple(elems), "*", [FIXNUM], Some(KnownInt(k))) == NoMatch
    ensures Resolve(Tuple(elems), "*", [FIXNUM], None) == NoMatch
  {
    ResolveSingle1(TupleType(elems), "*", PrimType(Fixnum), Some(KnownInt(k)));
    ResolveSingle1(TupleType(elems), "*", PrimType(Fixnum), None);
  }
}
