/** The type lattice of the inference engine.

    A concrete type (an Atom) is a built-in class, a user class instance type or a
    fixed-length tuple whose positions are typed independently. A Type is a union:
    a finite set of atoms. Because a union is a set of atoms, a union never nests
    another union, two unions are equal exactly when they hold the same atoms, and
    the empty set is the bottom type EMPTY ("no type could be derived"). */
module Types {

  /** The built-in classes the engine knows by tag. */
  datatype Prim =
    | Fixnum | Bignum | Float | Str | Sym | NilClass | TrueClass | FalseClass | Hash | Proc

  datatype Variance = Invariant | Covariant | Contravariant

  datatype Atom =
    | PrimType(prim: Prim)
    | ClassType(name: string, variance: Variance)
    | TupleType(elems: seq<set<Atom>>)

  datatype Option<T> = None | Some(value: T)

  /** A union of concrete types. */
  type Type = set<Atom>

  const EMPTY: Type := {}
  const FIXNUM: Type := {PrimType(Fixnum)}
  const BIGNUM: Type := {PrimType(Bignum)}
  const FLOAT: Type := {PrimType(Float)}
  const STRING: Type := {PrimType(Str)}
  const SYMBOL: Type := {PrimType(Sym)}
  const NILCLASS: Type := {PrimType(NilClass)}
  const TRUECLASS: Type := {PrimType(TrueClass)}
  const FALSECLASS: Type := {PrimType(FalseClass)}
  const HASH: Type := {PrimType(Hash)}
  const PROC: Type := {PrimType(Proc)}
  /** Boolean is sugar for the union of TrueClass and FalseClass. */
  const BOOLEAN: Type := {PrimType(TrueClass), PrimType(FalseClass)}
  /** An integer that may have overflowed into a big integer. */
  const INTEGER: Type := {PrimType(Fixnum), PrimType(Bignum)}
  /** Instances of the built-in Range class (the value of `lo..hi`). */
  const RANGE: Type := {ClassType("Range", Invariant)}

  /** The type of a tuple whose positions have the given types. */
  function Tuple(elems: seq<Type>): (t: Type)
    ensures |t| == 1
  {
    {TupleType(elems)}
  }

  /** The type of an instance of exactly the named class. */
  function Instance(name: string): (t: Type)
    ensures |t| == 1
  {
    {ClassType(name, Invariant)}
  }

  /** Union (join) of two types. */
  function Join(a: Type, b: Type): (r: Type)
    ensures a <= r && b <= r
    ensures forall c: Type :: a <= c && b <= c ==> r <= c
  {
    a + b
  }

  /** Join of a whole sequence of types, in order. */
  function JoinAll(ts: seq<Type>): (r: Type)
    ensures forall i :: 0 <= i < |ts| ==> ts[i] <= r
    ensures forall x :: x in r ==> exists i :: 0 <= i < |ts| && x in ts[i]
  {
    if ts == [] then EMPTY else Join(JoinAll(ts[..|ts| - 1]), ts[|ts| - 1])
  }

  /** The one atom of a single-member union. */
  function TheAtom(t: Type): (a: Atom)
    requires |t| == 1
    ensures t == {a}
  {
    SingletonUnion(t);
    var a :| t == {a};
    a
  }

  lemma SingletonUnion(t: Type)
    requires |t| == 1
    ensures exists a :: t == {a}
  {
    var a :| a in t;
    assert |t - {a}| == 0;
    assert t == {a};
  }

  predicate IsEmpty(t: Type) {
    t == EMPTY
  }

  /** `t` stays within the contract type `bound` (every atom of t is allowed). */
  predicate Within(t: Type, bound: Type) {
    t <= bound
  }

  /** JoinAll of a concatenation is the join of the two parts: later joins only widen. */
  lemma {:induction false} JoinAllAppend(ts: seq<Type>, us: seq<Type>)
    ensures JoinAll(ts + us) == Join(JoinAll(ts), JoinAll(us))
    decreases |us|
  {
    if us == [] {
      assert ts + us == ts;
    } else {
      var k := |us| - 1;
      assert (ts + us)[..|ts + us| - 1] == ts + us[..k];
      JoinAllAppend(ts, us[..k]);
    }
  }
}
