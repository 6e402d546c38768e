/** The tuple algebra: what the engine infers for element access, range slicing,
    `size`, `+`, `*` and destructuring on a tuple of element types. Positions follow
    Ruby's Array semantics, because the inferred tuple mirrors the array it types. */
module Tuples {
  import opened Types

  /** A literal index counted from the end when negative. */
  function Position(i: int, n: nat): int {
    if i < 0 then i + n else i
  }

  /** `t[i]` for a literal `i`: the element type, or NilClass when out of bounds. */
  function At(elems: seq<Type>, i: int): (r: Type)
    ensures 0 <= i < |elems| ==> r == elems[i]
    ensures -|elems| <= i < 0 ==> r == elems[|elems| + i]
    ensures (i < -|elems| || |elems| <= i) ==> r == NILCLASS
  {
    var k := Position(i, |elems|);
    if 0 <= k < |elems| then elems[k] else NILCLASS
  }

  /** `t[i]` for an index whose value is unknown: any element, or nil. */
  function AtUnknown(elems: seq<Type>): (r: Type)
    ensures forall i: int :: At(elems, i) <= r
  {
    Join(JoinAll(elems), NILCLASS)
  }

  /** The element types selected by the inclusive range `lo..hi`, or None where Ruby
      answers nil: a start that, resolved against the length, falls before 0 or past
      the end. The end is resolved the same way and clamped to the last element. */
  function SliceRange(elems: seq<Type>, lo: int, hi: int): (r: Option<seq<Type>>)
    ensures r.Some? ==> |r.value| <= |elems|
    ensures r.Some? ==> forall k :: 0 <= k < |r.value| ==> r.value[k] in elems
  {
    var n := |elems|;
    var start := Position(lo, n);
    if start < 0 || start > n then None
    else
      var stop := Position(hi, n) + 1;
      var stop' := if stop > n then n else stop;
      if stop' <= start then Some([]) else Some(elems[start..stop'])
  }

  /** `t[lo..hi]`: a tuple of the selected element types, or NilClass. */
  function Slice(elems: seq<Type>, lo: int, hi: int): (r: Type)
    ensures r == NILCLASS <==> SliceRange(elems, lo, hi).None?
    ensures SliceRange(elems, lo, hi).Some? ==> r == Tuple(SliceRange(elems, lo, hi).value)
  {
    match SliceRange(elems, lo, hi)
    case None => NILCLASS
    case Some(s) => Tuple(s)
  }

  /** `t * n`: the element sequence repeated n times. */
  function Replicate(elems: seq<Type>, n: nat): seq<Type> {
    if n == 0 then [] else elems + Replicate(elems, n - 1)
  }

  /** `a, b, c = t`: the type bound to the target at position i. A tuple binds its
      element (NilClass past its end); any other value binds to the first target and
      leaves the rest nil. */
  function DestructureAtom(a: Atom, i: nat): Type {
    match a
    case TupleType(elems) => At(elems, i)
    case _ => if i == 0 then {a} else NILCLASS
  }

  /** Destructuring a union: the join of every member's contribution. */
  function Destructure(t: Type, i: nat): Type {
    set a, x | a in t && x in DestructureAtom(a, i) :: x
  }

  // ---------------------------------------------------------------------------
  // Element access

  /** A negative index counts from the end: `t[i - n]` is `t[i]`. */
  lemma AtNegative(elems: seq<Type>, i: int)
    requires 0 <= i < |elems|
    ensures At(elems, i - |elems|) == At(elems, i) == elems[i]
  {
  }

  /** Exactly the indices in [-n, n) select an element; all others give NilClass. */
  lemma AtInRange(elems: seq<Type>, i: int)
    ensures (-|elems| <= i < |elems|) <==> 0 <= Position(i, |elems|) < |elems|
    ensures !(-|elems| <= i < |elems|) ==> At(elems, i) == NILCLASS
  {
  }

  // ---------------------------------------------------------------------------
  // Slicing

  /** What a successful slice holds: a contiguous run of the original positions,
      from the resolved start up to the resolved end clamped to the last element
      (empty when that end lies before the start). */
  lemma SliceContents(elems: seq<Type>, lo: int, hi: int)
    requires SliceRange(elems, lo, hi).Some?
    ensures var s := SliceRange(elems, lo, hi).value;
      var start := Position(lo, |elems|);
      var stop := if Position(hi, |elems|) + 1 > |elems| then |elems| else Position(hi, |elems|) + 1;
      && 0 <= start <= |elems|
      && |s| == (if stop <= start then 0 else stop - start)
      && (forall k :: 0 <= k < |s| ==> s[k] == At(elems, start + k))
  {
  }

  /** The slice is nil exactly when the resolved start lies outside [0, n]. */
  lemma SliceNil(elems: seq<Type>, lo: int, hi: int)
    ensures SliceRange(elems, lo, hi).None? <==>
      (lo < -|elems| || lo > |elems|)
  {
  }

  /** A range covering the whole tuple, from either end, returns the whole tuple:
      an end past the length is clamped. */
  lemma SliceWhole(elems: seq<Type>, lo: int, hi: int)
    requires lo == 0 || lo == -|elems|
    requires hi >= |elems| - 1 || hi == -1
    ensures SliceRange(elems, lo, hi) == Some(elems)
  {
    if |elems| > 0 {
      assert elems[0..|elems|] == elems;
    }
  }

  /** Taking the single-position range `i..i` of an in-range index gives a
      one-element tuple holding `t[i]`. */
  lemma SliceSingle(elems: seq<Type>, i: int)
    requires -|elems| <= i < |elems|
    ensures SliceRange(elems, i, i) == Some([At(elems, i)])
  {
    var k := Position(i, |elems|);
    assert elems[k..k + 1] == [elems[k]];
  }

  // ---------------------------------------------------------------------------
  // Concatenation

  /** `a + b` keeps every position of a, then every position of b, in order. */
  lemma {:induction false} ConcatAt(a: seq<Type>, b: seq<Type>, i: int)
    requires 0 <= i < |a| + |b|
    ensures |a + b| == |a| + |b|
    ensures At(a + b, i) == if i < |a| then At(a, i) else At(b, i - |a|)
  {
  }

  /** Negative indices into `a + b` count from the end of b. */
  lemma ConcatAtNegative(a: seq<Type>, b: seq<Type>, i: int)
    requires -|b| <= i < 0
    ensures At(a + b, i) == At(b, i)
  {
  }

  // ---------------------------------------------------------------------------
  // Replication

  lemma {:induction false} ReplicateLength(elems: seq<Type>, n: nat)
    ensures |Replicate(elems, n)| == |elems| * n
  {
    if n > 0 {
      ReplicateLength(elems, n - 1);
      assert |elems| * n == |elems| + |elems| * (n - 1);
    }
  }

  /** Position `q * |t| + r` of `t * n` is position r of t: the original sequence
      repeated n times in order. */
  lemma {:induction false} ReplicateAt(elems: seq<Type>, n: nat, q: nat, r: nat)
    requires q < n && r < |elems|
    ensures |Replicate(elems, n)| == |elems| * n
    ensures q * |elems| + r < |elems| * n
    ensures Replicate(elems, n)[q * |elems| + r] == elems[r]
  {
    ReplicateLength(elems, n);
    var m := |elems|;
    assert m * n == m + m * (n - 1);
    if q > 0 {
      ReplicateAt(elems, n - 1, q - 1, r);
      assert q * m == (q - 1) * m + m;
    }
  }

  /** Replicating m + n times is replicating m times followed by n times. */
  lemma {:induction false} ReplicateAdd(elems: seq<Type>, m: nat, n: nat)
    ensures Replicate(elems, m + n) == Replicate(elems, m) + Replicate(elems, n)
  {
    if m > 0 {
      ReplicateAdd(elems, m - 1, n);
      assert m + n - 1 == (m - 1) + n;
    }
  }

  /** Replication repeats the element types and introduces no others: for a
      positive count, a type occurs in `t * n` exactly when it occurs in t. */
  lemma {:induction false} ReplicateMembers(elems: seq<Type>, n: nat, a: Type)
    ensures a in Replicate(elems, n) ==> a in elems
    ensures n > 0 ==> (a in Replicate(elems, n) <==> a in elems)
  {
    if n > 0 {
      ReplicateMembers(elems, n - 1, a);
    }
  }

  lemma ReplicateOnce(elems: seq<Type>)
    ensures Replicate(elems, 1) == elems
  {
    assert Replicate(elems, 1) == elems + Replicate(elems, 0);
  }

  // ---------------------------------------------------------------------------
  // Destructuring

  /** Destructuring a union binds each target to the union of what each member binds
      there, and to nothing else. */
  lemma DestructureMembers(t: Type, i: nat)
    ensures forall a :: a in t ==> DestructureAtom(a, i) <= Destructure(t, i)
    ensures forall x :: x in Destructure(t, i) ==> exists a :: a in t && x in DestructureAtom(a, i)
  {
  }

  /** Destructuring a tuple binds position i to `t[i]`, NilClass past the end. */
  lemma DestructureTuple(elems: seq<Type>, i: nat)
    ensures Destructure(Tuple(elems), i) == At(elems, i)
    ensures i >= |elems| ==> Destructure(Tuple(elems), i) == NILCLASS
  {
    var t := Tuple(elems);
    assert TupleType(elems) in t;
    forall x | x in At(elems, i) ensures x in Destructure(t, i) {
      assert x in DestructureAtom(TupleType(elems), i);
    }
  }

  /** Destructuring distributes over a union on the right-hand side. */
  lemma DestructureJoin(t: Type, u: Type, i: nat)
    ensures Destructure(Join(t, u), i) == Join(Destructure(t, i), Destructure(u, i))
  {
    forall x | x in Destructure(Join(t, u), i)
      ensures x in Join(Destructure(t, i), Destructure(u, i))
    {
      var a :| a in Join(t, u) && x in DestructureAtom(a, i);
      if a in t { assert x in Destructure(t, i); } else { assert x in Destructure(u, i); }
    }
    forall x | x in Join(Destructure(t, i), Destructure(u, i))
      ensures x in Destructure(Join(t, u), i)
    {
      if x in Destructure(t, i) {
        var a :| a in t && x in DestructureAtom(a, i);
        assert a in Join(t, u);
      } else {
        var a :| a in u && x in DestructureAtom(a, i);
        assert a in Join(t, u);
      }
    }
  }
}
