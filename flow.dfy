/** Flow-sensitive local variable types.

    The engine walks a method body in SSA style: every assignment binds a new
    version of its variable, so the environment maps each variable to the type of
    its current version. Where an if/else joins, the merged version's type is the
    union of the versions live on the two incoming edges, and a branch that never
    assigned the variable contributes NilClass (Ruby reads such a variable as nil). */
module Flow {
  import opened Types

  type Env = map<string, Type>

  /** The type of the current version of x; a variable never assigned reads as nil. */
  function Lookup(env: Env, x: string): Type {
    if x in env then env[x] else NILCLASS
  }

  /** A new version of x: the assignment replaces the type, it does not widen it. */
  function Bind(env: Env, x: string, t: Type): (r: Env)
    ensures Lookup(r, x) == t
    ensures forall y :: y != x ==> Lookup(r, y) == Lookup(env, y)
  {
    env[x := t]
  }

  /** The merge (phi) versions at an if/else join. */
  function Merge(e1: Env, e2: Env): (m: Env)
    ensures m.Keys == e1.Keys + e2.Keys
  {
    map x | x in e1.Keys + e2.Keys :: Join(Lookup(e1, x), Lookup(e2, x))
  }

  /** After a join every variable has the union of its incoming types. */
  lemma MergeLookup(e1: Env, e2: Env, x: string)
    ensures Lookup(Merge(e1, e2), x) == Join(Lookup(e1, x), Lookup(e2, x))
  {
  }

  /** A variable assigned on only one branch merges with NilClass. */
  lemma MergeOneSided(e1: Env, e2: Env, x: string)
    requires x in e1 && x !in e2
    ensures Lookup(Merge(e1, e2), x) == Join(e1[x], NILCLASS)
    ensures Lookup(Merge(e2, e1), x) == Join(NILCLASS, e1[x])
  {
  }

  /** The merged type covers what each branch saw, and nothing else. */
  lemma MergeCovers(e1: Env, e2: Env, x: string)
    ensures Lookup(e1, x) <= Lookup(Merge(e1, e2), x)
    ensures Lookup(e2, x) <= Lookup(Merge(e1, e2), x)
    ensures forall a :: a in Lookup(Merge(e1, e2), x) ==> a in Lookup(e1, x) || a in Lookup(e2, x)
  {
  }

  /** Branch order does not matter at a join. */
  lemma MergeCommutes(e1: Env, e2: Env)
    ensures Merge(e1, e2) == Merge(e2, e1)
  {
    assert forall x :: x in Merge(e1, e2) ==> Merge(e1, e2)[x] == Merge(e2, e1)[x];
  }

  /** Joining two identical branches changes nothing. */
  lemma MergeSame(e: Env)
    ensures Merge(e, e) == e
  {
    assert forall x :: x in e ==> Merge(e, e)[x] == e[x];
  }
}
