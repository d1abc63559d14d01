/** Shared vocabulary of the model: point variables, failure-carrying results,
    and duplicate-free enumerations of finite sets (the order in which the
    source's `list(someSet)` happens to list a set). */
module Common {

  /** A point variable: an opaque name. The solver's own tests use integers. */
  type Var = int

  datatype Option<T> = None | Some(value: T)

  /** An operation that either yields a value or raises an error. */
  datatype Result<T, E> = Ok(value: T) | Err(error: E)

  /** The elements of a sequence, as a set. */
  function Elems(xs: seq<Var>): set<Var>
  {
    set x | x in xs
  }

  /** The distinct elements of a collection counted with repetition. */
  function Support(m: multiset<Var>): set<Var>
  {
    set x | x in m
  }

  /** No variable occurs twice in `xs`. */
  predicate Distinct(xs: seq<Var>)
  {
    forall i, j :: 0 <= i < |xs| && 0 <= j < |xs| && i != j ==> xs[i] != xs[j]
  }

  /** `xs` lists every element of `s` exactly once, in some order. */
  predicate Enumerates(xs: seq<Var>, s: set<Var>)
  {
    Distinct(xs) && Elems(xs) == s
  }

  /** `Distinct`, with its instances produced only on request, through
      `Differ`: proofs that unfold the loop sets of the over-constraint
      detector mention many elements of `xs`, and an eager quantifier over
      every pair of indices would be instantiated for each of them. */
  ghost predicate Apart(xs: seq<Var>)
  {
    forall p, q {:trigger Differ(xs, p, q)} :: 0 <= p < |xs| && 0 <= q < |xs| && p != q ==> Differ(xs, p, q)
  }

  /** Positions p and q of `xs` hold different variables. */
  ghost predicate Differ(xs: seq<Var>, p: int, q: int)
  {
    0 <= p < |xs| && 0 <= q < |xs| && xs[p] != xs[q]
  }

  /** In an `Apart` sequence a variable sits at one position only. */
  lemma SamePosition(xs: seq<Var>, p: int, q: int)
    requires Apart(xs) && 0 <= p < |xs| && 0 <= q < |xs| && xs[p] == xs[q]
    ensures p == q
  {
    assert p != q ==> Differ(xs, p, q);
  }

  /** A member of `xs` sits at some position. */
  lemma PositionOf(xs: seq<Var>, a: Var) returns (p: nat)
    requires a in Elems(xs)
    ensures p < |xs| && xs[p] == a
  {
    assert a in xs;
    p :| 0 <= p < |xs| && xs[p] == a;
  }

  /** A set that is not inside another has an element outside it. */
  lemma Outside(a: set<Var>, b: set<Var>)
    requires !(a <= b)
    ensures exists v :: v in a && v !in b
  {
    if forall v :: v in a ==> v in b {
      assert false;
    }
  }

  /** A non-empty set has an element. */
  lemma Inhabited(s: set<Var>)
    requires s != {}
    ensures exists v :: v in s
  {
    Outside(s, {});
  }

  /** Every entry of `xs` is in its set. */
  lemma ElemsAt(xs: seq<Var>)
    ensures forall i :: 0 <= i < |xs| ==> xs[i] in Elems(xs)
  {
  }

  lemma DistinctApart(xs: seq<Var>)
    requires Distinct(xs)
    ensures Apart(xs)
  {
  }

  /** Disjoint sets add up. */
  lemma UnionCard<T>(a: set<T>, b: set<T>)
    requires a * b == {}
    ensures |a + b| == |a| + |b|
  {
  }

  /** A duplicate-free sequence has as many elements as its set. */
  lemma {:induction false} DistinctCard(xs: seq<Var>)
    requires Distinct(xs)
    ensures |Elems(xs)| == |xs|
  {
    if xs != [] {
      var init := xs[..|xs| - 1];
      var last := xs[|xs| - 1];
      assert Distinct(init);
      DistinctCard(init);
      assert Elems(xs) == Elems(init) + {last} by {
        assert xs == init + [last];
      }
      assert last !in Elems(init) by {
        forall k | 0 <= k < |init|
          ensures init[k] != last
        {
          assert xs[k] != xs[|xs| - 1];
        }
      }
    }
  }

  /** A subset is no larger than its superset. */
  lemma SubsetCard(a: set<Var>, b: set<Var>)
    requires a <= b
    ensures |a| <= |b|
  {
    assert b == a + (b - a);
  }

  /** A set counted with repetition has exactly its own elements, once each. */
  lemma SupportOfSet(s: set<Var>)
    ensures Support(multiset(s)) == s && |multiset(s)| == |s|
  {
  }
}
