/** The sets that the pair loops of cluster.py's over-constraint detector
    build, with their members and sizes. For a duplicate-free `xs` and a pair
    constructor `f`:
    - `LowerPairs(xs, f, i)` is what `for p in range(i): for q in range(p)`
      adds, f(xs[p], xs[q]) for q < p < i (`over_distances`, `over_angles_hh`);
    - `UpperPairs(xs, f, i)` is what `for p in range(i): for q in range(p+1, n)`
      adds, f(xs[p], xs[q]) for p < i and p < q < n (`over_angles_ch`, `_bh`).
    Each nesting level is a `Union` of the level inside it. */
module Pairs {
  import opened Common
  import opened Combinatorics
  import opened Rows

  /** `f` tells its two arguments apart: equal results come from equal pairs. */
  ghost predicate Injective<T>(f: (Var, Var) -> T)
  {
    forall a, b, c, d :: f(a, b) == f(c, d) ==> a == c && b == d
  }

  /** One instance of `Injective`. */
  lemma Injected<T>(f: (Var, Var) -> T, a: Var, b: Var, c: Var, d: Var)
    requires Injective(f) && f(a, b) == f(c, d)
    ensures a == c && b == d
  {
  }

  /** The innermost statement: pass q of row p adds f(xs[p], xs[q]). */
  ghost function Cells<T>(xs: seq<Var>, f: (Var, Var) -> T, p: int): int -> set<T>
  {
    q => if 0 <= p < |xs| && 0 <= q < |xs| then {f(xs[p], xs[q])} else {}
  }

  /** Row p of the lower loop, inner index below j. */
  ghost function LowerRow<T>(xs: seq<Var>, f: (Var, Var) -> T, p: int, j: int): set<T>
  {
    Union(Cells(xs, f, p), 0, j)
  }

  ghost function LowerRows<T>(xs: seq<Var>, f: (Var, Var) -> T): int -> set<T>
  {
    p => LowerRow(xs, f, p, p)
  }

  /** Rows 0..i-1 of the lower loop. */
  ghost function LowerPairs<T>(xs: seq<Var>, f: (Var, Var) -> T, i: int): set<T>
  {
    Union(LowerRows(xs, f), 0, i)
  }

  /** Row p of the upper loop, inner index below j. */
  ghost function UpperRow<T>(xs: seq<Var>, f: (Var, Var) -> T, p: int, j: int): set<T>
  {
    Union(Cells(xs, f, p), p + 1, j)
  }

  ghost function UpperRows<T>(xs: seq<Var>, f: (Var, Var) -> T): int -> set<T>
  {
    p => UpperRow(xs, f, p, |xs|)
  }

  /** Rows 0..i-1 of the upper loop. */
  ghost function UpperPairs<T>(xs: seq<Var>, f: (Var, Var) -> T, i: int): set<T>
  {
    Union(UpperRows(xs, f), 0, i)
  }

  // ----- members -----

  /** A value of row p comes from one pass q in lo..j-1. */
  lemma InRow<T>(xs: seq<Var>, f: (Var, Var) -> T, p: nat, lo: int, j: int, t: T) returns (q: nat)
    requires p < |xs| && 0 <= lo && j <= |xs|
    requires t in Union(Cells(xs, f, p), lo, j)
    ensures lo <= q < j && t == f(xs[p], xs[q])
  {
    UnionMembers(Cells(xs, f, p), lo, j);
    var m :| lo <= m < j && t in Cells(xs, f, p)(m);
    q := m;
  }

  /** The lower loop adds only f(xs[p], xs[q]) with q < p < i. */
  lemma InLowerPairs<T>(xs: seq<Var>, f: (Var, Var) -> T, i: nat, t: T) returns (p: nat, q: nat)
    requires i <= |xs|
    requires t in LowerPairs(xs, f, i)
    ensures q < p < i && t == f(xs[p], xs[q])
  {
    UnionMembers(LowerRows(xs, f), 0, i);
    var m :| 0 <= m < i && t in LowerRows(xs, f)(m);
    p := m;
    q := InRow(xs, f, p, 0, p, t);
  }

  /** The upper loop adds only f(xs[p], xs[q]) with p < i and p < q < n. */
  lemma InUpperPairs<T>(xs: seq<Var>, f: (Var, Var) -> T, i: nat, t: T) returns (p: nat, q: nat)
    requires i <= |xs|
    requires t in UpperPairs(xs, f, i)
    ensures p < i && p < q < |xs| && t == f(xs[p], xs[q])
  {
    UnionMembers(UpperRows(xs, f), 0, i);
    var m :| 0 <= m < i && t in UpperRows(xs, f)(m);
    p := m;
    q := InRow(xs, f, p, p + 1, |xs|, t);
  }

  /** Every index pair q < p < i is visited by the lower loop. */
  lemma LowerPairsHas<T>(xs: seq<Var>, f: (Var, Var) -> T, i: nat, p: nat, q: nat)
    requires q < p < i <= |xs|
    ensures f(xs[p], xs[q]) in LowerPairs(xs, f, i)
  {
    UnionHas(Cells(xs, f, p), 0, p, q);
    UnionHas(LowerRows(xs, f), 0, i, p);
  }

  /** Every index pair p < q with p < i is visited by the upper loop. */
  lemma UpperPairsHas<T>(xs: seq<Var>, f: (Var, Var) -> T, i: nat, p: nat, q: nat)
    requires p < i <= |xs| && p < q < |xs|
    ensures f(xs[p], xs[q]) in UpperPairs(xs, f, i)
  {
    UnionHas(Cells(xs, f, p), p + 1, |xs|, q);
    UnionHas(UpperRows(xs, f), 0, i, p);
  }

  // ----- sizes -----

  /** The passes of one row add one value each, all different. */
  lemma CellsSeparate<T>(xs: seq<Var>, f: (Var, Var) -> T, p: nat, lo: nat, j: nat)
    requires p < |xs| && j <= |xs| && Apart(xs) && Injective(f)
    ensures Separate(Cells(xs, f, p), lo, j)
    ensures forall q :: lo <= q < j ==> |Cells(xs, f, p)(q)| == 1
  {
    forall q, q' | lo <= q < q' < j
      ensures Cells(xs, f, p)(q) !! Cells(xs, f, p)(q')
    {
      assert Differ(xs, q, q');
      if f(xs[p], xs[q]) == f(xs[p], xs[q']) {
        Injected(f, xs[p], xs[q], xs[p], xs[q']);
      }
    }
  }

  /** Passes lo..j-1 of row p add j - lo values. */
  lemma RowCard<T>(xs: seq<Var>, f: (Var, Var) -> T, p: nat, lo: nat, j: nat)
    requires p < |xs| && lo <= j <= |xs| && Apart(xs) && Injective(f)
    ensures |Union(Cells(xs, f, p), lo, j)| == j - lo
  {
    CellsSeparate(xs, f, p, lo, j);
    UnionSize(Cells(xs, f, p), lo, j);
    TotalConst(Cells(xs, f, p), lo, j, 1);
  }

  /** Values of different rows have different first variables. */
  lemma RowsApart<T>(xs: seq<Var>, f: (Var, Var) -> T, p: nat, lo: nat, j: nat, p': nat, lo': nat, j': nat, t: T)
    requires p < p' < |xs| && j <= |xs| && j' <= |xs| && Apart(xs) && Injective(f)
    requires t in Union(Cells(xs, f, p), lo, j)
    ensures t !in Union(Cells(xs, f, p'), lo', j')
  {
    var q := InRow(xs, f, p, lo, j, t);
    if t in Union(Cells(xs, f, p'), lo', j') {
      var q' := InRow(xs, f, p', lo', j', t);
      assert Differ(xs, p, p');
      Injected(f, xs[p], xs[q], xs[p'], xs[q']);
    }
  }

  /** Row p of the lower loop has p passes. */
  function LowerSizes(): int -> int
  {
    p => p
  }

  lemma {:induction false} LowerSum(i: nat)
    ensures Sum(LowerSizes(), 0, i) == Choose(i, 2)
  {
    if i > 0 {
      LowerSum(i - 1);
      PairsStep(i - 1);
    }
  }

  lemma LowerRowsSeparate<T>(xs: seq<Var>, f: (Var, Var) -> T, i: nat)
    requires i <= |xs| && Apart(xs) && Injective(f)
    ensures Separate(LowerRows(xs, f), 0, i)
  {
    forall p, p' | 0 <= p < p' < i
      ensures LowerRows(xs, f)(p) !! LowerRows(xs, f)(p')
    {
      LowerRowsApart(xs, f, p, p');
    }
  }

  lemma LowerRowsApart<T>(xs: seq<Var>, f: (Var, Var) -> T, p: nat, p': nat)
    requires p < p' < |xs| && Apart(xs) && Injective(f)
    ensures LowerRow(xs, f, p, p) !! LowerRow(xs, f, p', p')
  {
    var older, row := LowerRow(xs, f, p, p), LowerRow(xs, f, p', p');
    forall t | t in older
      ensures t !in row
    {
      RowsApart(xs, f, p, 0, p, p', 0, p', t);
    }
  }

  lemma LowerRowSizes<T>(xs: seq<Var>, f: (Var, Var) -> T, i: nat)
    requires i <= |xs| && Apart(xs) && Injective(f)
    ensures forall p :: 0 <= p < i ==> |LowerRows(xs, f)(p)| == LowerSizes()(p)
  {
    forall p | 0 <= p < i
      ensures |LowerRows(xs, f)(p)| == LowerSizes()(p)
    {
      RowCard(xs, f, p, 0, p);
    }
  }

  /** On distinct variables the lower loop adds C(i, 2) different values. */
  lemma LowerPairsCard<T>(xs: seq<Var>, f: (Var, Var) -> T, i: nat)
    requires i <= |xs| && Apart(xs) && Injective(f)
    ensures |LowerPairs(xs, f, i)| == Choose(i, 2)
  {
    LowerPairsTotal(xs, f, i);
    LowerSum(i);
  }

  lemma LowerPairsTotal<T>(xs: seq<Var>, f: (Var, Var) -> T, i: nat)
    requires i <= |xs| && Apart(xs) && Injective(f)
    ensures |LowerPairs(xs, f, i)| == Sum(LowerSizes(), 0, i)
  {
    LowerRowsSeparate(xs, f, i);
    LowerRowSizes(xs, f, i);
    UnionSize(LowerRows(xs, f), 0, i);
    TotalSum(LowerRows(xs, f), LowerSizes(), 0, i);
  }

  /** Row p of the upper loop has n - 1 - p passes. */
  function UpperSizes(n: int): int -> int
  {
    p => n - p - 1
  }

  lemma {:induction false} UpperSum(n: nat, i: nat)
    requires i <= n
    ensures Sum(UpperSizes(n), 0, i) == Choose(n, 2) - Choose(n - i, 2)
  {
    if i > 0 {
      UpperSum(n, i - 1);
      PairsStep(n - i);
    }
  }

  lemma UpperRowsSeparate<T>(xs: seq<Var>, f: (Var, Var) -> T, i: nat)
    requires i <= |xs| && Apart(xs) && Injective(f)
    ensures Separate(UpperRows(xs, f), 0, i)
  {
    forall p, p' | 0 <= p < p' < i
      ensures UpperRows(xs, f)(p) !! UpperRows(xs, f)(p')
    {
      UpperRowsApart(xs, f, p, p');
    }
  }

  lemma UpperRowsApart<T>(xs: seq<Var>, f: (Var, Var) -> T, p: nat, p': nat)
    requires p < p' < |xs| && Apart(xs) && Injective(f)
    ensures UpperRow(xs, f, p, |xs|) !! UpperRow(xs, f, p', |xs|)
  {
    var older, row := UpperRow(xs, f, p, |xs|), UpperRow(xs, f, p', |xs|);
    forall t | t in older
      ensures t !in row
    {
      RowsApart(xs, f, p, p + 1, |xs|, p', p' + 1, |xs|, t);
    }
  }

  lemma UpperRowSizes<T>(xs: seq<Var>, f: (Var, Var) -> T, i: nat)
    requires i <= |xs| && Apart(xs) && Injective(f)
    ensures forall p :: 0 <= p < i ==> |UpperRows(xs, f)(p)| == UpperSizes(|xs|)(p)
  {
    forall p | 0 <= p < i
      ensures |UpperRows(xs, f)(p)| == UpperSizes(|xs|)(p)
    {
      RowCard(xs, f, p, p + 1, |xs|);
    }
  }

  /** After i rows the upper loop has added C(n, 2) − C(n − i, 2) different
      values; after all n rows, C(n, 2). */
  lemma UpperPairsCard<T>(xs: seq<Var>, f: (Var, Var) -> T, i: nat)
    requires i <= |xs| && Apart(xs) && Injective(f)
    ensures |UpperPairs(xs, f, i)| == Choose(|xs|, 2) - Choose(|xs| - i, 2)
  {
    UpperPairsTotal(xs, f, i);
    UpperSum(|xs|, i);
  }

  lemma UpperPairsTotal<T>(xs: seq<Var>, f: (Var, Var) -> T, i: nat)
    requires i <= |xs| && Apart(xs) && Injective(f)
    ensures |UpperPairs(xs, f, i)| == Sum(UpperSizes(|xs|), 0, i)
  {
    UpperRowsSeparate(xs, f, i);
    UpperRowSizes(xs, f, i);
    UnionSize(UpperRows(xs, f), 0, i);
    TotalSum(UpperRows(xs, f), UpperSizes(|xs|), 0, i);
  }

  // ----- one order per pair -----

  /** The lower loop never adds f(xs[p], xs[q]) with p < q. */
  lemma LowerNotAbove<T>(xs: seq<Var>, f: (Var, Var) -> T, p: nat, q: nat)
    requires p < q < |xs| && Apart(xs) && Injective(f)
    ensures f(xs[p], xs[q]) !in LowerPairs(xs, f, |xs|)
  {
    if f(xs[p], xs[q]) in LowerPairs(xs, f, |xs|) {
      var p', q' := InLowerPairs(xs, f, |xs|, f(xs[p], xs[q]));
      Injected(f, xs[p], xs[q], xs[p'], xs[q']);
      SamePosition(xs, p, p');
      SamePosition(xs, q, q');
    }
  }

  /** The upper loop never adds f(xs[p], xs[q]) with q < p. */
  lemma UpperNotBelow<T>(xs: seq<Var>, f: (Var, Var) -> T, p: nat, q: nat)
    requires q < p < |xs| && Apart(xs) && Injective(f)
    ensures f(xs[p], xs[q]) !in UpperPairs(xs, f, |xs|)
  {
    if f(xs[p], xs[q]) in UpperPairs(xs, f, |xs|) {
      var p', q' := InUpperPairs(xs, f, |xs|, f(xs[p], xs[q]));
      Injected(f, xs[p], xs[q], xs[p'], xs[q']);
      SamePosition(xs, p, p');
      SamePosition(xs, q, q');
    }
  }

  /** Of the two orders of two different positions, the lower loop adds
      exactly one: the later position first. */
  lemma LowerOneWay<T>(xs: seq<Var>, f: (Var, Var) -> T, p: nat, q: nat)
    requires p < |xs| && q < |xs| && p != q && Apart(xs) && Injective(f)
    ensures f(xs[p], xs[q]) in LowerPairs(xs, f, |xs|) <==> f(xs[q], xs[p]) !in LowerPairs(xs, f, |xs|)
  {
    if q < p {
      LowerPairsHas(xs, f, |xs|, p, q);
      LowerNotAbove(xs, f, q, p);
    } else {
      LowerPairsHas(xs, f, |xs|, q, p);
      LowerNotAbove(xs, f, p, q);
    }
  }

  /** Of the two orders of two different positions, the upper loop adds
      exactly one: the earlier position first. */
  lemma UpperOneWay<T>(xs: seq<Var>, f: (Var, Var) -> T, p: nat, q: nat)
    requires p < |xs| && q < |xs| && p != q && Apart(xs) && Injective(f)
    ensures f(xs[p], xs[q]) in UpperPairs(xs, f, |xs|) <==> f(xs[q], xs[p]) !in UpperPairs(xs, f, |xs|)
  {
    if p < q {
      UpperPairsHas(xs, f, |xs|, p, q);
      UpperNotBelow(xs, f, q, p);
    } else {
      UpperPairsHas(xs, f, |xs|, q, p);
      UpperNotBelow(xs, f, p, q);
    }
  }
}
