/** The set the triple loop of `over_angles_bb` / `over_angles_cb` builds:
    for every index triple p < q < m of the shared variables it adds the three
    angles of the triangle (xs[p], xs[q], xs[m]), one at each corner. Each
    loop level is a `Union` of the level inside it. */
module Triples {
  import opened Common
  import opened Clusters
  import opened Combinatorics
  import opened Rows

  /** The three angles added for one triple, each with a different third element. */
  function Corners(a: Var, b: Var, c: Var): set<Angle>
  {
    {Angle(a, b, c), Angle(b, c, a), Angle(c, a, b)}
  }

  /** The innermost statement: pass m adds the corners of (xs[i], xs[j], xs[m]). */
  ghost function CornerRow(xs: seq<Var>, i: int, j: int): int -> set<Angle>
  {
    m => if 0 <= i < |xs| && 0 <= j < |xs| && 0 <= m < |xs| then Corners(xs[i], xs[j], xs[m]) else {}
  }

  /** Innermost loop, third index in j+1..k-1. */
  ghost function TriK(xs: seq<Var>, i: int, j: int, k: int): set<Angle>
  {
    Union(CornerRow(xs, i, j), j + 1, k)
  }

  ghost function MiddleRow(xs: seq<Var>, i: int): int -> set<Angle>
  {
    q => TriK(xs, i, q, |xs|)
  }

  /** Middle loop, second index in i+1..j-1. */
  ghost function TriJ(xs: seq<Var>, i: int, j: int): set<Angle>
  {
    Union(MiddleRow(xs, i), i + 1, j)
  }

  ghost function OuterRow(xs: seq<Var>): int -> set<Angle>
  {
    p => TriJ(xs, p, |xs|)
  }

  /** Outer loop, first index below i. */
  ghost function Triangles(xs: seq<Var>, i: int): set<Angle>
  {
    Union(OuterRow(xs), 0, i)
  }

  // ----- members -----

  /** An angle of the innermost loop is a corner of (xs[i], xs[j], xs[m]) for j < m < k. */
  lemma InTriK(xs: seq<Var>, i: nat, j: nat, k: nat, t: Angle) returns (m: nat)
    requires i < j < k <= |xs|
    requires t in TriK(xs, i, j, k)
    ensures j < m < k && t in Corners(xs[i], xs[j], xs[m])
  {
    UnionMembers(CornerRow(xs, i, j), j + 1, k);
    m :| j + 1 <= m < k && t in CornerRow(xs, i, j)(m);
  }

  lemma InTriJ(xs: seq<Var>, i: nat, j: nat, t: Angle) returns (q: nat, m: nat)
    requires i < j <= |xs|
    requires t in TriJ(xs, i, j)
    ensures i < q < j && q < m < |xs| && t in Corners(xs[i], xs[q], xs[m])
  {
    UnionMembers(MiddleRow(xs, i), i + 1, j);
    q :| i + 1 <= q < j && t in MiddleRow(xs, i)(q);
    m := InTriK(xs, i, q, |xs|, t);
  }

  /** The triple loop adds only corners of index triples p < q < m with p < i. */
  lemma InTriangles(xs: seq<Var>, i: nat, t: Angle) returns (p: nat, q: nat, m: nat)
    requires i <= |xs|
    requires t in Triangles(xs, i)
    ensures p < i && p < q < m < |xs| && t in Corners(xs[p], xs[q], xs[m])
  {
    UnionMembers(OuterRow(xs), 0, i);
    p :| 0 <= p < i && t in OuterRow(xs)(p);
    q, m := InTriJ(xs, p, |xs|, t);
  }

  /** Every index triple p < q < m with p < i is visited by the triple loop. */
  lemma TrianglesHas(xs: seq<Var>, i: nat, p: nat, q: nat, m: nat)
    requires p < i <= |xs| && p < q < m < |xs|
    ensures Corners(xs[p], xs[q], xs[m]) <= Triangles(xs, i)
  {
    TriJHas(xs, p, q, m);
    UnionHas(OuterRow(xs), 0, i, p);
  }

  lemma TriJHas(xs: seq<Var>, p: nat, q: nat, m: nat)
    requires p < q < m < |xs|
    ensures Corners(xs[p], xs[q], xs[m]) <= TriJ(xs, p, |xs|)
  {
    UnionHas(CornerRow(xs, p, q), q + 1, |xs|, m);
    UnionHas(MiddleRow(xs, p), p + 1, |xs|, q);
  }

  // ----- sizes -----

  /** An angle over a variable outside a triangle is none of its corners. */
  lemma CornersAvoid(t: Angle, x: Var, a: Var, b: Var, c: Var)
    requires x in AngleKey(t) && x != a && x != b && x != c
    ensures t !in Corners(a, b, c)
  {
  }

  /** The three corners of a proper triangle are three different angles. */
  lemma CornersCard(a: Var, b: Var, c: Var)
    requires a != b && b != c && a != c
    ensures |Corners(a, b, c)| == 3
  {
  }

  /** Passes of the innermost loop add three angles each, all different. */
  lemma CornerRowSeparate(xs: seq<Var>, i: nat, j: nat, k: nat)
    requires i < j < k <= |xs| && Apart(xs)
    ensures Separate(CornerRow(xs, i, j), j + 1, k)
    ensures forall m :: j + 1 <= m < k ==> |CornerRow(xs, i, j)(m)| == 3
  {
    forall m, m' | j + 1 <= m < m' < k
      ensures CornerRow(xs, i, j)(m) !! CornerRow(xs, i, j)(m')
    {
      var older, row := CornerRow(xs, i, j)(m), CornerRow(xs, i, j)(m');
      forall t | t in older
        ensures t !in row
      {
        assert xs[m] in AngleKey(t);
        assert Differ(xs, m, i) && Differ(xs, m, j) && Differ(xs, m, m');
        CornersAvoid(t, xs[m], xs[i], xs[j], xs[m']);
      }
    }
    forall m | j + 1 <= m < k
      ensures |CornerRow(xs, i, j)(m)| == 3
    {
      assert Differ(xs, i, j) && Differ(xs, j, m) && Differ(xs, i, m);
      CornersCard(xs[i], xs[j], xs[m]);
    }
  }

  lemma TriKCard(xs: seq<Var>, i: nat, j: nat, k: nat)
    requires i < j < k <= |xs| && Apart(xs)
    ensures |TriK(xs, i, j, k)| == 3 * (k - j - 1)
  {
    CornerRowSeparate(xs, i, j, k);
    UnionSize(CornerRow(xs, i, j), j + 1, k);
    TotalConst(CornerRow(xs, i, j), j + 1, k, 3);
  }

  /** Round q of the middle loop adds 3(n − 1 − q) angles. */
  function MiddleSizes(n: int): int -> int
  {
    q => 3 * (n - q - 1)
  }

  lemma {:induction false} MiddleSum(n: nat, i: nat, j: nat)
    requires i < j <= n
    ensures Sum(MiddleSizes(n), i + 1, j) == 3 * (Choose(n - i - 1, 2) - Choose(n - j, 2))
  {
    if j > i + 1 {
      MiddleSum(n, i, j - 1);
      PairsStep(n - j);
    }
  }

  /** Rounds of the middle loop add different angles: their middle elements differ. */
  lemma MiddleRowSeparate(xs: seq<Var>, i: nat, j: nat)
    requires i < j <= |xs| && Apart(xs)
    ensures Separate(MiddleRow(xs, i), i + 1, j)
  {
    forall q, q' | i + 1 <= q < q' < j
      ensures MiddleRow(xs, i)(q) !! MiddleRow(xs, i)(q')
    {
      MiddleRowsApart(xs, i, q, q');
    }
  }

  lemma MiddleRowsApart(xs: seq<Var>, i: nat, q: nat, q': nat)
    requires i < q < q' < |xs| && Apart(xs)
    ensures TriK(xs, i, q, |xs|) !! TriK(xs, i, q', |xs|)
  {
    var older, row := TriK(xs, i, q, |xs|), TriK(xs, i, q', |xs|);
    forall t | t in older
      ensures t !in row
    {
      var m := InTriK(xs, i, q, |xs|, t);
      assert xs[q] in AngleKey(t);
      if t in row {
        var m' := InTriK(xs, i, q', |xs|, t);
        assert Differ(xs, q, i) && Differ(xs, q, q') && Differ(xs, q, m');
        CornersAvoid(t, xs[q], xs[i], xs[q'], xs[m']);
      }
    }
  }

  lemma MiddleRowSizes(xs: seq<Var>, i: nat, j: nat)
    requires i < j <= |xs| && Apart(xs)
    ensures forall q :: i + 1 <= q < j ==> |MiddleRow(xs, i)(q)| == MiddleSizes(|xs|)(q)
  {
    forall q | i + 1 <= q < j
      ensures |MiddleRow(xs, i)(q)| == MiddleSizes(|xs|)(q)
    {
      TriKCard(xs, i, q, |xs|);
    }
  }

  lemma TriJTotal(xs: seq<Var>, i: nat, j: nat)
    requires i < j <= |xs| && Apart(xs)
    ensures |TriJ(xs, i, j)| == Sum(MiddleSizes(|xs|), i + 1, j)
  {
    MiddleRowSeparate(xs, i, j);
    MiddleRowSizes(xs, i, j);
    UnionSize(MiddleRow(xs, i), i + 1, j);
    TotalSum(MiddleRow(xs, i), MiddleSizes(|xs|), i + 1, j);
  }

  /** A whole run of the middle loop from i adds 3·C(n − 1 − i, 2) angles. */
  lemma TriJCard(xs: seq<Var>, i: nat)
    requires i < |xs| && Apart(xs)
    ensures |TriJ(xs, i, |xs|)| == 3 * Choose(|xs| - i - 1, 2)
  {
    TriJTotal(xs, i, |xs|);
    MiddleSum(|xs|, i, |xs|);
    assert Choose(0, 2) == 0;
  }

  /** Round p of the outer loop adds 3·C(n − 1 − p, 2) angles. */
  function OuterSizes(n: int): int -> int
  {
    p => if 0 <= p < n then 3 * Choose(n - p - 1, 2) else 0
  }

  lemma {:induction false} OuterSum(n: nat, i: nat)
    requires i <= n
    ensures Sum(OuterSizes(n), 0, i) == 3 * (Choose(n, 3) - Choose(n - i, 3))
  {
    if i > 0 {
      OuterSum(n, i - 1);
      TriplesStep(n - i);
    }
  }

  /** Rounds of the outer loop add different angles: their first elements differ. */
  lemma OuterRowSeparate(xs: seq<Var>, i: nat)
    requires i <= |xs| && Apart(xs)
    ensures Separate(OuterRow(xs), 0, i)
  {
    forall p, p' | 0 <= p < p' < i
      ensures OuterRow(xs)(p) !! OuterRow(xs)(p')
    {
      OuterRowsApart(xs, p, p');
    }
  }

  lemma OuterRowsApart(xs: seq<Var>, p: nat, p': nat)
    requires p < p' < |xs| && Apart(xs)
    ensures TriJ(xs, p, |xs|) !! TriJ(xs, p', |xs|)
  {
    var older, row := TriJ(xs, p, |xs|), TriJ(xs, p', |xs|);
    forall t | t in older
      ensures t !in row
    {
      var q, m := InTriJ(xs, p, |xs|, t);
      assert xs[p] in AngleKey(t);
      if t in row {
        var q', m' := InTriJ(xs, p', |xs|, t);
        assert Differ(xs, p, p') && Differ(xs, p, q') && Differ(xs, p, m');
        CornersAvoid(t, xs[p], xs[p'], xs[q'], xs[m']);
      }
    }
  }

  lemma OuterRowSizes(xs: seq<Var>, i: nat)
    requires i <= |xs| && Apart(xs)
    ensures forall p :: 0 <= p < i ==> |OuterRow(xs)(p)| == OuterSizes(|xs|)(p)
  {
    forall p | 0 <= p < i
      ensures |OuterRow(xs)(p)| == OuterSizes(|xs|)(p)
    {
      TriJCard(xs, p);
    }
  }

  lemma TrianglesTotal(xs: seq<Var>, i: nat)
    requires i <= |xs| && Apart(xs)
    ensures |Triangles(xs, i)| == Sum(OuterSizes(|xs|), 0, i)
  {
    OuterRowSeparate(xs, i);
    OuterRowSizes(xs, i);
    UnionSize(OuterRow(xs), 0, i);
    TotalSum(OuterRow(xs), OuterSizes(|xs|), 0, i);
  }

  /** On distinct variables the triple loop adds 3·C(n, 3) different angles. */
  lemma TrianglesSize(xs: seq<Var>)
    requires Distinct(xs)
    ensures |Triangles(xs, |xs|)| == 3 * Choose(|xs|, 3)
  {
    DistinctApart(xs);
    TrianglesTotal(xs, |xs|);
    OuterSum(|xs|, |xs|);
    assert Choose(0, 3) == 0;
  }

  // ----- which orientation -----

  /** Positions p, q, m are one of the three rotations of an increasing triple. */
  predicate Cyclic(p: int, q: int, m: int)
  {
    p < q < m || q < m < p || m < p < q
  }

  /** Every rotation of an increasing index triple is added. */
  lemma CyclicAdded(xs: seq<Var>, p: nat, q: nat, m: nat)
    requires p < |xs| && q < |xs| && m < |xs| && Cyclic(p, q, m)
    ensures Angle(xs[p], xs[q], xs[m]) in Triangles(xs, |xs|)
  {
    if p < q < m {
      TrianglesHas(xs, |xs|, p, q, m);
    } else if q < m < p {
      TrianglesHas(xs, |xs|, q, m, p);
    } else {
      TrianglesHas(xs, |xs|, m, p, q);
    }
  }

  /** Only rotations of increasing index triples are added. */
  lemma AddedCyclic(xs: seq<Var>, p: nat, q: nat, m: nat)
    requires p < |xs| && q < |xs| && m < |xs| && Apart(xs)
    requires Angle(xs[p], xs[q], xs[m]) in Triangles(xs, |xs|)
    ensures Cyclic(p, q, m)
  {
    var p', q', m' := InTriangles(xs, |xs|, Angle(xs[p], xs[q], xs[m]));
    if Angle(xs[p], xs[q], xs[m]) == Angle(xs[p'], xs[q'], xs[m']) {
      SamePosition(xs, p, p');
      SamePosition(xs, q, q');
      SamePosition(xs, m, m');
    } else if Angle(xs[p], xs[q], xs[m]) == Angle(xs[q'], xs[m'], xs[p']) {
      SamePosition(xs, p, q');
      SamePosition(xs, q, m');
      SamePosition(xs, m, p');
    } else {
      SamePosition(xs, p, m');
      SamePosition(xs, q, p');
      SamePosition(xs, m, q');
    }
  }

  /** The angle at positions (p, q, m) is added exactly when the positions are
      in cyclic order. */
  lemma TrianglesMember(xs: seq<Var>, p: nat, q: nat, m: nat)
    requires p < |xs| && q < |xs| && m < |xs| && Apart(xs)
    ensures Angle(xs[p], xs[q], xs[m]) in Triangles(xs, |xs|) <==> Cyclic(p, q, m)
  {
    if Cyclic(p, q, m) {
      CyclicAdded(xs, p, q, m);
    }
    if Angle(xs[p], xs[q], xs[m]) in Triangles(xs, |xs|) {
      AddedCyclic(xs, p, q, m);
    }
  }

  // ----- one pass at a time -----

  /** Pass k of the innermost loop adds the corners of (xs[i], xs[j], xs[k]). */
  lemma TriKStep(xs: seq<Var>, i: nat, j: nat, k: nat)
    requires i < j < k < |xs|
    ensures TriK(xs, i, j, k + 1) == TriK(xs, i, j, k) + Corners(xs[i], xs[j], xs[k])
  {
  }

  /** Round j of the middle loop adds a whole run of the innermost loop. */
  lemma TriJStep(xs: seq<Var>, i: nat, j: nat)
    requires i < j < |xs|
    ensures TriJ(xs, i, j + 1) == TriJ(xs, i, j) + TriK(xs, i, j, |xs|)
  {
  }

  /** Round i of the outer loop adds a whole run of the middle loop. */
  lemma OuterStep(xs: seq<Var>, i: nat)
    requires i < |xs|
    ensures Triangles(xs, i + 1) == Triangles(xs, i) + TriJ(xs, i, |xs|)
  {
  }
}
