/** What the over-constraint detector returns: which identifiers each rule
    adds, that no two of them are equal under the identifiers' `__eq__` (so a
    Python `Set` keeps every one), and how many there are. The counts agree
    with `num_constraints` of the cluster that `intersection` builds. */
module DetectorFacts {
  import opened Common
  import opened Clusters
  import opened Combinatorics
  import opened Pairs
  import opened Triples
  import opened Detector

  // ----- distances -----

  /** Every distance the lower loop adds joins two different walked variables. */
  lemma DistancesWithin(xs: seq<Var>)
    requires Apart(xs)
    ensures forall d :: d in LowerPairs(xs, Joining(), |xs|) ==> d.a in Elems(xs) && d.b in Elems(xs) && d.a != d.b
  {
    var r := LowerPairs(xs, Joining(), |xs|);
    forall d | d in r
      ensures d.a in Elems(xs) && d.b in Elems(xs) && d.a != d.b
    {
      var p, q := InLowerPairs(xs, Joining(), |xs|, d);
      assert Differ(xs, p, q);
    }
  }

  /** Of the two orders of a pair of walked variables, exactly one is added. */
  lemma DistancesOnePerPair(xs: seq<Var>)
    requires Apart(xs)
    ensures forall a, b :: a in Elems(xs) && b in Elems(xs) && a != b ==>
      (Distance(a, b) in LowerPairs(xs, Joining(), |xs|) <==> Distance(b, a) !in LowerPairs(xs, Joining(), |xs|))
  {
    var r := LowerPairs(xs, Joining(), |xs|);
    forall a, b | a in Elems(xs) && b in Elems(xs) && a != b
      ensures Distance(a, b) in r <==> Distance(b, a) !in r
    {
      var p := PositionOf(xs, a);
      var q := PositionOf(xs, b);
      JoiningInjective();
      LowerOneWay(xs, Joining(), p, q);
    }
  }

  /** Distances over different variables, one order per pair, are pairwise
      unequal under `Distance.__eq__`. */
  lemma DistancesUnequal(S: set<Var>, r: set<Distance>)
    requires forall d :: d in r ==> d.a in S && d.b in S && d.a != d.b
    requires forall a, b :: a in S && b in S && a != b ==> (Distance(a, b) in r <==> Distance(b, a) !in r)
    ensures forall d, e :: d in r && e in r && DistanceEq(d, e) ==> d == e
  {
    forall d, e | d in r && e in r && DistanceEq(d, e)
      ensures d == e
    {
      DistanceEqIff(d.a, d.b, e.a, e.b);
    }
  }

  /** `over_distances`: nothing unless both clusters are rigid; otherwise one
      distance per unordered pair of shared variables, C(|shared|, 2) of them,
      no two equal. */
  lemma OverDistancesFacts(s1: Shape, s2: Shape, shared: seq<Var>)
    requires Enumerates(shared, s1.Vars() * s2.Vars())
    ensures !(s1.Rigid? && s2.Rigid?) ==> DistanceRule(s1, s2, shared) == {}
    ensures var r, S := DistanceRule(s1, s2, shared), s1.Vars() * s2.Vars();
      forall d :: d in r ==> d.a in S && d.b in S && d.a != d.b
    ensures var r, S := DistanceRule(s1, s2, shared), s1.Vars() * s2.Vars();
      s1.Rigid? && s2.Rigid? ==>
        forall a, b :: a in S && b in S && a != b ==> (Distance(a, b) in r <==> Distance(b, a) !in r)
    ensures |DistanceRule(s1, s2, shared)| == if s1.Rigid? && s2.Rigid? then Choose(|s1.Vars() * s2.Vars()|, 2) else 0
    ensures var r := DistanceRule(s1, s2, shared);
      forall d, e :: d in r && e in r && DistanceEq(d, e) ==> d == e
  {
    if s1.Rigid? && s2.Rigid? {
      DistinctApart(shared);
      DistinctCard(shared);
      DistancesWithin(shared);
      DistancesOnePerPair(shared);
      JoiningInjective();
      LowerPairsCard(shared, Joining(), |shared|);
      DistancesUnequal(Elems(shared), LowerPairs(shared, Joining(), |shared|));
    }
  }

  // ----- angles at a centre -----

  /** Every angle the lower loop adds has the centre in the middle and two
      different walked variables outside. */
  lemma CentredLowerWithin(c: Var, xs: seq<Var>)
    requires Apart(xs)
    ensures forall t :: t in LowerPairs(xs, Centred(c), |xs|) ==>
      t.b == c && t.a in Elems(xs) && t.c in Elems(xs) && t.a != t.c
  {
    var r := LowerPairs(xs, Centred(c), |xs|);
    forall t | t in r
      ensures t.b == c && t.a in Elems(xs) && t.c in Elems(xs) && t.a != t.c
    {
      var p, q := InLowerPairs(xs, Centred(c), |xs|, t);
      assert Differ(xs, p, q);
    }
  }

  /** The same for the upper loop. */
  lemma CentredUpperWithin(c: Var, xs: seq<Var>)
    requires Apart(xs)
    ensures forall t :: t in UpperPairs(xs, Centred(c), |xs|) ==>
      t.b == c && t.a in Elems(xs) && t.c in Elems(xs) && t.a != t.c
  {
    var r := UpperPairs(xs, Centred(c), |xs|);
    forall t | t in r
      ensures t.b == c && t.a in Elems(xs) && t.c in Elems(xs) && t.a != t.c
    {
      var p, q := InUpperPairs(xs, Centred(c), |xs|, t);
      assert Differ(xs, p, q);
    }
  }

  /** Of the two orders of a pair of legs, the lower loop adds exactly one. */
  lemma CentredLowerOnePerPair(c: Var, xs: seq<Var>)
    requires Apart(xs)
    ensures forall a, b :: a in Elems(xs) && b in Elems(xs) && a != b ==>
      (Angle(a, c, b) in LowerPairs(xs, Centred(c), |xs|) <==> Angle(b, c, a) !in LowerPairs(xs, Centred(c), |xs|))
  {
    var r := LowerPairs(xs, Centred(c), |xs|);
    forall a, b | a in Elems(xs) && b in Elems(xs) && a != b
      ensures Angle(a, c, b) in r <==> Angle(b, c, a) !in r
    {
      var p := PositionOf(xs, a);
      var q := PositionOf(xs, b);
      CentredInjective(c);
      LowerOneWay(xs, Centred(c), p, q);
    }
  }

  /** Of the two orders of a pair of legs, the upper loop adds exactly one. */
  lemma CentredUpperOnePerPair(c: Var, xs: seq<Var>)
    requires Apart(xs)
    ensures forall a, b :: a in Elems(xs) && b in Elems(xs) && a != b ==>
      (Angle(a, c, b) in UpperPairs(xs, Centred(c), |xs|) <==> Angle(b, c, a) !in UpperPairs(xs, Centred(c), |xs|))
  {
    var r := UpperPairs(xs, Centred(c), |xs|);
    forall a, b | a in Elems(xs) && b in Elems(xs) && a != b
      ensures Angle(a, c, b) in r <==> Angle(b, c, a) !in r
    {
      var p := PositionOf(xs, a);
      var q := PositionOf(xs, b);
      CentredInjective(c);
      UpperOneWay(xs, Centred(c), p, q);
    }
  }

  /** Angles at one centre with different outer variables are pairwise
      unequal under `Angle.__eq__`, even when the centre is also a leg. */
  lemma CentredUnequal(c: Var, S: set<Var>, r: set<Angle>)
    requires forall t :: t in r ==> t.b == c && t.a in S && t.c in S && t.a != t.c
    ensures forall t, u :: t in r && u in r && AngleEq(t, u) ==> t == u
  {
    forall t, u | t in r && u in r && AngleEq(t, u)
      ensures t == u
    {
      assert t.a in AngleKey(u);
      assert u.a in AngleKey(t);
    }
  }

  /** `over_angles_hh`: nothing when the centres differ; otherwise one angle
      at the centre per unordered pair of common legs, C(|legs|, 2) of them,
      no two equal. */
  lemma HedgehogsFacts(c1: Var, c2: Var, legs: set<Var>, shared: seq<Var>)
    requires Enumerates(shared, legs)
    ensures c1 != c2 ==> HedgehogsRule(c1, c2, shared) == {}
    ensures var r := HedgehogsRule(c1, c2, shared);
      forall t :: t in r ==> t.b == c1 && t.a in legs && t.c in legs && t.a != t.c
    ensures var r := HedgehogsRule(c1, c2, shared);
      c1 == c2 ==> forall a, b :: a in legs && b in legs && a != b ==> (Angle(a, c1, b) in r <==> Angle(b, c1, a) !in r)
    ensures |HedgehogsRule(c1, c2, shared)| == if c1 == c2 then Choose(|legs|, 2) else 0
    ensures var r := HedgehogsRule(c1, c2, shared);
      forall t, u :: t in r && u in r && AngleEq(t, u) ==> t == u
  {
    if c1 == c2 {
      DistinctApart(shared);
      DistinctCard(shared);
      CentredLowerWithin(c1, shared);
      CentredLowerOnePerPair(c1, shared);
      CentredInjective(c1);
      LowerPairsCard(shared, Centred(c1), |shared|);
      CentredUnequal(c1, legs, LowerPairs(shared, Centred(c1), |shared|));
    }
  }

  /** `over_angles_ch` and `over_angles_bh`: nothing when the hedgehog's
      centre is not a variable of the other cluster; otherwise one angle at the
      centre per unordered pair of shared legs, C(|legs|, 2) of them, no two
      equal. */
  lemma CentreFacts(other: set<Var>, c: Var, legs: set<Var>, shared: seq<Var>)
    requires Enumerates(shared, legs)
    ensures c !in other ==> CentreRule(other, c, shared) == {}
    ensures var r := CentreRule(other, c, shared);
      forall t :: t in r ==> t.b == c && t.a in legs && t.c in legs && t.a != t.c
    ensures var r := CentreRule(other, c, shared);
      c in other ==> forall a, b :: a in legs && b in legs && a != b ==> (Angle(a, c, b) in r <==> Angle(b, c, a) !in r)
    ensures |CentreRule(other, c, shared)| == if c in other then Choose(|legs|, 2) else 0
    ensures var r := CentreRule(other, c, shared);
      forall t, u :: t in r && u in r && AngleEq(t, u) ==> t == u
  {
    if c in other {
      DistinctApart(shared);
      DistinctCard(shared);
      CentredUpperWithin(c, shared);
      CentredUpperOnePerPair(c, shared);
      CentredInjective(c);
      UpperPairsCard(shared, Centred(c), |shared|);
      assert Choose(0, 2) == 0;
      CentredUnequal(c, legs, UpperPairs(shared, Centred(c), |shared|));
    }
  }

  // ----- angles of triangles -----

  /** Every angle the triple loop adds is over three different walked variables. */
  lemma TrianglesWithin(xs: seq<Var>)
    requires Apart(xs)
    ensures forall t :: t in Triangles(xs, |xs|) ==>
      t.a in Elems(xs) && t.b in Elems(xs) && t.c in Elems(xs) && t.a != t.b && t.b != t.c && t.a != t.c
  {
    var r := Triangles(xs, |xs|);
    forall t | t in r
      ensures t.a in Elems(xs) && t.b in Elems(xs) && t.c in Elems(xs) && t.a != t.b && t.b != t.c && t.a != t.c
    {
      var p, q, m := InTriangles(xs, |xs|, t);
      assert Differ(xs, p, q) && Differ(xs, q, m) && Differ(xs, p, m);
    }
  }

  /** With an angle the triple loop adds the angle at the next corner of the
      same triangle. */
  lemma TrianglesRotate(xs: seq<Var>)
    ensures forall t :: t in Triangles(xs, |xs|) ==> Angle(t.b, t.c, t.a) in Triangles(xs, |xs|)
  {
    var r := Triangles(xs, |xs|);
    forall t | t in r
      ensures Angle(t.b, t.c, t.a) in r
    {
      var p, q, m := InTriangles(xs, |xs|, t);
      TrianglesHas(xs, |xs|, p, q, m);
    }
  }

  /** Of the two orientations of a triangle, the triple loop adds the angles
      of exactly one. */
  lemma TrianglesOneOrientation(xs: seq<Var>)
    requires Apart(xs)
    ensures forall a, b, c :: a in Elems(xs) && b in Elems(xs) && c in Elems(xs) && a != b && b != c && a != c ==>
      (Angle(a, b, c) in Triangles(xs, |xs|) <==> Angle(b, a, c) !in Triangles(xs, |xs|))
  {
    var r := Triangles(xs, |xs|);
    forall a, b, c | a in Elems(xs) && b in Elems(xs) && c in Elems(xs) && a != b && b != c && a != c
      ensures Angle(a, b, c) in r <==> Angle(b, a, c) !in r
    {
      var p := PositionOf(xs, a);
      var q := PositionOf(xs, b);
      var m := PositionOf(xs, c);
      TrianglesMember(xs, p, q, m);
      TrianglesMember(xs, q, p, m);
    }
  }

  /** Angles over three different variables, one orientation per triangle,
      are pairwise unequal under `Angle.__eq__`. */
  lemma TrianglesUnequal(S: set<Var>, r: set<Angle>)
    requires forall t :: t in r ==> t.a in S && t.b in S && t.c in S && t.a != t.b && t.b != t.c && t.a != t.c
    requires forall a, b, c :: a in S && b in S && c in S && a != b && b != c && a != c ==>
      (Angle(a, b, c) in r <==> Angle(b, a, c) !in r)
    ensures forall t, u :: t in r && u in r && AngleEq(t, u) ==> t == u
  {
    forall t, u | t in r && u in r && AngleEq(t, u)
      ensures t == u
    {
      assert u.a in AngleKey(t) && u.b in AngleKey(t);
    }
  }

  /** `over_angles_bb` and `over_angles_cb`: for every three shared variables,
      the angles at its three corners in one orientation, 3·C(|shared|, 3)
      angles, no two equal. */
  lemma TrianglesFacts(S: set<Var>, shared: seq<Var>)
    requires Enumerates(shared, S)
    ensures var r := Triangles(shared, |shared|);
      forall t :: t in r ==> t.a in S && t.b in S && t.c in S && t.a != t.b && t.b != t.c && t.a != t.c
    ensures var r := Triangles(shared, |shared|);
      forall t :: t in r ==> Angle(t.b, t.c, t.a) in r
    ensures var r := Triangles(shared, |shared|);
      forall a, b, c :: a in S && b in S && c in S && a != b && b != c && a != c ==>
        (Angle(a, b, c) in r <==> Angle(b, a, c) !in r)
    ensures |Triangles(shared, |shared|)| == 3 * Choose(|S|, 3)
    ensures var r := Triangles(shared, |shared|);
      forall t, u :: t in r && u in r && AngleEq(t, u) ==> t == u
  {
    DistinctApart(shared);
    DistinctCard(shared);
    TrianglesWithin(shared);
    TrianglesRotate(shared);
    TrianglesOneOrientation(shared);
    TrianglesSize(shared);
    TrianglesUnequal(S, Triangles(shared, |shared|));
  }

  // ----- over_angles and over_constraints -----

  /** No two angles `over_angles` returns are equal under `Angle.__eq__`. */
  lemma OverAnglesUnequal(s1: Shape, s2: Shape, shared: seq<Var>)
    requires Enumerates(shared, AngleShared(s1, s2))
    ensures var r := AngleRule(s1, s2, shared);
      forall t, u :: t in r && u in r && AngleEq(t, u) ==> t == u
  {
    var S := AngleShared(s1, s2);
    match s1
    case Hedgehog(c1, _) =>
      match s2 {
        case Hedgehog(c2, _) => HedgehogsFacts(c1, c2, S, shared);
        case _ => CentreFacts(s2.Vars(), c1, S, shared);
      }
    case _ =>
      match s2 {
        case Hedgehog(c2, _) => CentreFacts(s1.Vars(), c2, S, shared);
        case _ => TrianglesFacts(S, shared);
      }
  }

  /** No two constraints `over_constraints` returns are equal under `__eq__`:
      its size is the number of different constraints found. */
  lemma OverConstraintsUnequal(s1: Shape, s2: Shape, dshared: seq<Var>, ashared: seq<Var>)
    requires Enumerates(dshared, s1.Vars() * s2.Vars())
    requires Enumerates(ashared, AngleShared(s1, s2))
    ensures var r := ConstraintRule(s1, s2, dshared, ashared);
      forall k1, k2 :: k1 in r && k2 in r && ConstraintEq(k1, k2) ==> k1 == k2
  {
    OverDistancesFacts(s1, s2, dshared);
    OverAnglesUnequal(s1, s2, ashared);
  }

  // ----- counts -----

  lemma {:induction false} DistancesTaggedCard(ds: set<Distance>)
    ensures |set d | d in ds :: DistanceConstraint(d)| == |ds|
    decreases ds
  {
    if ds != {} {
      var d :| d in ds;
      var rest := ds - {d};
      DistancesTaggedCard(rest);
      var tagged, older := set e | e in ds :: DistanceConstraint(e), set e | e in rest :: DistanceConstraint(e);
      assert tagged == older + {DistanceConstraint(d)};
      assert DistanceConstraint(d) !in older;
    }
  }

  lemma {:induction false} AnglesTaggedCard(xs: set<Angle>)
    ensures |set x | x in xs :: AngleConstraint(x)| == |xs|
    decreases xs
  {
    if xs != {} {
      var x :| x in xs;
      var rest := xs - {x};
      AnglesTaggedCard(rest);
      var tagged, older := set y | y in xs :: AngleConstraint(y), set y | y in rest :: AngleConstraint(y);
      assert tagged == older + {AngleConstraint(x)};
      assert AngleConstraint(x) !in older;
    }
  }

  /** Distances and angles never coincide, so the union adds up. */
  lemma TaggedCard(ds: set<Distance>, xs: set<Angle>)
    ensures |Tagged(ds, xs)| == |ds| + |xs|
  {
    DistancesTaggedCard(ds);
    AnglesTaggedCard(xs);
    var left, right := set d | d in ds :: DistanceConstraint(d), set x | x in xs :: AngleConstraint(x);
    assert left !! right;
    UnionCard(left, right);
  }

  /** A hedgehog's centre is not among its own legs. The constructor does not
      check this; the count below needs it. */
  predicate CentreOffLegs(s: Shape)
  {
    s.Hedgehog? ==> s.cvar !in s.xvars
  }

  /** How many constraints the cluster `intersection` builds fixes, or 0 when
      it builds none. */
  function IntersectionImplies(s1: Shape, s2: Shape): nat
  {
    match Intersect(s1, s2)
    case None => 0
    case Some(s) => Implied(s)
  }

  /** Rigids and balloons: the distances and triangle angles of the shared
      variables. */
  lemma PlainCount(s1: Shape, s2: Shape, dshared: seq<Var>, ashared: seq<Var>)
    requires !s1.Hedgehog? && !s2.Hedgehog?
    requires Enumerates(dshared, s1.Vars() * s2.Vars())
    requires Enumerates(ashared, AngleShared(s1, s2))
    ensures |DistanceRule(s1, s2, dshared)| + |AngleRule(s1, s2, ashared)| == IntersectionImplies(s1, s2)
  {
    var S := s1.Vars() * s2.Vars();
    assert AngleShared(s1, s2) == S;
    assert |DistanceRule(s1, s2, dshared)| == if s1.Rigid? && s2.Rigid? then Choose(|S|, 2) else 0 by {
      OverDistancesFacts(s1, s2, dshared);
    }
    assert |AngleRule(s1, s2, ashared)| == 3 * Choose(|S|, 3) by {
      TrianglesFacts(S, ashared);
    }
    PlainIntersection(s1, s2);
  }

  /** The count for the intersection of two rigids or balloons. */
  lemma PlainIntersection(s1: Shape, s2: Shape)
    requires !s1.Hedgehog? && !s2.Hedgehog?
    ensures var n := |s1.Vars() * s2.Vars()|;
      IntersectionImplies(s1, s2) == (if s1.Rigid? && s2.Rigid? then Choose(n, 2) else 0) + 3 * Choose(n, 3)
  {
  }

  /** A hedgehog and a rigid or balloon: the angles at the centre over the
      shared legs. */
  lemma CentreCount(other: Shape, hog: Shape, ashared: seq<Var>)
    requires !other.Hedgehog? && hog.Hedgehog? && CentreOffLegs(hog)
    requires Enumerates(ashared, other.Vars() * hog.xvars)
    ensures |CentreRule(other.Vars(), hog.cvar, ashared)| == IntersectionImplies(other, hog)
    ensures IntersectionImplies(other, hog) == IntersectionImplies(hog, other)
  {
    var c, legs := hog.cvar, other.Vars() * hog.xvars;
    assert |CentreRule(other.Vars(), c, ashared)| == if c in other.Vars() then Choose(|legs|, 2) else 0 by {
      CentreFacts(other.Vars(), c, legs, ashared);
    }
    CentreIntersection(other, hog);
  }

  /** The count for the intersection of a rigid or balloon with a hedgehog
      whose centre is off its legs, in either order. */
  lemma CentreIntersection(other: Shape, hog: Shape)
    requires !other.Hedgehog? && hog.Hedgehog? && CentreOffLegs(hog)
    ensures IntersectionImplies(other, hog) == IntersectionImplies(hog, other)
    ensures IntersectionImplies(other, hog) ==
      if hog.cvar in other.Vars() then Choose(|other.Vars() * hog.xvars|, 2) else 0
  {
    var c, legs := hog.cvar, other.Vars() * hog.xvars;
    IntersectWithHedgehog(other, c, hog.xvars);
    assert other.vars * (hog.xvars + {c}) - {c} == legs;
  }

  /** Two hedgehogs: the angles at a common centre over the common legs. */
  lemma HedgehogsCount(s1: Shape, s2: Shape, ashared: seq<Var>)
    requires s1.Hedgehog? && s2.Hedgehog?
    requires Enumerates(ashared, s1.xvars * s2.xvars)
    ensures |HedgehogsRule(s1.cvar, s2.cvar, ashared)| == IntersectionImplies(s1, s2)
  {
    var legs := s1.xvars * s2.xvars;
    HedgehogsFacts(s1.cvar, s2.cvar, legs, ashared);
    if |legs| >= 2 {
      assert legs <= s1.Vars() * s2.Vars();
      SubsetCard(legs, s1.Vars() * s2.Vars());
    }
  }

  /** `over_constraints` finds as many constraints as `num_constraints`
      counts for the cluster `intersection` builds from the same two clusters
      (none when it builds none), provided no hedgehog has its centre among
      its legs. */
  lemma OverConstraintsCount(s1: Shape, s2: Shape, dshared: seq<Var>, ashared: seq<Var>)
    requires Enumerates(dshared, s1.Vars() * s2.Vars())
    requires Enumerates(ashared, AngleShared(s1, s2))
    requires CentreOffLegs(s1) && CentreOffLegs(s2)
    ensures |ConstraintRule(s1, s2, dshared, ashared)| == IntersectionImplies(s1, s2)
  {
    TaggedCard(DistanceRule(s1, s2, dshared), AngleRule(s1, s2, ashared));
    if !s1.Hedgehog? && !s2.Hedgehog? {
      PlainCount(s1, s2, dshared, ashared);
    } else if s1.Hedgehog? && s2.Hedgehog? {
      HedgehogsCount(s1, s2, ashared);
    } else if s2.Hedgehog? {
      CentreCount(s1, s2, ashared);
    } else {
      assert AngleShared(s1, s2) == s2.Vars() * s1.xvars;
      CentreCount(s2, s1, ashared);
    }
  }
}
