/** The over-constraint detector of cluster.py: `over_distances`,
    `over_angles` with its rules `_hh`, `_bb`/`_cb` and `_ch`/`_bh`, and
    `over_constraints`. Each rule walks `list(shared)` with nested index loops;
    the walk order is the parameter `shared`, any duplicate-free listing of the
    shared variables. The methods are proved to build exactly the loop sets of
    modules Pairs and Triangles; the lemmas state what those sets hold, that no
    two of their members are equal under the identifiers' own `__eq__` (so the
    structural set is the Python `Set`), and how many there are. */
module Detector {
  import opened Common
  import opened Clusters
  import opened Combinatorics
  import opened Rows
  import opened Pairs
  import opened Triples

  // ----- what the loops add -----

  /** `Distance(v1, v2)`. */
  function Joining(): (Var, Var) -> Distance
  {
    (a, b) => Distance(a, b)
  }

  /** `Angle(v1, cvar, v2)`: the angle at the hedgehog's centre. */
  function Centred(c: Var): (Var, Var) -> Angle
  {
    (a, b) => Angle(a, c, b)
  }

  lemma JoiningInjective()
    ensures Injective(Joining())
  {
  }

  lemma CentredInjective(c: Var)
    ensures Injective(Centred(c))
  {
  }

  // ----- the loops -----

  /** `for i in range(n): for j in range(i): add f(shared[i], shared[j])`. */
  method LowerLoop<T>(xs: seq<Var>, f: (Var, Var) -> T) returns (r: set<T>)
    ensures r == LowerPairs(xs, f, |xs|)
  {
    r := {};
    var i := 0;
    while i < |xs|
      invariant 0 <= i <= |xs|
      invariant r == LowerPairs(xs, f, i)
    {
      var j := 0;
      while j < i
        invariant 0 <= j <= i
        invariant r == LowerPairs(xs, f, i) + LowerRow(xs, f, i, j)
      {
        r := r + {f(xs[i], xs[j])};
        j := j + 1;
      }
      i := i + 1;
    }
  }

  /** `for i in range(n): for j in range(i+1, n): add f(shared[i], shared[j])`. */
  method UpperLoop<T>(xs: seq<Var>, f: (Var, Var) -> T) returns (r: set<T>)
    ensures r == UpperPairs(xs, f, |xs|)
  {
    r := {};
    var i := 0;
    while i < |xs|
      invariant 0 <= i <= |xs|
      invariant r == UpperPairs(xs, f, i)
    {
      var j := i + 1;
      while j < |xs|
        invariant i + 1 <= j <= |xs|
        invariant r == UpperPairs(xs, f, i) + UpperRow(xs, f, i, j)
      {
        r := r + {f(xs[i], xs[j])};
        j := j + 1;
      }
      i := i + 1;
    }
  }

  /** The triple loop of `over_angles_bb` and `over_angles_cb`: for i < j < k
      it adds the angles (v1, v2, v3), (v2, v3, v1) and (v3, v1, v2). Each
      level of the loop nest is a method of its own, adding to the set it is
      given. */
  method TripleLoop(xs: seq<Var>) returns (r: set<Angle>)
    ensures r == Triangles(xs, |xs|)
  {
    r := {};
    var i := 0;
    while i < |xs|
      invariant 0 <= i <= |xs|
      invariant r == Triangles(xs, i)
    {
      r := MiddleLoop(xs, i, r);
      OuterStep(xs, i);
      i := i + 1;
    }
  }

  /** `for j in range(i+1, n): for k in range(j+1, n): ...` for one i. */
  method MiddleLoop(xs: seq<Var>, i: nat, r0: set<Angle>) returns (r: set<Angle>)
    requires i < |xs|
    ensures r == r0 + TriJ(xs, i, |xs|)
  {
    r := r0;
    var j := i + 1;
    while j < |xs|
      invariant i + 1 <= j <= |xs|
      invariant r == r0 + TriJ(xs, i, j)
    {
      ghost var middle := r;
      r := InnerLoop(xs, i, j, r);
      MiddlePass(xs, i, j, r0, middle, r);
      j := j + 1;
    }
  }

  /** `for k in range(j+1, n): ...` for one i and j. */
  method InnerLoop(xs: seq<Var>, i: nat, j: nat, r0: set<Angle>) returns (r: set<Angle>)
    requires i < j < |xs|
    ensures r == r0 + TriK(xs, i, j, |xs|)
  {
    r := r0;
    var k := j + 1;
    while k < |xs|
      invariant j + 1 <= k <= |xs|
      invariant r == r0 + TriK(xs, i, j, k)
    {
      ghost var before := r;
      var v1, v2, v3 := xs[i], xs[j], xs[k];
      r := r + {Angle(v1, v2, v3)};
      r := r + {Angle(v2, v3, v1)};
      r := r + {Angle(v3, v1, v2)};
      CornerPass(xs, i, j, k, r0, before);
      k := k + 1;
    }
  }

  /** One pass of the innermost loop keeps its invariant. */
  lemma CornerPass(xs: seq<Var>, i: nat, j: nat, k: nat, middle: set<Angle>, before: set<Angle>)
    requires i < j < k < |xs|
    requires before == middle + TriK(xs, i, j, k)
    ensures before + {Angle(xs[i], xs[j], xs[k])} + {Angle(xs[j], xs[k], xs[i])} + {Angle(xs[k], xs[i], xs[j])}
         == middle + TriK(xs, i, j, k + 1)
  {
    TriKStep(xs, i, j, k);
  }

  /** One round of the middle loop keeps its invariant. */
  lemma MiddlePass(xs: seq<Var>, i: nat, j: nat, outer: set<Angle>, middle: set<Angle>, after: set<Angle>)
    requires i < j < |xs|
    requires middle == outer + TriJ(xs, i, j)
    requires after == middle + TriK(xs, i, j, |xs|)
    ensures after == outer + TriJ(xs, i, j + 1)
  {
    TriJStep(xs, i, j);
  }

  // ----- the rules -----

  /** What `over_distances` returns when it walks the shared variables in the
      order `shared`. */
  ghost function DistanceRule(s1: Shape, s2: Shape, shared: seq<Var>): set<Distance>
  {
    if s1.Rigid? && s2.Rigid? then LowerPairs(shared, Joining(), |shared|) else {}
  }

  /** What `over_angles_hh` returns: angles at the common centre, or nothing
      when the centres differ. */
  ghost function HedgehogsRule(c1: Var, c2: Var, shared: seq<Var>): set<Angle>
  {
    if c1 == c2 then LowerPairs(shared, Centred(c1), |shared|) else {}
  }

  /** What `over_angles_ch(cluster, hog)` and `over_angles_bh(balloon, hog)`
      return: angles at the hedgehog's centre c, or nothing when c is not a
      variable of the other cluster. */
  ghost function CentreRule(other: set<Var>, c: Var, shared: seq<Var>): set<Angle>
  {
    if c in other then UpperPairs(shared, Centred(c), |shared|) else {}
  }

  /** The variables a rule of `over_angles` walks on one side: a hedgehog
      contributes its legs, the other kinds their variables. */
  function Walked(s: Shape): set<Var>
  {
    if s.Hedgehog? then s.xvars else s.vars
  }

  /** The shared variables that `over_angles` walks. */
  function AngleShared(s1: Shape, s2: Shape): set<Var>
  {
    Walked(s1) * Walked(s2)
  }

  /** What `over_angles` returns: the rule its case table picks. */
  ghost function AngleRule(s1: Shape, s2: Shape, shared: seq<Var>): set<Angle>
  {
    match s1
    case Hedgehog(c1, _) =>
      (match s2
       case Hedgehog(c2, _) => HedgehogsRule(c1, c2, shared)
       case _ => CentreRule(s2.Vars(), c1, shared))
    case _ =>
      (match s2
       case Hedgehog(c2, _) => CentreRule(s1.Vars(), c2, shared)
       case _ => Triangles(shared, |shared|))
  }

  /** `over_distances(c1, c2)`. */
  method OverDistances(c1: Cluster, c2: Cluster, shared: seq<Var>) returns (r: set<Distance>)
    requires Enumerates(shared, c1.shape.Vars() * c2.shape.Vars())
    ensures r == DistanceRule(c1.shape, c2.shape, shared)
  {
    if !(c1.shape.Rigid? && c2.shape.Rigid?) {
      return {};
    }
    r := LowerLoop(shared, Joining());
  }

  /** `over_angles_hh(hog1, hog2)`. */
  method OverAnglesHH(hog1: Cluster, hog2: Cluster, shared: seq<Var>) returns (r: set<Angle>)
    requires hog1.shape.Hedgehog? && hog2.shape.Hedgehog?
    requires Enumerates(shared, hog1.shape.xvars * hog2.shape.xvars)
    ensures r == HedgehogsRule(hog1.shape.cvar, hog2.shape.cvar, shared)
  {
    if hog1.shape.cvar != hog2.shape.cvar {
      return {};
    }
    r := LowerLoop(shared, Centred(hog1.shape.cvar));
  }

  /** `over_angles_bb(b1, b2)`, and `over_angles_cb(cluster, balloon)`, whose
      code is the same. */
  method OverAnglesBB(b1: Cluster, b2: Cluster, shared: seq<Var>) returns (r: set<Angle>)
    requires Enumerates(shared, b1.shape.Vars() * b2.shape.Vars())
    ensures r == Triangles(shared, |shared|)
  {
    r := TripleLoop(shared);
  }

  /** `over_angles_ch(cluster, hog)`, and `over_angles_bh(balloon, hog)`,
      whose code is the same. */
  method OverAnglesCH(cluster: Cluster, hog: Cluster, shared: seq<Var>) returns (r: set<Angle>)
    requires hog.shape.Hedgehog?
    requires Enumerates(shared, cluster.shape.Vars() * hog.shape.xvars)
    ensures r == CentreRule(cluster.shape.Vars(), hog.shape.cvar, shared)
  {
    if hog.shape.cvar !in cluster.shape.Vars() {
      return {};
    }
    r := UpperLoop(shared, Centred(hog.shape.cvar));
  }

  /** `over_angles(c1, c2)`: the case table over the ordered pair of kinds.
      Its "unexpected case" cannot arise with three kinds. */
  method OverAngles(c1: Cluster, c2: Cluster, shared: seq<Var>) returns (r: set<Angle>)
    requires Enumerates(shared, AngleShared(c1.shape, c2.shape))
    ensures r == AngleRule(c1.shape, c2.shape, shared)
  {
    var s1, s2 := c1.shape, c2.shape;
    if s1.Rigid? && s2.Rigid? {
      r := OverAnglesBB(c1, c2, shared);
    } else if s1.Rigid? && s2.Hedgehog? {
      r := OverAnglesCH(c1, c2, shared);
    } else if s1.Hedgehog? && s2.Rigid? {
      assert s2.Vars() * s1.xvars == AngleShared(s1, s2);
      r := OverAnglesCH(c2, c1, shared);
    } else if s1.Hedgehog? && s2.Hedgehog? {
      r := OverAnglesHH(c1, c2, shared);
    } else if s1.Rigid? && s2.Balloon? {
      r := OverAnglesBB(c1, c2, shared);
    } else if s1.Balloon? && s2.Rigid? {
      r := OverAnglesBB(c1, c2, shared);
    } else if s1.Balloon? && s2.Balloon? {
      r := OverAnglesBB(c1, c2, shared);
    } else if s1.Balloon? && s2.Hedgehog? {
      r := OverAnglesCH(c1, c2, shared);
    } else {
      // a hedgehog and a balloon
      assert s2.Vars() * s1.xvars == AngleShared(s1, s2);
      r := OverAnglesCH(c2, c1, shared);
    }
  }

  // ----- over_constraints -----

  /** A member of the set `over_constraints` returns, which mixes distances
      and angles. A distance never equals an angle. */
  datatype Constraint = DistanceConstraint(d: Distance) | AngleConstraint(x: Angle)

  /** `__eq__` on the members of that set: a distance and an angle are never
      equal, and like identifiers compare as their own classes say. */
  predicate ConstraintEq(k1: Constraint, k2: Constraint)
  {
    match (k1, k2)
    case (DistanceConstraint(d), DistanceConstraint(e)) => DistanceEq(d, e)
    case (AngleConstraint(x), AngleConstraint(y)) => AngleEq(x, y)
    case _ => false
  }

  /** The union of a set of distances and a set of angles. */
  function Tagged(ds: set<Distance>, xs: set<Angle>): (r: set<Constraint>)
    ensures forall d :: DistanceConstraint(d) in r <==> d in ds
    ensures forall x :: AngleConstraint(x) in r <==> x in xs
  {
    (set d | d in ds :: DistanceConstraint(d)) + (set x | x in xs :: AngleConstraint(x))
  }

  /** What `over_constraints` returns, for the walk orders of its two parts. */
  ghost function ConstraintRule(s1: Shape, s2: Shape, dshared: seq<Var>, ashared: seq<Var>): set<Constraint>
  {
    Tagged(DistanceRule(s1, s2, dshared), AngleRule(s1, s2, ashared))
  }

  /** `over_constraints(c1, c2)`: `over_distances` united with `over_angles`.
      Each of the two walks `list(shared)` on its own, so each has its own order. */
  method OverConstraints(c1: Cluster, c2: Cluster, dshared: seq<Var>, ashared: seq<Var>)
    returns (r: set<Constraint>)
    requires Enumerates(dshared, c1.shape.Vars() * c2.shape.Vars())
    requires Enumerates(ashared, AngleShared(c1.shape, c2.shape))
    ensures r == ConstraintRule(c1.shape, c2.shape, dshared, ashared)
  {
    var ds := OverDistances(c1, c2, dshared);
    var xs := OverAngles(c1, c2, ashared);
    r := Tagged(ds, xs);
  }
}
