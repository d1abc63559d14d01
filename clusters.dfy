/** The cluster algebra of cluster.py: the constraint identifiers `Distance`
    and `Angle` with their equality and hash, the three cluster kinds, their
    constructors and `copy`, the creation counter, and `intersection`. */
module Clusters {
  import opened Common

  // ----- constraint identifiers -----

  /** A known distance between two point variables. */
  datatype Distance = Distance(a: Var, b: Var)

  /** What `Distance.__hash__` hashes and `Distance.__eq__` compares: the
      unordered set of the two variables. */
  function DistanceKey(d: Distance): set<Var>
  {
    {d.a, d.b}
  }

  /** `Distance.__eq__`. */
  predicate DistanceEq(d: Distance, e: Distance)
  {
    DistanceKey(d) == DistanceKey(e)
  }

  /** A known angle; `b` is meant to be the vertex. */
  datatype Angle = Angle(a: Var, b: Var, c: Var)

  /** What `Angle.__hash__` hashes: the set of the three variables. */
  function AngleKey(x: Angle): set<Var>
  {
    {x.a, x.b, x.c}
  }

  /** `Angle.__eq__` as the code writes it: the same THIRD element and the same
      set of variables. */
  predicate AngleEq(x: Angle, y: Angle)
  {
    x.c == y.c && AngleKey(x) == AngleKey(y)
  }

  /** Two distances are equal exactly when they join the same two variables,
      in either order; equal distances hash alike. */
  lemma DistanceEqIff(a: Var, b: Var, c: Var, d: Var)
    ensures DistanceEq(Distance(a, b), Distance(c, d)) <==> (a == c && b == d) || (a == d && b == c)
    ensures DistanceEq(Distance(a, b), Distance(c, d)) ==> DistanceKey(Distance(a, b)) == DistanceKey(Distance(c, d))
  {
    if DistanceEq(Distance(a, b), Distance(c, d)) && !(a == c && b == d) {
      assert a in {c, d} && b in {c, d} && c in {a, b} && d in {a, b};
    }
  }

  /** Order does not matter to a distance. */
  lemma DistanceSymmetric(a: Var, b: Var)
    ensures DistanceEq(Distance(a, b), Distance(b, a))
    ensures DistanceKey(Distance(a, b)) == DistanceKey(Distance(b, a))
  {
  }

  /** Swapping the outer variables keeps the hash, but the angles are equal
      only when the outer variables coincide, because `__eq__` compares the
      third element. Swapping the vertex with the third element keeps the hash
      and gives an equal angle only when those two coincide. */
  lemma AngleSwaps(a: Var, b: Var, c: Var)
    ensures AngleKey(Angle(a, b, c)) == AngleKey(Angle(c, b, a)) == AngleKey(Angle(a, c, b))
    ensures AngleEq(Angle(a, b, c), Angle(c, b, a)) <==> a == c
    ensures AngleEq(Angle(a, b, c), Angle(a, c, b)) <==> b == c
  {
  }

  /** `__eq__` on each identifier is an equivalence that agrees with `__hash__`. */
  lemma EqualityIsEquivalence(d: Distance, e: Distance, f: Distance, x: Angle, y: Angle, z: Angle)
    ensures DistanceEq(d, d) && (DistanceEq(d, e) ==> DistanceEq(e, d) && DistanceKey(d) == DistanceKey(e))
    ensures DistanceEq(d, e) && DistanceEq(e, f) ==> DistanceEq(d, f)
    ensures AngleEq(x, x) && (AngleEq(x, y) ==> AngleEq(y, x) && AngleKey(x) == AngleKey(y))
    ensures AngleEq(x, y) && AngleEq(y, z) ==> AngleEq(x, z)
  {
  }

  // ----- clusters -----

  /** The immutable part of a cluster: its kind and its variables. */
  datatype Shape =
    | Rigid(vars: set<Var>)
    | Hedgehog(cvar: Var, xvars: set<Var>)
    | Balloon(vars: set<Var>)
  {
    /** The cluster's `vars`: for a hedgehog, its legs plus its centre. */
    function Vars(): set<Var>
    {
      if Hedgehog? then xvars + {cvar} else vars
    }
  }

  /** The size guard of the kind's constructor, applied to a set. */
  predicate PassesGuard(s: Shape)
  {
    match s
    case Rigid(_) => true
    case Hedgehog(_, xvars) => |xvars| >= 2
    case Balloon(vars) => |vars| >= 3
  }

  /** `Cluster.intersection` on the immutable part: the cluster built from the
      shared variables, or none. The case table is over the ordered pair of
      kinds, as in the source. */
  function Intersect(s1: Shape, s2: Shape): (r: Option<Shape>)
    ensures |s1.Vars() * s2.Vars()| < 2 ==> r.None?
    ensures r.Some? ==> r.value.Vars() <= s1.Vars() * s2.Vars()
    ensures r.Some? ==> PassesGuard(r.value) && |r.value.Vars()| >= 2
    ensures (r.Some? && r.value.Rigid?) <==> s1.Rigid? && s2.Rigid? && |s1.Vars() * s2.Vars()| >= 2
  {
    var shared := s1.Vars() * s2.Vars();
    if |shared| < 2 then None
    else
      match s1
      case Rigid(_) =>
        (match s2
         case Rigid(_) => if |shared| >= 2 then Some(Rigid(shared)) else None
         case Balloon(_) => if |shared| >= 3 then Some(Balloon(shared)) else None
         case Hedgehog(c, _) => AroundCentre(c, s1.Vars(), shared))
      case Balloon(_) =>
        (match s2
         case Rigid(_) => if |shared| >= 3 then Some(Balloon(shared)) else None
         case Balloon(_) => if |shared| >= 3 then Some(Balloon(shared)) else None
         case Hedgehog(c, _) => AroundCentre(c, s1.Vars(), shared))
      case Hedgehog(c, xs) =>
        (match s2
         case Rigid(_) => AroundCentre(c, s2.Vars(), shared)
         case Balloon(_) => AroundCentre(c, s2.Vars(), shared)
         case Hedgehog(c2, xs2) =>
           var legs := xs * xs2;
           if c == c2 && |legs| >= 2 then Some(Hedgehog(c, legs)) else None)
  }

  /** The hedgehog rule shared by Rigid/Balloon x Hedgehog and its reverse:
      the shared variables other than the centre become the legs. */
  function AroundCentre(c: Var, otherVars: set<Var>, shared: set<Var>): (r: Option<Shape>)
    ensures r.Some? <==> c in otherVars && |shared - {c}| >= 2
    ensures r.Some? ==> r.value == Hedgehog(c, shared - {c})
    ensures r.Some? ==> r.value.Vars() == (shared - {c}) + {c}
    ensures r.Some? ==> PassesGuard(r.value) && |r.value.Vars()| >= 2
  {
    var legs := shared - {c};
    if c in otherVars && |legs| >= 2 then
      assert legs <= legs + {c};
      Some(Hedgehog(c, legs))
    else None
  }

  /** `intersection` is symmetric: swapping the clusters gives the same kind,
      variables and centre. */
  lemma IntersectCommutes(s1: Shape, s2: Shape)
    ensures Intersect(s1, s2) == Intersect(s2, s1)
  {
    assert s1.Vars() * s2.Vars() == s2.Vars() * s1.Vars();
    if s1.Hedgehog? && s2.Hedgehog? {
      assert s1.xvars * s2.xvars == s2.xvars * s1.xvars;
    }
  }

  /** Rigid or Balloon against Balloon, in either order: Balloon(shared) exactly
      when at least three variables are shared. */
  lemma IntersectWithBalloon(s: Shape, vs: set<Var>)
    requires !s.Hedgehog?
    ensures Intersect(s, Balloon(vs)) == Intersect(Balloon(vs), s)
    ensures Intersect(s, Balloon(vs)).Some? <==> |s.vars * vs| >= 3
    ensures Intersect(s, Balloon(vs)).Some? ==> Intersect(s, Balloon(vs)).value == Balloon(s.vars * vs)
  {
    IntersectCommutes(s, Balloon(vs));
  }

  /** Rigid or Balloon against a hedgehog, in either order: a hedgehog on the
      same centre with the other shared variables as legs, exactly when the
      centre lies in the other cluster and at least two legs remain. */
  lemma IntersectWithHedgehog(s: Shape, c: Var, xs: set<Var>)
    requires !s.Hedgehog?
    ensures Intersect(s, Hedgehog(c, xs)) == Intersect(Hedgehog(c, xs), s)
    ensures Intersect(s, Hedgehog(c, xs)).Some? <==> c in s.vars && |s.vars * (xs + {c}) - {c}| >= 2
    ensures Intersect(s, Hedgehog(c, xs)).Some? ==>
              Intersect(s, Hedgehog(c, xs)).value == Hedgehog(c, s.vars * (xs + {c}) - {c})
  {
    IntersectCommutes(s, Hedgehog(c, xs));
    var shared := s.vars * (xs + {c});
    if |shared - {c}| >= 2 {
      SubsetCard(shared - {c}, shared);
    }
  }

  /** Two hedgehogs intersect only when they have the same centre and at least
      two common legs. */
  lemma IntersectHedgehogs(c1: Var, xs1: set<Var>, c2: Var, xs2: set<Var>)
    ensures Intersect(Hedgehog(c1, xs1), Hedgehog(c2, xs2)).Some? <==> c1 == c2 && |xs1 * xs2| >= 2
    ensures Intersect(Hedgehog(c1, xs1), Hedgehog(c2, xs2)).Some? ==>
              Intersect(Hedgehog(c1, xs1), Hedgehog(c2, xs2)).value == Hedgehog(c1, xs1 * xs2)
  {
    if |xs1 * xs2| >= 2 {
      SubsetCard(xs1 * xs2, (xs1 + {c1}) * (xs2 + {c2}));
    }
  }

  /** A cluster that passes its guard and has at least two variables is its own
      intersection with itself. */
  lemma IntersectSelf(s: Shape)
    requires PassesGuard(s) && |s.Vars()| >= 2
    ensures Intersect(s, s) == Some(s)
  {
    assert s.Vars() * s.Vars() == s.Vars();
    if s.Hedgehog? {
      assert s.xvars * s.xvars == s.xvars;
    }
  }

  /** The cross intersections the source's `test()` driver prints, for
      r = Rigid{1,3,4,5}, b = Balloon{1,2,3,4} and h = Hedgehog(1, {2,3,5}):
      each pair gives the same cluster in both orders. */
  lemma DriverCrossIntersections()
    ensures Intersect(Rigid({1, 3, 4, 5}), Balloon({1, 2, 3, 4})) == Some(Balloon({1, 3, 4}))
    ensures Intersect(Balloon({1, 2, 3, 4}), Rigid({1, 3, 4, 5})) == Some(Balloon({1, 3, 4}))
    ensures Intersect(Rigid({1, 3, 4, 5}), Hedgehog(1, {2, 3, 5})) == Some(Hedgehog(1, {3, 5}))
    ensures Intersect(Hedgehog(1, {2, 3, 5}), Rigid({1, 3, 4, 5})) == Some(Hedgehog(1, {3, 5}))
    ensures Intersect(Balloon({1, 2, 3, 4}), Hedgehog(1, {2, 3, 5})) == Some(Hedgehog(1, {2, 3}))
    ensures Intersect(Hedgehog(1, {2, 3, 5}), Balloon({1, 2, 3, 4})) == Some(Hedgehog(1, {2, 3}))
  {
    var r, b, h := Rigid({1, 3, 4, 5}), Balloon({1, 2, 3, 4}), Hedgehog(1, {2, 3, 5});
    assert r.Vars() * b.Vars() == {1, 3, 4} && |{1, 3, 4}| == 3;
    assert r.Vars() * h.Vars() == {1, 3, 5} && {1, 3, 5} - {1} == {3, 5} && |{3, 5}| == 2;
    assert b.Vars() * h.Vars() == {1, 2, 3} && {1, 2, 3} - {1} == {2, 3} && |{2, 3}| == 2;
    IntersectCommutes(r, b);
    IntersectCommutes(r, h);
    IntersectCommutes(b, h);
  }

  /** The double intersections of the same driver: intersecting the results
      with the third cluster leaves a single leg, so each gives none. */
  lemma DriverDoubleIntersections()
    ensures Intersect(Balloon({1, 3, 4}), Hedgehog(1, {2, 3, 5})) == None
    ensures Intersect(Hedgehog(1, {3, 5}), Balloon({1, 2, 3, 4})) == None
    ensures Intersect(Hedgehog(1, {2, 3}), Rigid({1, 3, 4, 5})) == None
  {
    assert Balloon({1, 3, 4}).Vars() * Hedgehog(1, {2, 3, 5}).Vars() == {1, 3};
    assert Hedgehog(1, {3, 5}).Vars() * Balloon({1, 2, 3, 4}).Vars() == {1, 3};
    assert Hedgehog(1, {2, 3}).Vars() * Rigid({1, 3, 4, 5}).Vars() == {1, 3};
    assert {1, 3} - {1} == {3} && |{3}| == 1;
  }

  // ----- cluster objects -----

  /** The class-level `Cluster.staticcounter`: how many clusters have been
      created so far. */
  class CreationCounter {
    var count: nat

    constructor ()
      ensures count == 0
    {
      count := 0;
    }
  }

  /** Why a constructor raised. */
  datatype ClusterError = TooFewLegs | TooFewVariables

  /** A cluster object: a creation stamp, its kind and variables, and the
      `overconstrained` flag that `copy` (and the planner) set in place. */
  class Cluster {
    const creationtime: nat
    const shape: Shape
    var overconstrained: bool

    /** `Cluster.__init__` followed by the kind's fields: bump the shared
        counter and stamp the new cluster with it. */
    constructor (counter: CreationCounter, shape: Shape)
      modifies counter
      ensures counter.count == old(counter.count) + 1
      ensures creationtime == counter.count
      ensures this.shape == shape && !overconstrained
    {
      counter.count := counter.count + 1;
      creationtime := counter.count;
      this.shape := shape;
      overconstrained := false;
    }

    /** `copy`: a new cluster of the same kind and variables, with a later
        stamp and the same `overconstrained` flag. The copy re-runs the
        constructor, so a hedgehog or balloon whose variable SET is below the
        guard (it was built from a list with repeats) raises here. */
    method Copy(counter: CreationCounter) returns (r: Result<Cluster, ClusterError>)
      modifies counter
      ensures counter.count == old(counter.count) + 1
      ensures r.Ok? <==> PassesGuard(shape)
      ensures r.Ok? ==> fresh(r.value) && r.value.shape == shape
      ensures r.Ok? ==> r.value.overconstrained == overconstrained
      ensures r.Ok? ==> r.value.creationtime == counter.count
      ensures r.Ok? && creationtime <= old(counter.count) ==> creationtime < r.value.creationtime
    {
      match shape {
        case Rigid(vs) =>
          SupportOfSet(vs);
          var c := NewRigid(counter, multiset(vs));
          r := Ok(c);
        case Hedgehog(cv, xs) =>
          SupportOfSet(xs);
          r := NewHedgehog(counter, cv, multiset(xs));
        case Balloon(vs) =>
          SupportOfSet(vs);
          r := NewBalloon(counter, multiset(vs));
      }
      if r.Ok? {
        r.value.overconstrained := overconstrained;
      }
    }

    /** `intersection` on cluster objects: the shared structure as a new,
        freshly stamped cluster, or none (and then nothing is created). */
    method Intersection(other: Cluster, counter: CreationCounter) returns (r: Option<Cluster>)
      modifies counter
      ensures r.None? <==> Intersect(shape, other.shape).None?
      ensures r.None? ==> counter.count == old(counter.count)
      ensures r.Some? ==> fresh(r.value) && Some(r.value.shape) == Intersect(shape, other.shape)
      ensures r.Some? ==> !r.value.overconstrained
      ensures r.Some? ==> counter.count == old(counter.count) + 1 && r.value.creationtime == counter.count
    {
      var s := Intersect(shape, other.shape);
      match s
      case None =>
        r := None;
      case Some(Rigid(vs)) =>
        SupportOfSet(vs);
        var c := NewRigid(counter, multiset(vs));
        r := Some(c);
      case Some(Balloon(vs)) =>
        SupportOfSet(vs);
        var b := NewBalloon(counter, multiset(vs));
        // the guard always passes on an intersection result
        r := Some(b.value);
      case Some(Hedgehog(cv, xs)) =>
        SupportOfSet(xs);
        var h := NewHedgehog(counter, cv, multiset(xs));
        r := Some(h.value);
    }
  }

  /** `Rigid(vars)`: no size guard. `vars` is the input collection counted with
      repetition; the cluster keeps its set. */
  method NewRigid(counter: CreationCounter, vars: multiset<Var>) returns (c: Cluster)
    modifies counter
    ensures counter.count == old(counter.count) + 1
    ensures fresh(c) && c.creationtime == counter.count
    ensures c.shape == Rigid(Support(vars)) && !c.overconstrained
  {
    c := new Cluster(counter, Rigid(Support(vars)));
  }

  /** `Hedgehog(cvar, xvars)`: raises when the input collection has fewer than
      two entries, counting repeats; the counter is bumped either way. The new
      hedgehog's variables are its legs plus its centre. */
  method NewHedgehog(counter: CreationCounter, cvar: Var, xvars: multiset<Var>)
    returns (r: Result<Cluster, ClusterError>)
    modifies counter
    ensures counter.count == old(counter.count) + 1
    ensures r.Ok? <==> |xvars| >= 2
    ensures r.Err? ==> r.error == TooFewLegs
    ensures r.Ok? ==> fresh(r.value) && r.value.creationtime == counter.count && !r.value.overconstrained
    ensures r.Ok? ==> r.value.shape == Hedgehog(cvar, Support(xvars))
    ensures r.Ok? ==> r.value.shape.Vars() == Support(xvars) + {cvar}
  {
    var c := new Cluster(counter, Hedgehog(cvar, Support(xvars)));
    if |xvars| < 2 {
      return Err(TooFewLegs);
    }
    r := Ok(c);
  }

  /** `Balloon(variables)`: raises when the input collection has fewer than
      three entries, counting repeats; the counter is bumped either way. */
  method NewBalloon(counter: CreationCounter, variables: multiset<Var>)
    returns (r: Result<Cluster, ClusterError>)
    modifies counter
    ensures counter.count == old(counter.count) + 1
    ensures r.Ok? <==> |variables| >= 3
    ensures r.Err? ==> r.error == TooFewVariables
    ensures r.Ok? ==> fresh(r.value) && r.value.creationtime == counter.count && !r.value.overconstrained
    ensures r.Ok? ==> r.value.shape == Balloon(Support(variables))
  {
    var c := new Cluster(counter, Balloon(Support(variables)));
    if |variables| < 3 {
      return Err(TooFewVariables);
    }
    r := Ok(c);
  }

  /** Because the guards count repeats, `Balloon([1, 1, 2])` is accepted with
      two variables, and copying it raises. */
  lemma BalloonGuardCountsRepeats()
    ensures |multiset([1, 1, 2])| >= 3
    ensures Support(multiset([1, 1, 2])) == {1, 2}
    ensures !PassesGuard(Balloon(Support(multiset([1, 1, 2]))))
  {
    var m := multiset([1, 1, 2]);
    assert 1 in m && 2 in m;
    assert forall x :: x in m ==> x == 1 || x == 2;
    assert Support(m) == {1, 2};
  }
}
