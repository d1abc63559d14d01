/** The bookkeeping of configuration.py: a configuration maps point variables
    to points of one dimension (2 or 3) and carries an `underconstrained`
    flag. Modelled here: construction and its validation, the key-set hash,
    `copy`, `add`, `select`, the structure of `merge` and `merge_scale`, the
    ladders that decide the merge transforms' `underconstrained` flag, and the
    key-set part of `__eq__`. Coordinates are opaque: a point is known only
    by its length. The tolerance test `tol_eq(norm(q - p), 0.0)` is the
    parameter `near`, and the transformed copy of the other configuration
    that a merge adds is the parameter `moved`. */
module Configurations {
  import opened Common

  /** A point; only its length, the dimension, matters here. */
  type Point = seq<real>

  /** `near(p, q)`: q − p has length zero within the solver's tolerance. */
  type Near = (Point, Point) -> bool

  /** Why construction or a merge raised. */
  datatype ConfigError =
    | NoPoints                          // `next(iter(...))` on an empty map
    | NoDimension                       // mixed lengths (or all of length 0)
    | UnsupportedDimension(dim: nat)    // one length, but not 2 or 3
    | DifferentDimensions               // merging a 2D with a 3D configuration
    | MissingVariable(v: Var)           // `select` of a variable without a point

  /** Every point has length d. */
  predicate Uniform(m: map<Var, Point>, d: nat)
  {
    forall v :: v in m ==> |m[v]| == d
  }

  // ----- the hash -----

  /** Python's `hash` on a variable and on an integer. */
  datatype Hashing = Hashing(ofVar: Var -> int, ofSum: int -> int)

  /** The sum of the variables' hashes, in no particular order. */
  ghost function KeySum(keys: set<Var>, h: Var -> int): int
    decreases keys
  {
    if keys == {} then 0 else var v := Pick(keys); h(v) + KeySum(keys - {v}, h)
  }

  /** Some element of a non-empty set. */
  ghost function Pick(s: set<Var>): (v: Var)
    requires s != {}
    ensures v in s
  {
    Inhabited(s); var v :| v in s; v
  }

  /** The hash `makehash` stores: a function of the key set alone. */
  ghost function KeyHash(keys: set<Var>, hashing: Hashing): int
  {
    hashing.ofSum(KeySum(keys, hashing.ofVar))
  }

  /** Any variable can be taken out of the sum first. */
  lemma {:induction false} KeySumRemove(keys: set<Var>, h: Var -> int, v: Var)
    requires v in keys
    ensures KeySum(keys, h) == h(v) + KeySum(keys - {v}, h)
    decreases keys
  {
    var w := Pick(keys);
    if w != v {
      KeySumRemove(keys - {w}, h, v);
      KeySumRemove(keys - {v}, h, w);
      assert keys - {w} - {v} == keys - {v} - {w};
    }
  }

  /** `makehash`: add up the hashes of the variables in dictionary order, and
      hash the sum. Whatever the order, the result depends on the key set only. */
  method MakeHash(points: map<Var, Point>, hashing: Hashing) returns (hv: int)
    ensures hv == KeyHash(points.Keys, hashing)
  {
    var val := 0;
    var rest := points.Keys;
    while rest != {}
      invariant rest <= points.Keys
      invariant val + KeySum(rest, hashing.ofVar) == KeySum(points.Keys, hashing.ofVar)
      decreases rest
    {
      Inhabited(rest);
      var v :| v in rest;
      KeySumRemove(rest, hashing.ofVar, v);
      val := val + hashing.ofVar(v);
      rest := rest - {v};
    }
    hv := hashing.ofSum(val);
  }

  // ----- construction -----

  /** `checkdimension`: the length of some point, or 0 as soon as a point of
      another length turns up. The result is the common length when there is
      one; an empty map raises. */
  method CheckDimension(m: map<Var, Point>) returns (r: Result<nat, ConfigError>)
    ensures r.Err? <==> m == map[]
    ensures r.Err? ==> r.error == NoPoints
    ensures r.Ok? ==> forall d :: d > 0 ==> (Uniform(m, d) <==> r.value == d)
  {
    if m == map[] {
      return Err(NoPoints);
    }
    Inhabited(m.Keys);
    var first :| first in m;
    var dim := |m[first]|;
    var rest := m.Keys;
    while rest != {}
      invariant rest <= m.Keys
      invariant dim == |m[first]|
      invariant forall v :: v in m.Keys - rest ==> |m[v]| == dim
      decreases rest
    {
      Inhabited(rest);
      var v :| v in rest;
      if |m[v]| != dim {
        return Ok(0);
      }
      rest := rest - {v};
    }
    assert Uniform(m, dim);
    r := Ok(dim);
  }

  /** A configuration object. Only `underconstrained` is ever written after
      construction (by `copy`, `merge` and `merge_scale`). */
  class Configuration {
    const points: map<Var, Point>
    const dimension: nat
    const hashvalue: int
    var underconstrained: bool

    /** What holds once `__init__` has returned. */
    ghost predicate Valid(hashing: Hashing)
    {
      points != map[] && (dimension == 2 || dimension == 3) && Uniform(points, dimension)
      && hashvalue == KeyHash(points.Keys, hashing)
    }

    /** The successful path of `__init__`, once the map is known to be valid. */
    constructor (m: map<Var, Point>, d: nat, hashing: Hashing)
      requires m != map[] && (d == 2 || d == 3) && Uniform(m, d)
      ensures points == m && dimension == d && !underconstrained && Valid(hashing)
    {
      var hv := MakeHash(m, hashing);
      points, dimension, hashvalue := m, d, hv;
      underconstrained := false;
    }

    /** `copy`: the same map, and the flag copied over. */
    method Copy(hashing: Hashing) returns (c: Configuration)
      requires Valid(hashing)
      ensures fresh(c) && c.Valid(hashing)
      ensures c.points == points && c.dimension == dimension && c.underconstrained == underconstrained
    {
      c := new Configuration(points, dimension, hashing);
      c.underconstrained := underconstrained;
    }

    /** `add`: every point of this configuration, then every point of `other`
        whose variable is new. Raises when the new points have another
        dimension; the result's flag is false. */
    method Add(other: Configuration, hashing: Hashing) returns (r: Result<Configuration, ConfigError>)
      requires Valid(hashing) && other.Valid(hashing)
      ensures r.Ok? <==> other.dimension == dimension || other.points.Keys <= points.Keys
      ensures r.Err? ==> r.error == NoDimension
      ensures r.Ok? ==> fresh(r.value) && r.value.Valid(hashing) && !r.value.underconstrained
      ensures r.Ok? ==> r.value.points == Extend(points, other.points) && r.value.dimension == dimension
    {
      var newmap := Extended(points, other.points);
      ExtendDimension(points, other.points, dimension, other.dimension);
      r := NewConfiguration(newmap, hashing);
      if r.Ok? {
        assert Uniform(r.value.points, dimension);
        UniformUnique(r.value.points, dimension, r.value.dimension);
      }
    }

    /** `select(vars)`: the points of the listed variables. The first listed
        variable without a point raises; so does an empty list. */
    method Select(vars: seq<Var>, hashing: Hashing) returns (r: Result<Configuration, ConfigError>)
      requires Valid(hashing)
      ensures FirstMissing(vars, points.Keys).Some? ==> r == Err(MissingVariable(FirstMissing(vars, points.Keys).value))
      ensures FirstMissing(vars, points.Keys).None? && vars == [] ==> r == Err(NoPoints)
      ensures r.Ok? <==> vars != [] && FirstMissing(vars, points.Keys).None?
      ensures r.Ok? ==> fresh(r.value) && r.value.Valid(hashing) && r.value.dimension == dimension
      ensures r.Ok? ==> r.value.points.Keys == Elems(vars) && r.value.points.Keys <= points.Keys
      ensures r.Ok? ==> forall v :: v in r.value.points ==> r.value.points[v] == points[v]
    {
      var newmap: map<Var, Point> := map[];
      var i := 0;
      while i < |vars|
        invariant 0 <= i <= |vars|
        invariant AllKnown(vars[..i], points.Keys)
        invariant newmap.Keys == Elems(vars[..i]) && newmap.Keys <= points.Keys
        invariant forall v :: v in newmap ==> newmap[v] == points[v]
      {
        if vars[i] !in points {
          FirstMissingAt(vars, points.Keys, i);
          return Err(MissingVariable(vars[i]));
        }
        assert vars[..i + 1] == vars[..i] + [vars[i]];
        newmap := newmap[vars[i] := points[vars[i]]];
        i := i + 1;
      }
      assert vars[..i] == vars;
      if newmap == map[] {
        return Err(NoPoints);
      }
      assert Uniform(newmap, dimension);
      var c := new Configuration(newmap, dimension, hashing);
      r := Ok(c);
    }

    /** `merge(other)`: add the moved copy of `other` to this configuration and
        give the result the merge transform's flag. Different dimensions raise. */
    method Merge(other: Configuration, shared: seq<Var>, near: Near, moved: map<Var, Point>, hashing: Hashing)
      returns (r: Result<Configuration, ConfigError>)
      requires Valid(hashing) && other.Valid(hashing)
      requires Enumerates(shared, points.Keys * other.points.Keys)
      requires moved.Keys == other.points.Keys && Uniform(moved, other.dimension)
      ensures r.Err? <==> other.dimension != dimension
      ensures r.Err? ==> r.error == DifferentDimensions
      ensures r.Ok? ==> fresh(r.value) && r.value.Valid(hashing) && r.value.dimension == dimension
      ensures r.Ok? ==> r.value.points == Extend(points, moved)
      ensures r.Ok? ==> (r.value.underconstrained ==
        MergeFlag(dimension, points, underconstrained, other.points, other.underconstrained, shared, near))
    {
      var t := MergeTransform(dimension, points, underconstrained, other.dimension, other.points,
                              other.underconstrained, shared, near);
      if t.Err? {
        return Err(t.error);
      }
      r := Combine(moved, t.value, hashing);
    }

    /** `merge_scale(other)`: the same, with the scaled transform's flag. */
    method MergeScale(other: Configuration, shared: seq<Var>, near: Near, moved: map<Var, Point>, hashing: Hashing)
      returns (r: Result<Configuration, ConfigError>)
      requires Valid(hashing) && other.Valid(hashing)
      requires Enumerates(shared, points.Keys * other.points.Keys)
      requires moved.Keys == other.points.Keys && Uniform(moved, other.dimension)
      ensures r.Err? <==> other.dimension != dimension
      ensures r.Err? ==> r.error == DifferentDimensions
      ensures r.Ok? ==> fresh(r.value) && r.value.Valid(hashing) && r.value.dimension == dimension
      ensures r.Ok? ==> r.value.points == Extend(points, moved)
      ensures r.Ok? ==> (r.value.underconstrained ==
        ScaleFlag(dimension, points, underconstrained, other.points, other.underconstrained, shared, near))
    {
      var t := MergeScaleTransform(dimension, points, underconstrained, other.dimension, other.points,
                                   other.underconstrained, shared, near);
      if t.Err? {
        return Err(t.error);
      }
      r := Combine(moved, t.value, hashing);
    }

    /** The common tail of `merge` and `merge_scale`: wrap the moved points in
        a configuration, add it, and set the result's flag. */
    method Combine(moved: map<Var, Point>, flag: bool, hashing: Hashing)
      returns (r: Result<Configuration, ConfigError>)
      requires Valid(hashing)
      requires moved != map[] && Uniform(moved, dimension)
      ensures r.Ok? && fresh(r.value) && r.value.Valid(hashing) && r.value.dimension == dimension
      ensures r.value.points == Extend(points, moved) && r.value.underconstrained == flag
    {
      var othertransformed := new Configuration(moved, dimension, hashing);
      r := Add(othertransformed, hashing);
      r.value.underconstrained := flag;
    }

    /** `__eq__` up to the geometric test: different hashes, sizes or key sets
        give false; equal key sets with different dimensions raise (in the
        merge transform); otherwise the answer is `aligned`, the outcome of the
        tolerance test on the aligned points, which is not modelled. */
    method Equals(other: Configuration, aligned: bool, hashing: Hashing) returns (r: Result<bool, ConfigError>)
      requires Valid(hashing) && other.Valid(hashing)
      ensures points.Keys != other.points.Keys ==> r == Ok(false)
      ensures points.Keys == other.points.Keys && dimension != other.dimension ==> r == Err(DifferentDimensions)
      ensures points.Keys == other.points.Keys && dimension == other.dimension ==> r == Ok(aligned)
    {
      if hashvalue != other.hashvalue {
        return Ok(false);
      }
      if |points| != |other.points| {
        return Ok(false);
      }
      var rest := points.Keys;
      while rest != {}
        invariant rest <= points.Keys
        invariant points.Keys - rest <= other.points.Keys
        decreases rest
      {
        Inhabited(rest);
        var v :| v in rest;
        if v !in other.points {
          return Ok(false);
        }
        rest := rest - {v};
      }
      SameSizeSubset(points.Keys, other.points.Keys);
      if other.dimension != dimension {
        return Err(DifferentDimensions);
      }
      r := Ok(aligned);
    }
  }

  /** `__init__`: validate the map and build the configuration, or raise. */
  method NewConfiguration(m: map<Var, Point>, hashing: Hashing) returns (r: Result<Configuration, ConfigError>)
    ensures r.Ok? <==> m != map[] && (Uniform(m, 2) || Uniform(m, 3))
    ensures m == map[] ==> r == Err(NoPoints)
    ensures r.Err? && m != map[] ==> (r.error == NoDimension <==> forall d :: d > 0 ==> !Uniform(m, d))
    ensures r.Err? && r.error.UnsupportedDimension? ==> r.error.dim > 0 && Uniform(m, r.error.dim)
    ensures r.Ok? ==> fresh(r.value) && r.value.Valid(hashing) && !r.value.underconstrained
    ensures r.Ok? ==> r.value.points == m
  {
    var d := CheckDimension(m);
    if d.Err? {
      return Err(d.error);
    }
    var dim := d.value;
    if dim == 0 {
      return Err(NoDimension);
    } else if dim < 2 || dim > 3 {
      assert Uniform(m, dim);
      return Err(UnsupportedDimension(dim));
    }
    var c := new Configuration(m, dim, hashing);
    r := Ok(c);
  }

  // ----- the merge transforms' flag -----

  /** 1 when the test holds, else 0: one `num_degen += 1`. */
  function Count(b: bool): (n: nat)
    ensures n <= 1 && (n == 1 <==> b)
  {
    if b then 1 else 0
  }

  /** The i-th and j-th shared points of m coincide: `tol_eq(norm(q - p), 0.0)`
      for p, q the points of `shared[i]` and `shared[j]`. */
  predicate Coincide(m: map<Var, Point>, shared: seq<Var>, i: nat, j: nat, near: Near)
  {
    i < |shared| && j < |shared| && shared[i] in m && shared[j] in m && near(m[shared[i]], m[shared[j]])
  }

  /** The flag of `_merge_transform_2D`. shared lists the common variables in
      set order; its first two fix the coordinate frames. Without a shared
      point the flag is set; the inputs' flags are kept; with one shared
      point and no flag inherited, only two sides with points besides it set
      the flag. */
  function RigidFlag2D(m1: map<Var, Point>, u1: bool, m2: map<Var, Point>, u2: bool,
                       shared: seq<Var>, near: Near): (f: bool)
    requires Enumerates(shared, m1.Keys * m2.Keys)
    ensures |shared| == 0 ==> f
    ensures u1 || u2 ==> f
    ensures |shared| == 1 && !u1 && !u2 ==> (f <==> |m1| > 1 && |m2| > 1)
  {
    var inherited := u1 || u2;
    if |shared| == 0 then true
    else if |shared| == 1 then inherited || (|m1| > 1 && |m2| > 1)
    else inherited || Coincide(m1, shared, 0, 1, near) || Coincide(m2, shared, 0, 1, near)
  }

  /** `num_degen` of `_merge_transform_3D`: one for a missing common frame,
      plus one (`Count`) per coinciding pair among the first (two or three)
      shared points, on each side. At most six; none with one shared point. */
  function Degeneracies3D(m1: map<Var, Point>, m2: map<Var, Point>, shared: seq<Var>, near: Near): (n: nat)
    requires Enumerates(shared, m1.Keys * m2.Keys)
    ensures n <= 6
    ensures |shared| <= 1 ==> (n > 0 <==> |shared| == 0)
    ensures |shared| == 2 ==> n <= 2
  {
    if |shared| == 0 then 1
    else if |shared| == 1 then 0
    else if |shared| == 2 then
      Count(Coincide(m1, shared, 0, 1, near)) + Count(Coincide(m2, shared, 0, 1, near))
    else
      Count(Coincide(m1, shared, 0, 1, near)) + Count(Coincide(m1, shared, 0, 2, near))
      + Count(Coincide(m1, shared, 1, 2, near))
      + Count(Coincide(m2, shared, 0, 1, near)) + Count(Coincide(m2, shared, 0, 2, near))
      + Count(Coincide(m2, shared, 1, 2, near))
  }

  /** The flag of `_merge_transform_3D`: the inputs' flags, or a degeneracy
      while both sides have points beyond the shared ones. A side whose
      points are all shared never sets it. */
  function RigidFlag3D(m1: map<Var, Point>, u1: bool, m2: map<Var, Point>, u2: bool,
                       shared: seq<Var>, near: Near): (f: bool)
    requires Enumerates(shared, m1.Keys * m2.Keys)
    ensures u1 || u2 ==> f
    ensures |shared| == 0 && |m1| > 0 && |m2| > 0 ==> f
    ensures f && !u1 && !u2 ==> |m1| > |shared| && |m2| > |shared|
  {
    u1 || u2 || (Degeneracies3D(m1, m2, shared, near) > 0 && |m1| > |shared| && |m2| > |shared|)
  }

  /** The flag of `_merge_scale_transform_2D`: below two shared points it is
      the rigid 3D transform's; from two on, only the frames' coincidences
      count and the inputs' flags are dropped, so without a coincidence the
      result is unflagged whatever the inputs carry. */
  function ScaleFlag2D(m1: map<Var, Point>, u1: bool, m2: map<Var, Point>, u2: bool,
                       shared: seq<Var>, near: Near): (f: bool)
    requires Enumerates(shared, m1.Keys * m2.Keys)
    ensures |shared| < 2 && (u1 || u2) ==> f
    ensures |shared| >= 2 && !Coincide(m1, shared, 0, 1, near) && !Coincide(m2, shared, 0, 1, near) ==> !f
  {
    if |shared| < 2 then RigidFlag3D(m1, u1, m2, u2, shared, near)
    else Coincide(m1, shared, 0, 1, near) || Coincide(m2, shared, 0, 1, near)
  }

  /** The flag of `_merge_scale_transform_3D`. Below two shared points it
      calls the rigid 3D transform; from two on it composes a scaling with
      the rigid 3D transform and takes that transform's flag. Both branches
      give the rigid 3D flag, so the 3D scaled ladder is the rigid one. */
  function ScaleFlag3D(m1: map<Var, Point>, u1: bool, m2: map<Var, Point>, u2: bool,
                       shared: seq<Var>, near: Near): (f: bool)
    requires Enumerates(shared, m1.Keys * m2.Keys)
    ensures u1 || u2 ==> f
    ensures f && !u1 && !u2 ==> |m1| > |shared| && |m2| > |shared|
  {
    RigidFlag3D(m1, u1, m2, u2, shared, near)
  }

  /** The flag `merge` gives its result, by dimension: a rigid merge keeps
      either input's flag, and a merge without a shared point is flagged. */
  function MergeFlag(d: nat, m1: map<Var, Point>, u1: bool, m2: map<Var, Point>, u2: bool,
                     shared: seq<Var>, near: Near): (f: bool)
    requires Enumerates(shared, m1.Keys * m2.Keys)
    ensures u1 || u2 ==> f
    ensures |shared| == 0 && |m1| > 0 && |m2| > 0 ==> f
  {
    if d == 2 then RigidFlag2D(m1, u1, m2, u2, shared, near) else RigidFlag3D(m1, u1, m2, u2, shared, near)
  }

  /** The flag `merge_scale` gives its result, by dimension: only the 2D
      scaled transform with two or more shared points can drop an input's
      flag. */
  function ScaleFlag(d: nat, m1: map<Var, Point>, u1: bool, m2: map<Var, Point>, u2: bool,
                     shared: seq<Var>, near: Near): (f: bool)
    requires Enumerates(shared, m1.Keys * m2.Keys)
    ensures (d != 2 || |shared| < 2) && (u1 || u2) ==> f
    ensures d == 2 && |shared| >= 2 && !Coincide(m1, shared, 0, 1, near) && !Coincide(m2, shared, 0, 1, near) ==> !f
  {
    if d == 2 then ScaleFlag2D(m1, u1, m2, u2, shared, near) else ScaleFlag3D(m1, u1, m2, u2, shared, near)
  }

  /** `merge_transform`: raises on different dimensions, else the flag of
      the 2D or the 3D transform (the matrix itself is not modelled). */
  function MergeTransform(d1: nat, m1: map<Var, Point>, u1: bool, d2: nat, m2: map<Var, Point>, u2: bool,
                          shared: seq<Var>, near: Near): (t: Result<bool, ConfigError>)
    requires Enumerates(shared, m1.Keys * m2.Keys)
    ensures t.Err? <==> d1 != d2
    ensures t.Err? ==> t.error == DifferentDimensions
    ensures t.Ok? ==> t.value == MergeFlag(d1, m1, u1, m2, u2, shared, near)
  {
    if d2 != d1 then Err(DifferentDimensions) else Ok(MergeFlag(d1, m1, u1, m2, u2, shared, near))
  }

  /** `merge_scale_transform`: the same, over the scaled transforms. */
  function MergeScaleTransform(d1: nat, m1: map<Var, Point>, u1: bool, d2: nat, m2: map<Var, Point>, u2: bool,
                               shared: seq<Var>, near: Near): (t: Result<bool, ConfigError>)
    requires Enumerates(shared, m1.Keys * m2.Keys)
    ensures t.Err? <==> d1 != d2
    ensures t.Err? ==> t.error == DifferentDimensions
    ensures t.Ok? ==> t.value == ScaleFlag(d1, m1, u1, m2, u2, shared, near)
  {
    if d2 != d1 then Err(DifferentDimensions) else Ok(ScaleFlag(d1, m1, u1, m2, u2, shared, near))
  }

  // ----- maps -----

  /** The map `add` builds: m1's points, and m2's for the variables m1 lacks. */
  function Extend(m1: map<Var, Point>, m2: map<Var, Point>): (r: map<Var, Point>)
    ensures r.Keys == m1.Keys + m2.Keys
    ensures forall v :: v in m1 ==> r[v] == m1[v]
    ensures forall v :: v in m2 && v !in m1 ==> r[v] == m2[v]
  {
    map v | v in m1.Keys + m2.Keys :: if v in m1 then m1[v] else m2[v]
  }

  /** The two loops of `add`: copy m1, then every entry of m2 whose key is new. */
  method Extended(m1: map<Var, Point>, m2: map<Var, Point>) returns (newmap: map<Var, Point>)
    ensures newmap == Extend(m1, m2)
  {
    newmap := map[];
    var rest := m1.Keys;
    while rest != {}
      invariant rest <= m1.Keys
      invariant newmap.Keys == m1.Keys - rest
      invariant forall v :: v in newmap ==> newmap[v] == m1[v]
      decreases rest
    {
      Inhabited(rest);
      var v :| v in rest;
      newmap := newmap[v := m1[v]];
      rest := rest - {v};
    }
    rest := m2.Keys;
    while rest != {}
      invariant rest <= m2.Keys
      invariant newmap.Keys == m1.Keys + (m2.Keys - rest)
      invariant forall v :: v in newmap && v in m1 ==> newmap[v] == m1[v]
      invariant forall v :: v in newmap && v !in m1 ==> newmap[v] == m2[v]
      decreases rest
    {
      Inhabited(rest);
      var v :| v in rest;
      if v !in newmap {
        newmap := newmap[v := m2[v]];
      }
      rest := rest - {v};
    }
    assert newmap.Keys == Extend(m1, m2).Keys;
    assert forall v :: v in newmap ==> newmap[v] == Extend(m1, m2)[v];
  }

  /** The extended map has one dimension exactly when the second map's new
      points share the first map's dimension, or there are none. */
  lemma ExtendDimension(m1: map<Var, Point>, m2: map<Var, Point>, d1: nat, d2: nat)
    requires m1 != map[] && Uniform(m1, d1) && m2 != map[] && Uniform(m2, d2)
    ensures (exists d :: Uniform(Extend(m1, m2), d)) <==> d1 == d2 || m2.Keys <= m1.Keys
    ensures d1 == d2 || m2.Keys <= m1.Keys ==> Uniform(Extend(m1, m2), d1)
  {
    var e := Extend(m1, m2);
    if d1 == d2 || m2.Keys <= m1.Keys {
      assert Uniform(e, d1);
    }
    if d1 != d2 && !(m2.Keys <= m1.Keys) {
      Outside(m2.Keys, m1.Keys);
      var v :| v in m2 && v !in m1;
      Inhabited(m1.Keys);
      var w :| w in m1;
      assert |e[v]| == d2 && |e[w]| == d1;
    }
  }

  /** A non-empty map has at most one dimension. */
  lemma UniformUnique(m: map<Var, Point>, d1: nat, d2: nat)
    requires m != map[] && Uniform(m, d1) && Uniform(m, d2)
    ensures d1 == d2
  {
    Inhabited(m.Keys);
    var v :| v in m;
    assert |m[v]| == d1;
  }

  /** A subset as large as its superset is the whole of it. */
  lemma SameSizeSubset(a: set<Var>, b: set<Var>)
    requires a <= b && |a| == |b|
    ensures a == b
  {
    assert |b - a| == |b| - |a| by {
      assert b == a + (b - a);
    }
  }

  /** Every listed variable has a point. */
  predicate AllKnown(vars: seq<Var>, keys: set<Var>)
  {
    forall i :: 0 <= i < |vars| ==> vars[i] in keys
  }

  /** A missing variable with every earlier one known is the first missing
      one. */
  lemma FirstMissingAt(vars: seq<Var>, keys: set<Var>, i: nat)
    requires i < |vars| && AllKnown(vars[..i], keys) && vars[i] !in keys
    ensures FirstMissing(vars, keys) == Some(vars[i])
  {
    var r := FirstMissing(vars, keys);
    assert !AllKnown(vars, keys);
    var k :| 0 <= k < |vars| && vars[k] == r.value && AllKnown(vars[..k], keys);
    forall j | 0 <= j < i
      ensures vars[j] in keys
    {
      assert vars[..i][j] == vars[j];
    }
    forall j | 0 <= j < k
      ensures vars[j] in keys
    {
      assert vars[..k][j] == vars[j];
    }
  }

  /** The first listed variable that has no point, if any: it sits at some
      position i, and every variable listed before i has a point. */
  function FirstMissing(vars: seq<Var>, keys: set<Var>): (r: Option<Var>)
    ensures r.None? <==> AllKnown(vars, keys)
    ensures r.Some? ==> r.value in vars && r.value !in keys
    ensures r.Some? ==> exists i :: 0 <= i < |vars| && vars[i] == r.value && AllKnown(vars[..i], keys)
  {
    if vars == [] then None
    else if vars[0] !in keys then Some(vars[0])
    else assert vars == [vars[0]] + vars[1..]; FirstMissing(vars[1..], keys)
  }
}
