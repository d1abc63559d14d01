/** What the merge transforms' `underconstrained` flag does, proved from the
    ladders of configuration.py: when it is forced on, when it is only
    inherited, where the scaled transforms differ from the rigid ones, and
    what merging a configuration with itself gives. */
module ConfigurationFacts {
  import opened Common
  import opened Configurations

  /** Two configurations' points and flags, with their shared variables. */
  ghost predicate Sides(m1: map<Var, Point>, m2: map<Var, Point>, shared: seq<Var>)
  {
    m1 != map[] && m2 != map[] && Enumerates(shared, m1.Keys * m2.Keys)
  }

  /** Without a shared point nothing fixes the relative placement: every
      transform, rigid or scaled, in 2D or 3D, is flagged. */
  lemma NoSharedFlagged(m1: map<Var, Point>, u1: bool, m2: map<Var, Point>, u2: bool,
                        shared: seq<Var>, near: Near)
    requires Sides(m1, m2, shared) && |shared| == 0
    ensures RigidFlag2D(m1, u1, m2, u2, shared, near) && RigidFlag3D(m1, u1, m2, u2, shared, near)
    ensures ScaleFlag2D(m1, u1, m2, u2, shared, near) && ScaleFlag3D(m1, u1, m2, u2, shared, near)
  {
    assert |m1| > 0 && |m2| > 0 by {
      Inhabited(m1.Keys);
      Inhabited(m2.Keys);
    }
  }

  /** From two shared points on, the 2D scaled transform ignores the inputs'
      flags: it is flagged only by coinciding frame points, so an
      underconstrained input can give an unflagged result. */
  lemma Scale2DDropsFlags(m1: map<Var, Point>, u1: bool, m2: map<Var, Point>, u2: bool,
                          shared: seq<Var>, near: Near)
    requires Enumerates(shared, m1.Keys * m2.Keys) && |shared| >= 2
    ensures ScaleFlag2D(m1, u1, m2, u2, shared, near) == ScaleFlag2D(m1, false, m2, false, shared, near)
    ensures ScaleFlag2D(m1, u1, m2, u2, shared, near) <==>
      Coincide(m1, shared, 0, 1, near) || Coincide(m2, shared, 0, 1, near)
  {
  }

  /** Below two shared points both scaled transforms are the rigid 3D one,
      whatever the dimension; the scaled 3D transform has the rigid 3D
      transform's flag in every case. */
  lemma ScaleFallsBackTo3D(m1: map<Var, Point>, u1: bool, m2: map<Var, Point>, u2: bool,
                           shared: seq<Var>, near: Near)
    requires Enumerates(shared, m1.Keys * m2.Keys)
    ensures |shared| < 2 ==> ScaleFlag2D(m1, u1, m2, u2, shared, near) == RigidFlag3D(m1, u1, m2, u2, shared, near)
    ensures ScaleFlag3D(m1, u1, m2, u2, shared, near) == RigidFlag3D(m1, u1, m2, u2, shared, near)
  {
  }

  /** One shared point: in 2D the transform is flagged unless one side is
      that point alone; in 3D (and in both scaled variants) the flag is only
      inherited. */
  lemma OneShared(m1: map<Var, Point>, u1: bool, m2: map<Var, Point>, u2: bool,
                  shared: seq<Var>, near: Near)
    requires Sides(m1, m2, shared) && |shared| == 1
    ensures RigidFlag2D(m1, u1, m2, u2, shared, near) <==> u1 || u2 || (|m1| > 1 && |m2| > 1)
    ensures RigidFlag3D(m1, u1, m2, u2, shared, near) == u1 || u2
    ensures ScaleFlag2D(m1, u1, m2, u2, shared, near) == u1 || u2
    ensures ScaleFlag3D(m1, u1, m2, u2, shared, near) == u1 || u2
  {
  }

  /** The count of degeneracies is at most six, and from two shared points on
      it is zero exactly when no pair of frame points coincides. */
  lemma DegeneraciesCount(m1: map<Var, Point>, m2: map<Var, Point>, shared: seq<Var>, near: Near)
    requires Enumerates(shared, m1.Keys * m2.Keys) && |shared| >= 2
    ensures Degeneracies3D(m1, m2, shared, near) <= 6
    ensures |shared| == 2 ==> (Degeneracies3D(m1, m2, shared, near) == 0 <==>
      !Coincide(m1, shared, 0, 1, near) && !Coincide(m2, shared, 0, 1, near))
    ensures |shared| >= 3 ==> (Degeneracies3D(m1, m2, shared, near) == 0 <==>
      !Coincide(m1, shared, 0, 1, near) && !Coincide(m1, shared, 0, 2, near) && !Coincide(m1, shared, 1, 2, near)
      && !Coincide(m2, shared, 0, 1, near) && !Coincide(m2, shared, 0, 2, near) && !Coincide(m2, shared, 1, 2, near))
  {
  }

  /** When every point of one side is shared, the 3D transform only inherits
      the flags: that side is already placed by the other. */
  lemma ContainedSide3D(m1: map<Var, Point>, u1: bool, m2: map<Var, Point>, u2: bool,
                        shared: seq<Var>, near: Near)
    requires Enumerates(shared, m1.Keys * m2.Keys) && (m1.Keys <= m2.Keys || m2.Keys <= m1.Keys)
    ensures RigidFlag3D(m1, u1, m2, u2, shared, near) == u1 || u2
  {
    DistinctCard(shared);
    if m1.Keys <= m2.Keys {
      assert m1.Keys * m2.Keys == m1.Keys;
    } else {
      assert m1.Keys * m2.Keys == m2.Keys;
    }
  }

  /** Merging a configuration with itself (every point shared) in 3D gives
      back its own flag; in 2D it is also flagged when its first two listed
      points coincide. */
  lemma SelfMerge(m: map<Var, Point>, u: bool, shared: seq<Var>, near: Near)
    requires m != map[] && Enumerates(shared, m.Keys)
    ensures m.Keys * m.Keys == m.Keys
    ensures RigidFlag3D(m, u, m, u, shared, near) == u
    ensures ScaleFlag3D(m, u, m, u, shared, near) == u
    ensures |shared| == 1 ==> RigidFlag2D(m, u, m, u, shared, near) == u
    ensures |shared| >= 2 ==> (RigidFlag2D(m, u, m, u, shared, near) <==> u || Coincide(m, shared, 0, 1, near))
  {
    assert m.Keys * m.Keys == m.Keys;
    ContainedSide3D(m, u, m, u, shared, near);
    DistinctCard(shared);
  }

  /** Adding points whose variables are all known changes nothing; in
      particular a configuration added to itself is itself. */
  lemma ExtendSubsumed(m1: map<Var, Point>, m2: map<Var, Point>)
    requires m2.Keys <= m1.Keys
    ensures Extend(m1, m2) == m1
  {
    assert Extend(m1, m2).Keys == m1.Keys;
  }

  /** Configurations over the same variables have the same hash, so the hash
      pre-check of `__eq__` never separates two configurations it should
      compare. */
  lemma SameKeysSameHash(c1: Configuration, c2: Configuration, hashing: Hashing)
    requires c1.Valid(hashing) && c2.Valid(hashing) && c1.points.Keys == c2.points.Keys
    ensures c1.hashvalue == c2.hashvalue
  {
  }
}
