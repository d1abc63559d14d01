/** What a counted loop `for m in range(lo, hi): r = r ∪ rows(m)` collects,
    with its members and its size. The over-constraint detector of cluster.py
    nests two or three such loops; each nesting level is one `Union` whose rows
    are the inner level, so every property below is proved once, over rows
    that are left abstract. */
module Rows {

  /** rows(lo) ∪ … ∪ rows(hi − 1). */
  ghost function Union<T>(rows: int -> set<T>, lo: int, hi: int): set<T>
    decreases hi - lo
  {
    if hi <= lo then {} else Union(rows, lo, hi - 1) + rows(hi - 1)
  }

  /** |rows(lo)| + … + |rows(hi − 1)|. */
  ghost function Total<T>(rows: int -> set<T>, lo: int, hi: int): int
    decreases hi - lo
  {
    if hi <= lo then 0 else Total(rows, lo, hi - 1) + |rows(hi - 1)|
  }

  /** g(lo) + … + g(hi − 1). */
  ghost function Sum(g: int -> int, lo: int, hi: int): int
    decreases hi - lo
  {
    if hi <= lo then 0 else Sum(g, lo, hi - 1) + g(hi - 1)
  }

  /** No two of rows lo..hi−1 share an element. */
  ghost predicate Separate<T>(rows: int -> set<T>, lo: int, hi: int)
  {
    forall p, q :: lo <= p < q < hi ==> rows(p) !! rows(q)
  }

  /** Everything collected comes from some row. */
  lemma {:induction false} UnionMembers<T>(rows: int -> set<T>, lo: int, hi: int)
    ensures forall t :: t in Union(rows, lo, hi) ==> exists m :: lo <= m < hi && t in rows(m)
    decreases hi - lo
  {
    if hi > lo {
      UnionMembers(rows, lo, hi - 1);
    }
  }

  /** Every row is collected. */
  lemma {:induction false} UnionHas<T>(rows: int -> set<T>, lo: int, hi: int, m: int)
    requires lo <= m < hi
    ensures rows(m) <= Union(rows, lo, hi)
    decreases hi - lo
  {
    if m < hi - 1 {
      UnionHas(rows, lo, hi - 1, m);
    }
  }

  /** Rows that share nothing add up. */
  lemma {:induction false} UnionSize<T>(rows: int -> set<T>, lo: int, hi: int)
    requires Separate(rows, lo, hi)
    ensures |Union(rows, lo, hi)| == Total(rows, lo, hi)
    decreases hi - lo
  {
    if hi > lo {
      UnionSize(rows, lo, hi - 1);
      UnionMembers(rows, lo, hi - 1);
      var older, row := Union(rows, lo, hi - 1), rows(hi - 1);
      assert older !! row by {
        forall t | t in older
          ensures t !in row
        {
          var m :| lo <= m < hi - 1 && t in rows(m);
          assert rows(m) !! rows(hi - 1);
        }
      }
      assert |older + row| == |older| + |row|;
    }
  }

  /** Rows of one size c add up to c times their number. */
  lemma {:induction false} TotalConst<T>(rows: int -> set<T>, lo: int, hi: int, c: int)
    requires lo <= hi
    requires forall m :: lo <= m < hi ==> |rows(m)| == c
    ensures Total(rows, lo, hi) == c * (hi - lo)
    decreases hi - lo
  {
    if hi > lo {
      TotalConst(rows, lo, hi - 1, c);
    }
  }

  /** Rows whose sizes are given by g add up to the sum of g. */
  lemma {:induction false} TotalSum<T>(rows: int -> set<T>, g: int -> int, lo: int, hi: int)
    requires forall m :: lo <= m < hi ==> |rows(m)| == g(m)
    ensures Total(rows, lo, hi) == Sum(g, lo, hi)
    decreases hi - lo
  {
    if hi > lo {
      TotalSum(rows, g, lo, hi - 1);
    }
  }
}
