/** Constraint counting of cluster.py: `binomial` and the `num_*` functions
    that count the distances and angles a cluster implies. */
module Combinatorics {
  import opened Common
  import opened Clusters

  /** The number of k-element subsets of an n-element set, by Pascal's rule.
      This is the reference the loop in `Binomial` is proved against. */
  function Choose(n: nat, k: nat): (r: nat)
    ensures r > 0 <==> k <= n
  {
    if k == 0 then 1
    else if n == 0 then 0
    else Choose(n - 1, k - 1) + Choose(n - 1, k)
  }

  /** There are n one-element subsets. */
  lemma {:induction false} ChooseOne(n: nat)
    ensures Choose(n, 1) == n
  {
    if n > 0 {
      ChooseOne(n - 1);
    }
  }


  /** The step the loop of `binomial` relies on: C(n,j)·(n−j) = C(n,j+1)·(j+1),
      so the division by j+1 is exact. */
  lemma {:induction false} Absorption(n: nat, j: nat)
    ensures Choose(n, j) * (n - j) == Choose(n, j + 1) * (j + 1)
  {
    if n == 0 {
    } else if j == 0 {
      ChooseOne(n);
    } else {
      var m := n - 1;
      var a, b, c := Choose(m, j - 1), Choose(m, j), Choose(m, j + 1);
      assert Choose(n, j) == a + b;
      assert Choose(n, j + 1) == b + c;
      Absorption(m, j);
      assert b * (m - j) == c * (j + 1);
      Absorption(m, j - 1);
      assert a * (n - j) == b * j;
      calc {
        Choose(n, j) * (n - j);
        (a + b) * (n - j);
        { Distributes(a, b, n - j); }
        a * (n - j) + b * (n - j);
        b * j + b * (n - j);
        { Factors(b, j, n - j); }
        b * n;
        { Factors(b, j + 1, m - j); }
        b * (j + 1) + b * (m - j);
        b * (j + 1) + c * (j + 1);
        { Distributes(b, c, j + 1); }
        (b + c) * (j + 1);
        Choose(n, j + 1) * (j + 1);
      }
    }
  }

  /** Multiplication distributes over addition on the left factor. */
  lemma Distributes(x: int, y: int, z: int)
    ensures (x + y) * z == x * z + y * z
  {
  }

  /** ... and on the right factor. */
  lemma Factors(x: int, y: int, z: int)
    ensures x * y + x * z == x * (y + z)
  {
  }

  /** A positive multiple of a positive number is at least that number. */
  lemma {:induction false} MultipleAtLeast(a: int, d: int)
    requires a >= 1 && d > 0
    ensures a * d >= d
  {
    if a > 1 {
      MultipleAtLeast(a - 1, d);
      Distributes(a - 1, 1, d);
    }
  }

  /** Multiplying by a positive divisor and dividing again gives the number back. */
  lemma ExactDivision(q: int, d: int)
    requires d > 0
    ensures (q * d) % d == 0 && (q * d) / d == q
  {
    var x := q * d;
    var k, r := x / d, x % d;
    assert x == d * k + r && 0 <= r < d;
    assert d * (q - k) == r by {
      Factors(d, q, -k);
    }
    if q - k >= 1 {
      MultipleAtLeast(q - k, d);
    } else if q - k <= -1 {
      MultipleAtLeast(k - q, d);
      Factors(d, q - k, k - q);
    }
  }

  /** Pascal's rule for pairs: adding an element adds one pair per old element. */
  lemma PairsStep(n: nat)
    ensures Choose(n + 1, 2) == Choose(n, 2) + n
  {
    ChooseOne(n);
  }

  /** Pascal's rule for triples: adding an element adds one triple per old pair. */
  lemma TriplesStep(n: nat)
    ensures Choose(n + 1, 3) == Choose(n, 3) + Choose(n, 2)
  {
  }

  /** `binomial(n, k)`: p accumulates p·(n−j)/(j+1) for j in range(k). Python 2
      integer division floors; the divisor is positive, so Dafny's `/` agrees.
      Every division is exact and the result is the number of k-subsets. */
  method Binomial(n: nat, k: int) returns (p: int)
    ensures k <= 0 ==> p == 1
    ensures k >= 0 ==> p == Choose(n, k)
    ensures k > n ==> p == 0
  {
    p := 1;
    var j := 0;
    while j < k
      invariant 0 <= j && (k >= 0 ==> j <= k) && (k <= 0 ==> j == 0)
      invariant p == Choose(n, j)
    {
      Absorption(n, j);
      var num := p * (n - j);
      ExactDivision(Choose(n, j + 1), j + 1);
      assert num % (j + 1) == 0;
      p := num / (j + 1);
      j := j + 1;
    }
  }

  /** `num_distances`: a rigid on n points fixes its C(n,2) pairwise distances;
      other clusters fix none. */
  method NumDistances(c: Shape) returns (n: int)
    ensures c.Rigid? ==> n == Choose(|c.vars|, 2)
    ensures !c.Rigid? ==> n == 0
  {
    if c.Rigid? {
      n := Binomial(|c.vars|, 2);
    } else {
      n := 0;
    }
  }

  /** `num_angles`: three angles per triple of a rigid or balloon, one angle per
      pair of legs of a hedgehog. */
  method NumAngles(c: Shape) returns (n: int)
    ensures !c.Hedgehog? ==> n == 3 * Choose(|c.vars|, 3)
    ensures c.Hedgehog? ==> n == Choose(|c.xvars|, 2)
  {
    if c.Balloon? || c.Rigid? {
      var b := Binomial(|c.vars|, 3);
      n := b * 3;
    } else {
      n := Binomial(|c.xvars|, 2);
    }
  }

  /** How many constraints a cluster of this shape fixes: C(n,2) distances
      and 3·C(n,3) angles for a rigid, the angles alone for a balloon, and one
      angle per pair of legs for a hedgehog. */
  function Implied(c: Shape): (n: nat)
    ensures n > 0 <==> PassesGuard(c) && |c.Vars()| >= 2
  {
    match c
    case Rigid(vs) => Choose(|vs|, 2) + 3 * Choose(|vs|, 3)
    case Balloon(vs) => 3 * Choose(|vs|, 3)
    case Hedgehog(cv, xs) => SubsetCard(xs, xs + {cv}); Choose(|xs|, 2)
  }

  /** `num_constraints`: distances plus angles. */
  method NumConstraints(c: Shape) returns (n: int)
    ensures c.Rigid? ==> n == Choose(|c.vars|, 2) + 3 * Choose(|c.vars|, 3)
    ensures c.Balloon? ==> n == 3 * Choose(|c.vars|, 3)
    ensures c.Hedgehog? ==> n == Choose(|c.xvars|, 2)
    ensures n == Implied(c)
  {
    var d := NumDistances(c);
    var a := NumAngles(c);
    n := d + a;
  }
}
