# geosolver clusters and configurations, in Dafny

A model of two layers of the geosolver geometric constraint solver, with
proofs about them.

- **Cluster algebra** (`geosolver/cluster.py`).
  - Kinds: the three cluster kinds Rigid, Hedgehog (a centre and its legs)
    and Balloon.
  - Constraint identifiers: `Distance` and `Angle`, with their equality and
    hash.
  - Counter: the creation counter that stamps every new cluster.
  - Operations: the constructors and `copy`, and `intersection`.
  - Over-constraint detector: `over_distances`, `over_angles` and its five
    rules, and `over_constraints`, which enumerate the constraints two
    clusters both imply.
  - Counting: `binomial` and the `num_*` functions.
- **Configuration bookkeeping** (`geosolver/configuration.py`). A
  configuration maps point variables to points of one dimension. It carries
  an `underconstrained` flag.
  - Modelled: construction and its validation, the key-set hash, `copy`,
    `add`, `select`, the structure of `merge` and `merge_scale`, the ladders
    that decide the merge transforms' flag, and the key-set part of
    `__eq__`.

Where the source changes state, the model does too.
- Clusters and configurations are classes. The counter, the
  `overconstrained` flag and the `underconstrained` flag are fields that
  methods update.
- The loops that build sets, maps, sums and the binomial are methods with
  loop invariants. Each is proved equal to a specification function.
- Lemmas then prove what those functions promise: sizes, memberships, no
  two results equal under the source's `__eq__`, the flag rules.

Modules, one concern each:
- `common.dfy`: variables, `Option`/`Result`, and duplicate-free
  enumerations of sets.
- `clusters.dfy`: identifiers, shapes, `intersection`, cluster objects.
- `combinatorics.dfy`: `binomial`, `num_*`.
- `rows.dfy`, `pairs.dfy` and `triples.dfy`: the sets that the detector's
  nested index loops collect, and their sizes.
- `detector.dfy`: the `over_*` functions.
- `facts.dfy`: what the detector returns.
- `configurations.dfy`: `Configuration`.
- `configfacts.dfy`: the merge flag.

Walk order is a parameter. When the source iterates `list(shared)` or a
dictionary, the order is whatever the set or dictionary gives.
- The model takes that order as a parameter: a duplicate-free sequence
  listing exactly the set (`Enumerates`).
- A walk over a dictionary whose outcome cannot depend on the order picks
  keys one at a time with `:|`.

Where the code does something a reader might not expect, the model follows the code:
- **Angle equality.** `Angle.__eq__` compares the THIRD element and the
  variable set, not the vertex. So `Angle(a,b,c)` and `Angle(c,b,a)` are
  unequal when a ≠ c (`Clusters.AngleSwaps`).
- **Merge result flag.** `merge` and `merge_scale` copy only the
  transform's flag. The 2D scaled transform with two or more shared points
  starts from `False` and drops both inputs' flags
  (`ConfigurationFacts.Scale2DDropsFlags`).
- **2D scaled merge with fewer than two shared points.** It goes to the
  rigid 3D ladder, not the 2D one (`ConfigurationFacts.ScaleFallsBackTo3D`).
- **Merging a configuration with itself.** This keeps the flag in 3D. In 2D
  the result is also flagged when its first two listed points coincide
  (`ConfigurationFacts.SelfMerge`).
- **Size guards.** The Hedgehog and Balloon constructors test the length of
  the input collection, repeats included. So `Balloon([1,1,2])` is accepted
  with two variables, and its `copy` raises
  (`Clusters.BalloonGuardCountsRepeats`).
- **`binomial` with k > n.** It returns 0 (`Combinatorics.Binomial`).

## Model

| member | source | states |
|---|---|---|
| Clusters.DistanceEqIff | geosolver/cluster.py:25-32 | two distances are equal exactly when they join the same two variables in either order, and equal distances hash alike |
| Clusters.DistanceSymmetric | geosolver/cluster.py:25-32 | `Distance(a,b)` equals `Distance(b,a)` and has the same hash key |
| Clusters.AngleSwaps | geosolver/cluster.py:48-56 | swapping the outer variables, or the vertex and the third element, keeps the hash key; the angles are equal only when the swapped variables coincide |
| Clusters.EqualityIsEquivalence | geosolver/cluster.py:25-56 | each `__eq__` is reflexive, symmetric and transitive, and equal identifiers hash alike |
| Clusters.Intersect | geosolver/cluster.py:74-121 | no result when fewer than two variables are shared; a result has variables within the shared ones, passes its constructor's guard, and is Rigid exactly for Rigid×Rigid |
| Clusters.AroundCentre | geosolver/cluster.py:91-115 | a hedgehog is built exactly when the centre lies in the other cluster and at least two shared variables besides it remain; it is centred there, its legs are those variables, and it passes the guard |
| Clusters.IntersectCommutes | geosolver/cluster.py:74-121 | swapping the two clusters gives the same kind, variables and centre |
| Clusters.IntersectWithBalloon | geosolver/cluster.py:86-102 | Rigid or Balloon against Balloon, either order, gives Balloon(shared) exactly when at least three variables are shared |
| Clusters.IntersectWithHedgehog | geosolver/cluster.py:91-115 | Rigid or Balloon against a hedgehog, either order, gives Hedgehog(centre, shared − {centre}) exactly when the centre is in the other cluster and two legs remain |
| Clusters.IntersectHedgehogs | geosolver/cluster.py:116-121 | two hedgehogs intersect exactly when their centres agree and they share two legs; the result has the common legs |
| Clusters.IntersectSelf | geosolver/cluster.py:74-121 | a cluster with at least two variables that passes its guard is its own intersection with itself (with fewer than two, as for `Rigid([1])`, the intersection is none) |
| Clusters.DriverCrossIntersections | geosolver/cluster.py:358-364 | the cross intersections of the module's driver clusters, in both orders |
| Clusters.DriverDoubleIntersections | geosolver/cluster.py:365-368 | the driver's double intersections all give none |
| Clusters.CreationCounter.constructor | geosolver/cluster.py:68 | the class-level counter starts at zero |
| Clusters.Cluster.constructor | geosolver/cluster.py:70-72 | every construction bumps the counter by one and stamps the cluster with the new count |
| Clusters.Cluster.Copy | geosolver/cluster.py:146-149 | a copy has the same kind and variables, the same `overconstrained` flag and a strictly later stamp; it raises exactly when the variable set fails its kind's guard (see also 178-181 and 206-209) |
| Clusters.Cluster.Intersection | geosolver/cluster.py:74-121 | a new cluster with the shape `Intersect` gives, freshly stamped, or none with the counter untouched |
| Clusters.NewRigid | geosolver/cluster.py:130-138 | a Rigid on the set of the given variables, with no guard |
| Clusters.NewHedgehog | geosolver/cluster.py:157-170 | raises exactly when fewer than two legs are given, counting repeats; the counter is bumped either way; `vars` is legs ∪ {centre} |
| Clusters.NewBalloon | geosolver/cluster.py:188-198 | raises exactly when fewer than three variables are given, counting repeats; the counter is bumped either way |
| Clusters.BalloonGuardCountsRepeats | geosolver/cluster.py:194-196 | `[1,1,2]` passes the Balloon guard, yet its set has two variables and fails the guard on `copy` |
| Combinatorics.Choose | geosolver/cluster.py:324-328 | the reference count of k-subsets by Pascal's rule: positive exactly when k ≤ n |
| Combinatorics.Binomial | geosolver/cluster.py:324-328 | the loop's result is 1 for k ≤ 0, the number of k-subsets of n for k ≥ 0, and 0 for k > n; every division is exact |
| Combinatorics.Absorption | geosolver/cluster.py:327 | C(n,j)·(n−j) = C(n,j+1)·(j+1), the identity that makes the loop's division exact |
| Combinatorics.NumDistances | geosolver/cluster.py:333-338 | C(n,2) for a Rigid on n variables, else 0 |
| Combinatorics.NumAngles | geosolver/cluster.py:340-348 | 3·C(n,3) for a Rigid or Balloon on n variables, C(legs,2) for a hedgehog |
| Combinatorics.Implied | geosolver/cluster.py:330-348 | what `num_constraints` counts per kind; positive exactly when the cluster passes its constructor's guard with at least two variables |
| Combinatorics.NumConstraints | geosolver/cluster.py:330-331 | distances plus angles, per kind |
| Detector.LowerLoop | geosolver/cluster.py:247-251 | the `for i: for j in range(i)` loop collects exactly one constraint per earlier pair of walked variables |
| Detector.UpperLoop | geosolver/cluster.py:304-308 | the `for i: for j in range(i+1, n)` loop collects exactly one constraint per later pair |
| Detector.TripleLoop | geosolver/cluster.py:271-279 | the triple loop collects exactly the three rotations of every increasing triple |
| Detector.MiddleLoop | geosolver/cluster.py:272-279 | for one i, the `j` and `k` loops add exactly the rotations of the increasing triples that start at i |
| Detector.InnerLoop | geosolver/cluster.py:273-279 | for one i and j, the `k` loop adds exactly the three rotations of each triple i < j < k |
| Detector.DistanceRule | geosolver/cluster.py:240-252 | the set `over_distances` returns for a given walk of the shared variables; characterised by `DetectorFacts.OverDistancesFacts` |
| Detector.HedgehogsRule | geosolver/cluster.py:254-265 | the set `over_angles_hh` returns; characterised by `DetectorFacts.HedgehogsFacts` |
| Detector.CentreRule | geosolver/cluster.py:298-322 | the set `over_angles_bh` and `over_angles_ch` return; characterised by `DetectorFacts.CentreFacts` |
| Detector.AngleRule | geosolver/cluster.py:218-238 | the rule the case table of `over_angles` picks for each ordered pair of kinds; characterised by `DetectorFacts.OverAnglesUnequal` and `DetectorFacts.OverConstraintsCount` |
| Detector.OverDistances | geosolver/cluster.py:240-252 | empty unless both clusters are Rigid; otherwise the lower-pair distances of the shared variables |
| Detector.OverAnglesHH | geosolver/cluster.py:254-265 | empty unless the centres agree; otherwise one angle at the centre per earlier pair of common legs |
| Detector.OverAnglesBB | geosolver/cluster.py:267-296 | the three rotations of every increasing triple of shared variables (`over_angles_bb` and `over_angles_cb` have the same code) |
| Detector.OverAnglesCH | geosolver/cluster.py:298-322 | empty unless the centre is in the other cluster; otherwise one angle at the centre per later pair of shared legs (`over_angles_bh` and `over_angles_ch` have the same code) |
| Detector.OverAngles | geosolver/cluster.py:218-238 | the rule picked by the case table over the ordered pair of kinds |
| Detector.Tagged | geosolver/cluster.py:216 | the union of the distances and the angles, each kept under its own constructor |
| Detector.OverConstraints | geosolver/cluster.py:213-216 | the union of `over_distances` and `over_angles` |
| DetectorFacts.OverDistancesFacts | geosolver/cluster.py:240-252 | empty unless both Rigid; each distance joins two different shared variables, one order per pair; C(shared,2) of them; no two equal under `Distance.__eq__` |
| DetectorFacts.HedgehogsFacts | geosolver/cluster.py:254-265 | empty when the centres differ; every angle has the centre in the middle and two different legs; one order per pair; C(legs,2) of them; no two equal |
| DetectorFacts.CentreFacts | geosolver/cluster.py:298-322 | the same for the cluster×hedgehog rules, guarded by the centre lying in the other cluster |
| DetectorFacts.TrianglesFacts | geosolver/cluster.py:267-296 | three different shared variables per angle; closed under rotation; one orientation per triple; 3·C(shared,3) angles; no two equal |
| DetectorFacts.OverAnglesUnequal | geosolver/cluster.py:218-238 | no two angles `over_angles` returns are equal under `Angle.__eq__`, so the Python set keeps every one |
| DetectorFacts.OverConstraintsUnequal | geosolver/cluster.py:213-216 | no two members of the `over_constraints` set are equal |
| DetectorFacts.TaggedCard | geosolver/cluster.py:216 | the union's size is the sum of the sizes |
| DetectorFacts.OverConstraintsCount | geosolver/cluster.py:213-348 | the number of over-constraints equals `num_constraints` of the cluster `intersection` builds (0 when it builds none) |
| Triples.TrianglesMember | geosolver/cluster.py:271-279 | an angle on walked positions p, q, m is collected exactly when the positions are in cyclic increasing order |
| Triples.TrianglesSize | geosolver/cluster.py:271-279 | the triple loop collects 3·C(n,3) angles |
| Pairs.LowerPairsCard | geosolver/cluster.py:247-251 | the lower-pair loop collects C(n,2) values for an injective constructor |
| Pairs.UpperPairsCard | geosolver/cluster.py:304-308 | the upper-pair loop collects C(n,2) values for an injective constructor |
| Configurations.MakeHash | geosolver/configuration.py:310-315 | the sum of the variables' hashes, in whatever order the dictionary gives, hashed: a function of the key set alone |
| Configurations.KeySumRemove | geosolver/configuration.py:313-314 | any variable can be added first, so the sum does not depend on the order |
| Configurations.CheckDimension | geosolver/configuration.py:317-325 | raises on an empty map; otherwise the common length of the points when they have one, and 0 when they do not |
| Configurations.NewConfiguration | geosolver/configuration.py:25-34 | succeeds exactly for a non-empty map whose points all have length 2 or all have length 3; otherwise the matching error; a new configuration is not flagged |
| Configurations.Configuration.Valid | geosolver/configuration.py:25-34 | what holds after `__init__`: a non-empty map whose points all have the configuration's dimension, 2 or 3, and the key-set hash; `NewConfiguration` and every method that builds a configuration establish it |
| Configurations.Configuration.constructor | geosolver/configuration.py:25-34 | the validated map, its dimension, the key-set hash and a cleared flag |
| Configurations.Configuration.Copy | geosolver/configuration.py:36-40 | the same points and dimension, and the flag copied |
| Configurations.Configuration.Add | geosolver/configuration.py:62-70 | keys are the union; this configuration's point wins for its keys, the other's for the rest; flag cleared; raises exactly when new points have another dimension |
| Configurations.Extended | geosolver/configuration.py:64-69 | the two copying loops build exactly `Extend` |
| Configurations.Extend | geosolver/configuration.py:62-70 | the extended map's keys and values, pointwise |
| Configurations.ExtendDimension | geosolver/configuration.py:62-70 | the extended map has a single dimension exactly when the dimensions agree or nothing new is added |
| Configurations.Configuration.Select | geosolver/configuration.py:72-77 | exactly the requested keys with this configuration's points; the first requested variable without a point raises; an empty request raises |
| Configurations.FirstMissing | geosolver/configuration.py:75-76 | none exactly when every listed variable has a point; otherwise a listed variable without a point at some position before which every listed variable has one |
| Configurations.FirstMissingAt | geosolver/configuration.py:74-76 | the variable on which `select`'s loop stops (missing, with every earlier one known) is the first missing one |
| Configurations.Configuration.Merge | geosolver/configuration.py:79-85 | raises exactly on different dimensions; otherwise this configuration's points are kept, the moved other's are added, and the flag is the transform's |
| Configurations.Configuration.MergeScale | geosolver/configuration.py:87-93 | the same, with the scaled transform's flag |
| Configurations.Configuration.Combine | geosolver/configuration.py:81-85 | wrapping the moved points, adding them and setting the flag always succeeds |
| Configurations.Configuration.Equals | geosolver/configuration.py:287-308 | false whenever the key sets differ; raises when they agree but the dimensions differ; otherwise the geometric test's outcome |
| Configurations.MergeTransform | geosolver/configuration.py:97-103 | raises exactly on different dimensions; otherwise the 2D or 3D rigid flag |
| Configurations.MergeScaleTransform | geosolver/configuration.py:105-111 | raises exactly on different dimensions; otherwise the 2D or 3D scaled flag |
| Configurations.RigidFlag2D | geosolver/configuration.py:113-149 | the 2D rigid flag: set without a shared point; the inputs' flags kept; with one shared point and nothing inherited, set exactly when both sides have another point |
| Configurations.Degeneracies3D | geosolver/configuration.py:186-254 | `num_degen`, one `Count` per `num_degen += 1`: 1 without a shared point, 0 with one, at most 2 with two and at most 6 in all |
| Configurations.RigidFlag3D | geosolver/configuration.py:181-262 | the 3D rigid flag: the inputs' flags kept; set without a shared point; never set by a degeneracy when one side's points are all shared |
| Configurations.ScaleFlag2D | geosolver/configuration.py:151-179 | the 2D scaled flag: below two shared points it keeps the inputs' flags; from two on it is clear whenever no side's first two shared points coincide, whatever the inputs carry |
| Configurations.ScaleFlag3D | geosolver/configuration.py:264-285 | the 3D scaled flag is the rigid 3D flag in both branches: it keeps the inputs' flags and a fully shared side never sets it |
| Configurations.MergeFlag | geosolver/configuration.py:97-103 | the flag `merge` copies: either input's flag forces it, and so does the lack of a shared point |
| Configurations.ScaleFlag | geosolver/configuration.py:105-111 | the flag `merge_scale` copies: input flags are kept except by the 2D scaled transform with two or more shared points, which is clear when no frame points coincide |
| ConfigurationFacts.NoSharedFlagged | geosolver/configuration.py:117-118 | with no shared variable every transform, rigid or scaled, 2D or 3D, is flagged (see also 186-195, 257-258) |
| ConfigurationFacts.OneShared | geosolver/configuration.py:119-128 | with one shared variable the 2D flag is set unless one side is that point alone, and the 3D and scaled flags are only inherited (see also 196-208) |
| ConfigurationFacts.Scale2DDropsFlags | geosolver/configuration.py:158-179 | from two shared points on, the 2D scaled flag ignores both inputs' flags and is set exactly when a side's first two shared points coincide |
| ConfigurationFacts.ScaleFallsBackTo3D | geosolver/configuration.py:151-157 | below two shared points both scaled transforms take the rigid 3D flag; the 3D scaled flag always equals the rigid 3D flag (see also 264-285) |
| ConfigurationFacts.DegeneraciesCount | geosolver/configuration.py:209-253 | at most six degeneracies; zero exactly when no pair of frame points coincides |
| ConfigurationFacts.ContainedSide3D | geosolver/configuration.py:256-258 | when one side's points are all shared the 3D flag is only inherited |
| ConfigurationFacts.SelfMerge | geosolver/configuration.py:113-262 | merging a configuration with itself keeps its flag in 3D, and in 2D adds it only when the first two listed points coincide |
| ConfigurationFacts.ExtendSubsumed | geosolver/configuration.py:62-70 | adding points whose variables are all known changes nothing |
| ConfigurationFacts.SameKeysSameHash | geosolver/configuration.py:310-315 | configurations over the same variables have the same hash |

## Left out

- `geosolver/vector.py`: floating-point vector arithmetic. Points are opaque sequences of reals, known only by their length.
- Numeric transforms. `transform`, `perp2D`, the frame construction (`make_hcs_2d`, `make_hcs_3d`, `make_hcs_2d_scaled`), `cs_transform_matrix`, `pivot_scale_3D` and `mmul` are not modelled.
  - A merge takes the transformed copy of the other configuration as the input `moved`: the same variables and the same dimension.
  - A transform is known only by its flag.
- The scale ratio of `_merge_scale_transform_3D` (geosolver/configuration.py:277). In floating point it divides by zero when the other side's first two shared points are exactly equal; that exception is not modelled.
- Tolerance tests. `tol_eq(norm(q - p), 0.0)` is the uninterpreted predicate `near`. The distance test that ends `__eq__` is the boolean input `aligned`.
- Hash values. Python's `hash` on a variable and on the sum is the parameter `Hashing`; only the dependence on the key set is modelled.
- Iteration order. `list(shared)` and dictionary order are parameters or nondeterministic choices, not Python's actual order.
- Unreachable fallbacks. The "intersection of unknown Cluster types" and "unexpected case" exceptions cannot arise with a closed datatype of three kinds.
- Output and drivers. `__str__`, `print`, `diag_print`, and the `test`/`testeq` drivers are not modelled. The driver's intersections appear only as lemmas.
- Accessors. `vars`, `get`, `__contains__`, `__getitem__` and `__hash__` are plain accessors, not modelled separately.
- Combinatorics.Binomial: `n` is a natural number. The source never calls it with a negative size.
- DetectorFacts.OverConstraintsCount: requires that no hedgehog has its centre among its own legs. The constructors do not check this. If a centre is a leg, `over_angles_ch` walks it as a leg and counts more angles than the intersection hedgehog implies.
- Clusters.Cluster.Copy: the creation counter is an object passed to every constructor rather than a class-level global, so the strictly later stamp is promised only when the cluster was stamped by that same counter (`creationtime <= count` before the copy), which the source's single global counter always ensures.
- Configurations.Configuration.Equals: `isinstance` always holds, because both arguments are configurations.
