# Convex hull variations, modelled in Dafny

This project models `convex_hull_variations.py`, three variants of Andrew's
monotone-chain convex hull algorithm over a list of points in the plane:

- `public_version` builds an upper chain over the sorted list. It then builds
  a lower chain over the reversed list with the same pop rule, and joins
  the two.
- `andrews_version` builds one pass over the sorted list. It sends every
  middle point to one chain, decided by a y-range fast path and then by the
  line through the two endpoints.
- `optimised_version` builds one pass with two separating lines. After each
  push it moves that chain's line through the new point. Points that are
  neither above the upper line nor below the lower line are dropped.

The model also covers the two primitives the variants share:

- `is_left_turn` is the strict cross-product orientation test.
- `not_inside` is the quadrilateral filter behind the optional `filtered`
  preprocessing step.

Modules, one file each:

- `Geometry` (`geometry.dfy`): points, the orientation test, the filter
  predicate and separating lines.
- `Seqs` (`seqs.dfy`): order-preserving subsequences and reversal.
- `Ordering` (`ordering.dfy`): Python's tuple order, the sort, `min`, `max`
  and the first least or greatest y.
- `Chains` (`chains.dfy`): the pop-then-append stack discipline all three
  builders share. There is one pop rule for each polarity.
- `Preprocess` (`preprocess.dfy`): the error results and the quadrilateral
  prefilter.
- `TwoPass`, `FixedLine`, `AdaptiveLine` (`two_pass.dfy`, `fixed_line.dfy`,
  `adaptive_line.dfy`): the three builders.
- `Scenarios` (`scenarios.dfy`): worked inputs with the exact output of a
  builder.

Each builder is modelled twice and the two are proved equal:

- A specification function over a sorted sequence: `TwoPassHull`,
  `FixedHull` and `AdaptiveHull`.
- An imperative method with the source's loops, proved to compute that
  function: `BuildTwoPass`, `BuildFixedLine` and `BuildAdaptiveLine`.
  - The loops append and pop on `seq` chains.
  - `optimised_version`'s line parameters `ku`, `nu`, `kl` and `nl` are
    reassigned in the loop.

The entry points `PublicVersion`, `AndrewsVersion` and `OptimisedVersion`
take the caller's list as an `array`. They sort it in place where the
source does, and return `Ok(hull)` or the exception the source raises.

Two datatypes carry state rather than compute it. `Preprocess.HullError` is
the exception raised on an empty list: `EmptyArgument` for the
`ValueError` of `min()` (line 21), and `IndexOutOfRange` for the
`IndexError` of `P[0]` (lines 71 and 142). `AdaptiveLine.Sweep` is the loop
state of lines 138-153: both chains (`upper`, `lower`) and both separating
lines (`ku`, `nu` and `kl`, `nl`).

Coordinates are exact reals. The slope denominator term `1e-12` is the
constant `Geometry.EPS`.

Behaviour of the code that a reader might not expect:

- The hull is clockwise and closed: it starts and ends with the smallest
  point. It runs along the upper chain from that point and comes back
  along the lower chain.
- Collinear middle points stay in every upper chain and in
  `public_version`'s lower chain, because the pop test is a strict left
  turn.
  - On (0,0), (1,1), (2,2), (3,3), `public_version` returns all four points
    out and back (`Scenarios.DiagonalTwoPass`).
  - On the same points `andrews_version` returns (0,0), (1,1), (2,2), (3,3),
    (0,0) (`Scenarios.DiagonalFixedLine`).
- The code has no error for fewer than two points.
  - `public_version([])` returns `[]`.
  - A single point p gives [p] from `public_version` and [p, p, p] from
    the other two (`Scenarios.SinglePoint`).
  - The only errors are `min()` of an empty list when `filtered` is set
    (`EmptyArgument`), and `P[0]` of an empty list in the other two
    variants (`IndexOutOfRange`).
- `optimised_version` accepts `filtered` and ignores it.

## Model

| member | source | states |
|---|---|---|
| Geometry.IsLeftTurn | convex_hull_variations.py:204-207 | true exactly when the cross product of q - p and r - p is positive; a triple with a repeated point is never a left turn |
| Geometry.CollinearIsNotLeftTurn | convex_hull_variations.py:207 | any point on the line through p and q is not a left turn after p, q |
| Geometry.ReversedTurn | convex_hull_variations.py:204-207 | reversing a triple turns a left turn into a right one: r, q, p is a left turn exactly when the cross product of p, q, r is negative |
| Geometry.NotInside | convex_hull_variations.py:210-215 | a corner is always kept; a point that is not a corner is dropped exactly when all four edges a->b, b->c, c->d, d->a turn strictly left to it; failing any edge test keeps it |
| Geometry.OnEdgeIsKept | convex_hull_variations.py:210-215 | points on the line of any edge of the quadrilateral are kept |
| Geometry.LineThrough | convex_hull_variations.py:79-80 | the separating line passes through p, and at pn.x it lies between the two endpoints' y values (because of EPS it misses pn unless p.y == pn.y) |
| Geometry.LineMissesEnd | convex_hull_variations.py:79-80 | at pn.x the line reaches pn.y exactly when p.y == pn.y; otherwise EPS keeps it short of pn |
| Geometry.LineStaysInRange | convex_hull_variations.py:75-80 | between the endpoints' x values the line stays within their y-range |
| Seqs.Reverse | convex_hull_variations.py:124-125 | `lower.reverse()`: same length, element i is element n-1-i of the input |
| Seqs.ReverseMultiset | convex_hull_variations.py:42 | reversal keeps the same elements with the same counts |
| Ordering.Insert | convex_hull_variations.py:28 | inserting into a sorted list keeps it sorted and adds exactly the one point |
| Ordering.SortPoints | convex_hull_variations.py:28 | the sort's result is sorted in tuple order and is a permutation of its input |
| Ordering.SortedUnique | convex_hull_variations.py:28 | two sorted permutations of the same points are equal, so the result does not depend on the sorting algorithm |
| Ordering.SortPointsIsTheSortedPermutation | convex_hull_variations.py:26-28 | any sorted permutation of the input is SortPoints of it |
| Ordering.SortedBounds | convex_hull_variations.py:71-72 | in a sorted list the first and last points bound every point, and every x lies between theirs |
| Ordering.MinLex | convex_hull_variations.py:21 | `min(P)` is in the list and no point is below it |
| Ordering.MaxLex | convex_hull_variations.py:22 | `max(P)` is in the list and no point is above it |
| Ordering.MinYIndex | convex_hull_variations.py:23 | `min(P, key=y)`: a point of least y, and every earlier point has a greater y (the first such point) |
| Ordering.MaxYIndex | convex_hull_variations.py:24 | `max(P, key=y)`: a point of greatest y, and every earlier point has a smaller y (the first such point) |
| Ordering.MinY | convex_hull_variations.py:23 | `min(P, key=lambda p: p[1])`: the point at MinYIndex, the first point of least y |
| Ordering.MaxY | convex_hull_variations.py:24 | `max(P, key=lambda p: p[1])`: the point at MaxYIndex, the first point of greatest y |
| Ordering.SortedHeadIsMin | convex_hull_variations.py:71-72 | after sorting, P[0] is `min(P)` and P[-1] is `max(P)` |
| Ordering.KeptExtremes | convex_hull_variations.py:21-26 | a sublist that keeps the smallest and largest points has them as its own smallest and largest points |
| Ordering.SortInPlace | convex_hull_variations.py:28 | `P.sort()`: the caller's array afterwards holds the sorted permutation of what it held |
| Chains.StableMeaning | convex_hull_variations.py:34-46 | a chain that will not pop has no strict left turn in it (pop on left) or has only strict left turns in it (pop on non-left) |
| Chains.Pops | convex_hull_variations.py:91-98 | the pop test on the chain's last two points and the candidate: a strict left turn for PopOnLeft (lines 34, 43, 91, 104, 116), its negation for PopOnNonLeft (lines 97, 110, 119) |
| Chains.Stable | convex_hull_variations.py:87-113 | no consecutive triple of the chain would make its rule pop: for PopOnLeft no strict left turn, for PopOnNonLeft only strict left turns (StableMeaning) |
| Chains.Pop | convex_hull_variations.py:34-35 | the pop loop leaves a prefix that is non-empty if the chain was; it never pops a single point; it stops when the last two points no longer make the rule fire; every point removed made the rule fire |
| Chains.PushFacts | convex_hull_variations.py:34-37 | after pop and append, p is last, the first point is kept, a stable chain stays stable, and a subsequence of b becomes one of b + [p] |
| Chains.Push | convex_hull_variations.py:34-37 | one candidate: the pop loop (Pop), then `append`; p ends the chain and the chain's invariants are kept (PushFacts) |
| Chains.ScanFacts | convex_hull_variations.py:31-37 | a chain scanned over a list is a subsequence of it in scan order, is stable, is empty only for an empty list, starts with the first point scanned and ends with the last, and has two points after two |
| Chains.Scan | convex_hull_variations.py:33-37 | the chain after pushing every point of a list in order onto an empty chain: a stable subsequence from the first point to the last (ScanFacts) |
| Chains.ScanSnoc | convex_hull_variations.py:33-37 | scanning one more point is one more pop-and-append |
| Chains.ScanPushFacts | convex_hull_variations.py:116-122 | a scanned chain with pn pushed is a stable subsequence of the input with pn, of at least two points, from the first point to pn |
| Chains.ScanPopFacts | convex_hull_variations.py:119-120 | a scanned chain popped against pn is a non-empty stable subsequence starting with the first point, and its last two points no longer pop against pn |
| Chains.PopFacts | convex_hull_variations.py:119-120 | popping a stable, non-empty subsequence of b keeps it one, keeps its first point, and leaves a pair that does not pop against p |
| Chains.LowerPopFacts | convex_hull_variations.py:183-184 | the lower chain of a single-pass builder, popped against pn, ends with a strict left turn to pn |
| Chains.PopFrom | convex_hull_variations.py:34-35 | the while loop computes Pop |
| Chains.PushOnto | convex_hull_variations.py:34-37 | the while loop then `append` computes Push; p ends the chain and its first point is kept |
| Preprocess.KeepNotInside | convex_hull_variations.py:26 | the generator keeps, in order, exactly the points `not_inside` accepts, each with as many copies as the input holds, and drops every copy of the others |
| Preprocess.Prefilter | convex_hull_variations.py:20-26 | the filtered list is a subsequence that keeps all four extremes and keeps a point of the list exactly when `not_inside` accepts it, so a point other than the four extremes is dropped exactly when it is strictly left of all four edges; a kept point keeps all its copies |
| Preprocess.PrefilterKeepsEnds | convex_hull_variations.py:20-28 | filtering then sorting gives a non-empty list whose ends are `min(P)` and `max(P)` |
| TwoPass.TwoPassChains | convex_hull_variations.py:30-46 | the upper chain is a subsequence of the list and the lower one of its reversal; neither has a strict left turn; upper runs from P[0] to P[-1] and lower from P[-1] back to P[0] |
| TwoPass.DropLast | convex_hull_variations.py:49 | `upper[:-1]`: empty for an empty chain, otherwise the chain without its last point |
| TwoPass.TwoPassUpper | convex_hull_variations.py:31-37 | the upper chain over the sorted list: a subsequence of it with no strict left turn, from P[0] to P[-1] (TwoPassChains) |
| TwoPass.TwoPassLower | convex_hull_variations.py:40-46 | the lower chain over `reversed(P)`: a subsequence of the reversal with no strict left turn, from P[-1] to P[0] (TwoPassChains) |
| TwoPass.TwoPassHull | convex_hull_variations.py:30-49 | `upper[:-1] + lower` on the sorted list: from P[0] round to P[0], holding only input points (TwoPassHullFacts) |
| TwoPass.TwoPassHullFacts | convex_hull_variations.py:49 | the result is empty only for an empty list, starts and ends with P[0], has len(upper) + len(lower) - 1 points (at least three for two points or more), and holds only input points |
| TwoPass.JoinFacts | convex_hull_variations.py:49 | the join `upper[:-1] + lower` of any two chains with the scan invariants has the properties above |
| TwoPass.ScanChain | convex_hull_variations.py:31-46 | each for loop builds the scanned chain of its list |
| TwoPass.BuildTwoPass | convex_hull_variations.py:30-49 | the two loops and the join compute TwoPassHull; the hull is empty for an empty list and otherwise starts and ends with P[0]; it holds only input points |
| TwoPass.PublicVersion | convex_hull_variations.py:16-49 | sorts the caller's list unless filtered; filtered and empty raises `min()`'s error; otherwise returns TwoPassHull of the sorted (filtered) list, which starts and ends with `min(P)` and holds only input points |
| FixedLine.Middle | convex_hull_variations.py:87 | the points strictly between the endpoints, none for a single point |
| FixedLine.FastPathAgreesWithLine | convex_hull_variations.py:90-103 | for a point between the endpoints in x, the y-range tests decide exactly as the line test |
| FixedLine.GoesUpper | convex_hull_variations.py:75-103 | a point strictly above max(p0.y, pn.y) goes up; one strictly below min(p0.y, pn.y) goes down; otherwise it goes up exactly when strictly above k*x + n (FastPathAgreesWithLine) |
| FixedLine.Side | convex_hull_variations.py:87-113 | each side is a subsequence of the middle points, all sent to that side |
| FixedLine.SideSnoc | convex_hull_variations.py:87-113 | one more point joins exactly the side it is sent to |
| FixedLine.SidesPartition | convex_hull_variations.py:87-113 | every middle point goes to exactly one chain: the two sides together are the middle points |
| FixedLine.SidesSnoc | convex_hull_variations.py:87-113 | one more point adds itself once to the two sides together |
| FixedLine.SlopeDenominatorPositive | convex_hull_variations.py:79 | in a sorted list pn.x - p.x + 1e-12 is positive for every point p |
| FixedLine.SortedSides | convex_hull_variations.py:90-103 | in a sorted list a middle point goes up exactly when it is strictly above the line through the endpoints |
| FixedLine.FixedChains | convex_hull_variations.py:83-122 | the upper chain is a stable subsequence of p0, its side and pn, from p0 to pn; the lower one is a subsequence of p0 and its side, from p0, with only strict left turns, and turns strictly left to pn |
| FixedLine.FixedUpperInput | convex_hull_variations.py:83-107 | what the upper chain is offered: p0, then the middle points GoesUpper sends up, in list order |
| FixedLine.FixedLowerInput | convex_hull_variations.py:83-113 | what the lower chain is offered: p0, then the middle points GoesUpper sends down, in list order |
| FixedLine.FixedUpper | convex_hull_variations.py:83-122 | the upper chain after pn is pushed: a stable subsequence from p0 to pn with no strict left turn (FixedChains) |
| FixedLine.FixedLower | convex_hull_variations.py:83-120 | the lower chain popped against pn, which is never appended to it: only strict left turns, from p0, with a left turn to pn (FixedChains) |
| FixedLine.FixedHull | convex_hull_variations.py:115-128 | `upper + lower` after `lower.reverse()`: from p0 round to p0, holding only input points (FixedHullFacts) |
| FixedLine.FixedUpperFacts | convex_hull_variations.py:83-122 | the upper-chain half of FixedChains |
| FixedLine.FixedLowerFacts | convex_hull_variations.py:83-120 | the lower-chain half of FixedChains |
| FixedLine.LowerScanFacts | convex_hull_variations.py:110-120 | a lower chain scanned and popped against pn keeps its first point, only strict left turns, and a strict left turn to pn |
| FixedLine.FixedChainsInList | convex_hull_variations.py:83-122 | for two points or more both chains are subsequences of the sorted list |
| FixedLine.InputsInList | convex_hull_variations.py:83-113 | both chains' inputs are subsequences of the sorted list |
| FixedLine.InputMembers | convex_hull_variations.py:83-113 | both chains' inputs hold only points of the list |
| FixedLine.JoinMembers | convex_hull_variations.py:124-128 | `upper + reversed lower` holds only points that the chains held |
| FixedLine.FixedHullFacts | convex_hull_variations.py:115-128 | the hull has len(upper) + len(lower) points (at least three), starts and ends with p0, has pn as the upper chain's last point, at index len(upper) - 1 of the hull (pn is appended to the upper chain only), and holds only input points |
| FixedLine.SideStep | convex_hull_variations.py:87-113 | one iteration grows the chain of p's side by one push of p and leaves the other chain alone |
| FixedLine.FixedSides | convex_hull_variations.py:66-113 | the loop with its four branches builds the scanned upper chain over p0 and the upper side, and the scanned lower chain over p0 and the lower side |
| FixedLine.BuildFixedLine | convex_hull_variations.py:66-128 | lines 66-128 compute FixedHull, which starts and ends with p0 and holds only input points |
| FixedLine.AndrewsVersion | convex_hull_variations.py:52-128 | sorts the caller's list unless filtered; empty raises `min()`'s error if filtered and `P[0]`'s otherwise; returns FixedHull of the sorted (filtered) list, starting and ending with `min(P)` and holding only input points |
| AdaptiveLine.Step | convex_hull_variations.py:157-177 | a point above the upper line is pushed onto the upper chain and the upper line is reset through it; else one below the lower line is pushed onto the lower chain and the lower line is reset through it; the other chain and line are untouched; any other point is dropped |
| AdaptiveLine.Sweeps | convex_hull_variations.py:145-177 | the loop state after a prefix of the middle points, starting from both chains [p0] and both lines through p0 and pn; its invariants are SweepInv (SweepFacts) |
| AdaptiveLine.SweepsSnoc | convex_hull_variations.py:156-177 | sweeping one more point is one more step |
| AdaptiveLine.StepInv | convex_hull_variations.py:157-177 | a step keeps the sweep invariants: subsequence chains from p0, stable under their rules, each line through its chain's last point |
| AdaptiveLine.SweepFacts | convex_hull_variations.py:152-177 | the sweep invariants hold after any number of middle points |
| AdaptiveLine.StepKeepsChain | convex_hull_variations.py:159-173 | a chain a step pushes onto, or leaves alone, keeps its invariants |
| AdaptiveLine.SweepDisjoint | convex_hull_variations.py:156-177 | no middle point is pushed onto both chains: the two chains past p0 together take each point at most as often as the list holds it |
| AdaptiveLine.PushTail | convex_hull_variations.py:160-163 | past its first point a pushed chain holds only what it held plus p |
| AdaptiveLine.MiddleLeftOf | convex_hull_variations.py:156-157 | in a sorted list no middle point lies right of pn, so every denominator is positive |
| AdaptiveLine.SweepOfFacts | convex_hull_variations.py:138-177 | the sweep invariants at the end of the loop |
| AdaptiveLine.SweepOf | convex_hull_variations.py:156-177 | the loop state after every middle point of the sorted list (SweepOfFacts) |
| AdaptiveLine.AdaptiveUpper | convex_hull_variations.py:179-186 | the swept upper chain with pn pushed: a stable subsequence from p0 to pn with no strict left turn (AdaptiveChains) |
| AdaptiveLine.AdaptiveLower | convex_hull_variations.py:183-184 | the swept lower chain popped against pn, which is never appended to it: only strict left turns, from p0, with a left turn to pn (AdaptiveChains) |
| AdaptiveLine.AdaptiveHull | convex_hull_variations.py:186-192 | `upper + lower` after `lower.reverse()`: from p0 round to p0, holding only input points (AdaptiveHullFacts) |
| AdaptiveLine.AdaptiveChains | convex_hull_variations.py:179-186 | upper runs from p0 to pn with no strict left turn; lower starts at p0, has only strict left turns, and turns strictly left to pn; both hold only input points and, for two points or more, are subsequences of the list |
| AdaptiveLine.AdaptiveUpperFacts | convex_hull_variations.py:180-186 | the upper-chain half of AdaptiveChains |
| AdaptiveLine.AdaptiveLowerFacts | convex_hull_variations.py:183-184 | the lower-chain half of AdaptiveChains |
| AdaptiveLine.ChainsInList | convex_hull_variations.py:179-186 | chains drawn from p0, the middle points and pn lie in the list |
| AdaptiveLine.AdaptiveHullFacts | convex_hull_variations.py:186-192 | the hull has len(upper) + len(lower) points (at least three), starts and ends with p0, has pn as the upper chain's last point, at index len(upper) - 1 of the hull (pn is appended to the upper chain only), and holds only input points |
| AdaptiveLine.SweepPoint | convex_hull_variations.py:157-177 | the loop body on the source's separate `ku`, `nu`, `kl`, `nl` variables performs Step |
| AdaptiveLine.AdaptiveSweep | convex_hull_variations.py:137-177 | the initial lines and the loop produce the swept state of the sorted list |
| AdaptiveLine.SweepAdvance | convex_hull_variations.py:156-157 | the next middle point lies left of pn and sweeping it is one step |
| AdaptiveLine.BuildAdaptiveLine | convex_hull_variations.py:137-192 | lines 137-192 compute AdaptiveHull, which starts and ends with p0 and holds only input points |
| AdaptiveLine.OptimisedVersion | convex_hull_variations.py:131-192 | always sorts the caller's list; empty raises `P[0]`'s error; otherwise returns AdaptiveHull of the sorted list, starting and ending with `min(P)` and holding only input points |
| Scenarios.SquareTwoPass | convex_hull_variations.py:30-49 | on the square with corners (0,0), (10,10) and its centre, `public_version` returns (0,0), (0,10), (10,10), (10,0), (0,0) |
| Scenarios.TwoPassOfSquare | convex_hull_variations.py:30-49 | five points whose pops follow the square's pattern give the four corners clockwise and closed |
| Scenarios.DiagonalTwoPass | convex_hull_variations.py:30-49 | on the diagonal (0,0) .. (3,3), `public_version` keeps every point out and back |
| Scenarios.TwoPassOfCollinearFour | convex_hull_variations.py:30-49 | four points with no strict left turn either way are all kept in both chains |
| Scenarios.DiagonalGoesUpper | convex_hull_variations.py:79-103 | because of EPS the line through (0,0) and (3,3) runs below the diagonal, so (1,1) and (2,2) go up |
| Scenarios.DiagonalFixedLine | convex_hull_variations.py:66-128 | on the diagonal `andrews_version` returns (0,0), (1,1), (2,2), (3,3), (0,0) |
| Scenarios.FourOnUpperSide | convex_hull_variations.py:66-128 | four sorted points whose middle two go up with no strict left turn give a hull of all four, closed |
| Scenarios.SquareGoesUpper | convex_hull_variations.py:79-103 | on the square the corner (0,10) and the centre go up, because of EPS, and the corner (10,0) goes down |
| Scenarios.SquareFixedLine | convex_hull_variations.py:66-128 | on the square with its centre `andrews_version` returns what `public_version` does |
| Scenarios.SinglePoint | convex_hull_variations.py:71-128 | a single point p gives [p] from `public_version` and [p, p, p] from the single-pass builders |
| Scenarios.FiveSplit | convex_hull_variations.py:66-128 | five sorted points whose pops follow the square's pattern give the four corners clockwise and closed |

## Left out

- `point_cloud`, `time_alg`, `plot_hull` and the command-line block are not part of this model. They do random sampling, clock reads, plotting and argument parsing.
- Floating point: coordinates are exact reals. The slope division and the `1e-12` term are exact, so IEEE rounding is not captured.
- A `ZeroDivisionError` cannot happen on a sorted list (`FixedLine.SlopeDenominatorPositive`), so there is no error path for it.
- `P.sort()` and `sorted()` are library calls. The model gives their result, the unique sorted permutation (`Ordering.SortedUnique`), and not Python's sorting algorithm.
- The chains are Python lists that the builders mutate, and `lower.reverse()` is in place. Here they are `seq` values reassigned by the loops, so aliasing of those lists is not modelled. No other code can see them.
- The full theorem that the output is the convex hull is not proved. Whether the three variants agree, and whether the filter leaves the hull unchanged, is not proved either. The chain invariants above are what the code enforces directly.
- `optimised_version` has no worked scenario with more than one point. Deriving its moving lines on concrete points needs exact real division at every step. Its general properties are proved instead.
- FixedLine.FixedChainsInList: states that each chain is a subsequence of the list only for two points or more. For a single point the upper chain is [p0, p0], which is in the list only up to repeats.
- AdaptiveLine.AdaptiveChains: has the same two-point restriction for the subsequence claim, for the same reason. Membership in the list is stated for every size.
