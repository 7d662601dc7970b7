/** internal/common/rank.go: the weighted score that turns six activity counters into a
    percentile and one of nine letter grades. Floating point is modelled with `real`. */
module Ranking {
  /** Upper percentile bounds of the grades, in ascending order. */
  const Thresholds: seq<real> := [1.0, 12.5, 25.0, 37.5, 50.0, 62.5, 75.0, 87.5, 100.0]
  /** The grade of each band, best first. */
  const Levels: seq<string> := ["S", "A+", "A", "A-", "B+", "B", "B-", "C+", "C"]

  const CommitsMedian: real := 250.0
  const AllCommitsMedian: real := 1000.0
  const PrsMedian: real := 50.0
  const IssuesMedian: real := 25.0
  const ReviewsMedian: real := 2.0
  const StarsMedian: real := 50.0
  const FollowersMedian: real := 10.0
  const TotalWeight: real := 12.0

  datatype Rank = Rank(level: string, percentile: real)

  /** What the model relies on about `math.Pow(2, -x)`, which is a parameter here:
      it is 1 at 0, lies in (0, 1] for x >= 0 and does not grow with x. */
  ghost predicate IsPow2Neg(pow: real -> real) {
    pow(0.0) == 1.0
    && (forall x :: 0.0 <= x ==> 0.0 < pow(x) <= 1.0)
    && (forall x, y :: 0.0 <= x <= y ==> pow(y) <= pow(x))
  }

  /** exponentialCDF */
  function ExponentialCdf(pow: real -> real, x: real): real {
    1.0 - pow(x)
  }

  /** logNormalCDF */
  function LogNormalCdf(x: real): (r: real)
    requires x >= 0.0
    ensures 0.0 <= r < 1.0
    ensures x == 0.0 <==> r == 0.0
  {
    x / (1.0 + x)
  }

  lemma ExponentialCdfRange(pow: real -> real, x: real)
    requires IsPow2Neg(pow) && 0.0 <= x
    ensures 0.0 <= ExponentialCdf(pow, x) < 1.0
  {
  }

  lemma ExponentialCdfMonotone(pow: real -> real, x: real, y: real)
    requires IsPow2Neg(pow) && 0.0 <= x <= y
    ensures ExponentialCdf(pow, x) <= ExponentialCdf(pow, y)
  {
  }

  /** x / (1 + x) never decreases as x grows. */
  lemma LogNormalCdfMonotone(x: real, y: real)
    requires 0.0 <= x <= y
    ensures LogNormalCdf(x) <= LogNormalCdf(y)
  {
    assert x / (1.0 + x) == 1.0 - 1.0 / (1.0 + x);
    assert y / (1.0 + y) == 1.0 - 1.0 / (1.0 + y);
  }

  function CommitsMedianFor(allCommits: bool): real {
    if allCommits then AllCommitsMedian else CommitsMedian
  }

  /** The weighted average of the six transformed counters (before it is subtracted from 1). */
  function WeightedCdf(pow: real -> real, allCommits: bool, commits: nat, prs: nat, issues: nat,
                       reviews: nat, stars: nat, followers: nat): real
  {
    (2.0 * ExponentialCdf(pow, commits as real / CommitsMedianFor(allCommits))
     + 3.0 * ExponentialCdf(pow, prs as real / PrsMedian)
     + 1.0 * ExponentialCdf(pow, issues as real / IssuesMedian)
     + 1.0 * ExponentialCdf(pow, reviews as real / ReviewsMedian)
     + 4.0 * LogNormalCdf(stars as real / StarsMedian)
     + 1.0 * LogNormalCdf(followers as real / FollowersMedian)) / TotalWeight
  }

  /** The percentile CalculateRank reports: (1 - weighted average) * 100; lower is better. */
  function Percentile(pow: real -> real, allCommits: bool, commits: nat, prs: nat, issues: nat,
                      reviews: nat, stars: nat, followers: nat): real
  {
    (1.0 - WeightedCdf(pow, allCommits, commits, prs, issues, reviews, stars, followers)) * 100.0
  }

  /** The band of a percentile: the first threshold it does not exceed, the last band otherwise. */
  function LevelIndex(p: real): (i: nat)
    ensures i < |Levels|
    ensures forall j :: 0 <= j < i ==> p > Thresholds[j]
    ensures p <= Thresholds[i] || i == |Levels| - 1
  {
    LevelFrom(p, 0)
  }

  function LevelFrom(p: real, k: nat): (i: nat)
    requires k <= |Thresholds|
    requires forall j :: 0 <= j < k ==> p > Thresholds[j]
    ensures k <= i < |Levels| || (k == |Thresholds| && i == |Levels| - 1)
    ensures forall j :: 0 <= j < i ==> p > Thresholds[j]
    ensures p <= Thresholds[i] || i == |Levels| - 1
    decreases |Thresholds| - k
  {
    if k == |Thresholds| then |Levels| - 1
    else if p <= Thresholds[k] then k
    else LevelFrom(p, k + 1)
  }

  /** The percentile stays within (0, 100]: every transformed counter is in [0, 1). */
  lemma {:induction false} PercentileRange(pow: real -> real, allCommits: bool, commits: nat, prs: nat, issues: nat,
                                           reviews: nat, stars: nat, followers: nat)
    requires IsPow2Neg(pow)
    ensures 0.0 < Percentile(pow, allCommits, commits, prs, issues, reviews, stars, followers) <= 100.0
  {
    ExponentialCdfRange(pow, commits as real / CommitsMedianFor(allCommits));
    ExponentialCdfRange(pow, prs as real / PrsMedian);
    ExponentialCdfRange(pow, issues as real / IssuesMedian);
    ExponentialCdfRange(pow, reviews as real / ReviewsMedian);
  }

  /** CalculateRank, with the source's loop over the thresholds. `pow` stands for math.Pow(2, -x). */
  method CalculateRank(pow: real -> real, allCommits: bool, commits: nat, prs: nat, issues: nat,
                       reviews: nat, stars: nat, followers: nat) returns (r: Rank)
    requires IsPow2Neg(pow)
    ensures r.percentile == Percentile(pow, allCommits, commits, prs, issues, reviews, stars, followers)
    ensures 0.0 < r.percentile <= 100.0
    ensures r.level == Levels[LevelIndex(r.percentile)]
  {
    var score := 1.0 - WeightedCdf(pow, allCommits, commits, prs, issues, reviews, stars, followers);
    PercentileRange(pow, allCommits, commits, prs, issues, reviews, stars, followers);
    var level := Levels[|Levels| - 1];
    var idx := 0;
    while idx < |Thresholds|
      invariant 0 <= idx <= |Thresholds|
      invariant forall j :: 0 <= j < idx ==> score * 100.0 > Thresholds[j]
    {
      if score * 100.0 <= Thresholds[idx] {
        level := Levels[idx];
        break;
      }
      idx := idx + 1;
    }
    r := Rank(level, score * 100.0);
  }

  /** All-zero counters give the top percentile 100 and the lowest grade "C". */
  lemma AllZeroIsLowestGrade(pow: real -> real, allCommits: bool)
    requires IsPow2Neg(pow)
    ensures Percentile(pow, allCommits, 0, 0, 0, 0, 0, 0) == 100.0
    ensures Levels[LevelIndex(100.0)] == "C"
  {
  }

  /** Raising any counters never raises the percentile (it can only improve the grade). */
  lemma {:induction false} PercentileMonotone(pow: real -> real, allCommits: bool,
                                              c1: nat, p1: nat, i1: nat, r1: nat, s1: nat, f1: nat,
                                              c2: nat, p2: nat, i2: nat, r2: nat, s2: nat, f2: nat)
    requires IsPow2Neg(pow)
    requires c1 <= c2 && p1 <= p2 && i1 <= i2 && r1 <= r2 && s1 <= s2 && f1 <= f2
    ensures Percentile(pow, allCommits, c2, p2, i2, r2, s2, f2) <= Percentile(pow, allCommits, c1, p1, i1, r1, s1, f1)
  {
    CountMonotone(pow, c1, c2, CommitsMedianFor(allCommits));
    CountMonotone(pow, p1, p2, PrsMedian);
    CountMonotone(pow, i1, i2, IssuesMedian);
    CountMonotone(pow, r1, r2, ReviewsMedian);
    CountMonotone(pow, s1, s2, StarsMedian);
    CountMonotone(pow, f1, f2, FollowersMedian);
  }

  /** A larger counter over the same median gives larger values of both distributions. */
  lemma CountMonotone(pow: real -> real, a: nat, b: nat, median: real)
    requires IsPow2Neg(pow) && a <= b && median > 0.0
    ensures ExponentialCdf(pow, a as real / median) <= ExponentialCdf(pow, b as real / median)
    ensures LogNormalCdf(a as real / median) <= LogNormalCdf(b as real / median)
  {
    assert a as real / median <= b as real / median;
    ExponentialCdfMonotone(pow, a as real / median, b as real / median);
    LogNormalCdfMonotone(a as real / median, b as real / median);
  }

  /** Counting all commits divides by the larger median 1000, so the same counters never
      give a better (lower) percentile in that mode. */
  lemma AllCommitsModeIsStricter(pow: real -> real, commits: nat, prs: nat, issues: nat,
                                 reviews: nat, stars: nat, followers: nat)
    requires IsPow2Neg(pow)
    ensures Percentile(pow, false, commits, prs, issues, reviews, stars, followers)
         <= Percentile(pow, true, commits, prs, issues, reviews, stars, followers)
  {
    ExponentialCdfMonotone(pow, commits as real / AllCommitsMedian, commits as real / CommitsMedian);
  }

  /** A higher percentile never gets a better grade. */
  lemma LevelMonotone(p: real, q: real)
    requires p <= q
    ensures LevelIndex(p) <= LevelIndex(q)
  {
  }

  /** The bands: a percentile in (Thresholds[k-1], Thresholds[k]] gets grade k, and the
      percentiles up to 1 get "S". */
  lemma LevelBands(p: real, k: nat)
    requires k < |Thresholds|
    requires k == 0 || p > Thresholds[k - 1]
    requires p <= Thresholds[k]
    ensures LevelIndex(p) == k
  {
  }
}
