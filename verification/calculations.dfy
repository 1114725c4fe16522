/** The placeholder process-priority score and the aggregate the review step
    shows. Scores are exact reals: the source's 0.4/0.4/0.2 weights are
    floating point, which this model does not reproduce. */
module Calculations {
  import opened Wrappers
  import opened Models

  /** The slider range every impact score is entered in. */
  predicate InSliderRange(i: Impact) {
    && 1 <= i.financialScore <= 5
    && 1 <= i.operationalScore <= 5
    && 1 <= i.reputationalScore <= 5
  }

  function Min3(a: int, b: int, c: int): int {
    if a <= b && a <= c then a else if b <= c then b else c
  }

  function Max3(a: int, b: int, c: int): int {
    if a >= b && a >= c then a else if b >= c then b else c
  }

  /** `calculate_process_priority`: financial and operational impact weigh
      0.4 each and reputational impact 0.2. The weights are positive and sum
      to one, so the score lies between the smallest and largest of the
      three scores. */
  function Priority(i: Impact): (r: real)
    ensures Min3(i.financialScore, i.operationalScore, i.reputationalScore) as real <= r
    ensures r <= Max3(i.financialScore, i.operationalScore, i.reputationalScore) as real
  {
    0.4 * i.financialScore as real + 0.4 * i.operationalScore as real + 0.2 * i.reputationalScore as real
  }

  /** Scores entered with the sliders give a priority in [1, 5]. */
  lemma PriorityInSliderRange(i: Impact)
    requires InSliderRange(i)
    ensures 1.0 <= Priority(i) <= 5.0
  {
  }

  /** Priority is pinned down by three facts: all-zero scores score zero, and
      raising one score by `d` raises the priority by exactly its weight
      times `d`. */
  lemma PriorityWeights(i: Impact, d: int)
    ensures Priority(Impact(i.processName, 0, 0, 0)) == 0.0
    ensures Priority(i.(financialScore := i.financialScore + d)) == Priority(i) + 0.4 * d as real
    ensures Priority(i.(operationalScore := i.operationalScore + d)) == Priority(i) + 0.4 * d as real
    ensures Priority(i.(reputationalScore := i.reputationalScore + d)) == Priority(i) + 0.2 * d as real
  {
  }

  /** Raising any score never lowers the priority. */
  lemma PriorityMonotone(a: Impact, b: Impact)
    requires a.financialScore <= b.financialScore
    requires a.operationalScore <= b.operationalScore
    requires a.reputationalScore <= b.reputationalScore
    ensures Priority(a) <= Priority(b)
  {
  }

  /** `[calculate_process_priority(i) for i in impacts]`. */
  function Scores(impacts: seq<Impact>): (r: seq<real>)
    ensures |r| == |impacts|
    ensures forall k :: 0 <= k < |impacts| ==> r[k] == Priority(impacts[k])
  {
    seq(|impacts|, k requires 0 <= k < |impacts| => Priority(impacts[k]))
  }

  function Sum(xs: seq<real>): real {
    if |xs| == 0 then 0.0 else Sum(xs[..|xs| - 1]) + xs[|xs| - 1]
  }

  /** `m` is the largest of `xs`, and one of them. */
  ghost predicate IsMaximum(m: real, xs: seq<real>) {
    (exists k :: 0 <= k < |xs| && xs[k] == m) && forall k :: 0 <= k < |xs| ==> xs[k] <= m
  }

  /** `m` is the smallest of `xs`, and one of them. */
  ghost predicate IsMinimum(m: real, xs: seq<real>) {
    (exists k :: 0 <= k < |xs| && xs[k] == m) && forall k :: 0 <= k < |xs| ==> m <= xs[k]
  }

  /** Python's `max`. */
  function Max(xs: seq<real>): (m: real)
    requires |xs| > 0
    ensures IsMaximum(m, xs)
  {
    if |xs| == 1 then xs[0]
    else
      var rest := Max(xs[1..]);
      assert forall k :: 1 <= k < |xs| ==> xs[k] == xs[1..][k - 1];
      if xs[0] >= rest then xs[0] else rest
  }

  function Min(xs: seq<real>): (m: real)
    requires |xs| > 0
    ensures IsMinimum(m, xs)
  {
    if |xs| == 1 then xs[0]
    else
      var rest := Min(xs[1..]);
      assert forall k :: 1 <= k < |xs| ==> xs[k] == xs[1..][k - 1];
      if xs[0] <= rest then xs[0] else rest
  }

  /** The dict `summarize_risk` returns; `maxScore` is `None` when the dict
      has no `max_score` entry. */
  datatype Summary = Summary(processCount: nat, averageScore: real, maxScore: Option<real>)

  /** `summarize_risk`: the process count always, and the mean and maximum
      priority over the impacts when there are any; the mean then lies
      between the lowest and the highest priority. */
  function SummarizeRisk(p: Project): (s: Summary)
    ensures s.processCount == |p.processes|
    ensures |p.impacts| == 0 ==> s.averageScore == 0.0 && s.maxScore == None
    ensures |p.impacts| > 0 ==> s.averageScore == Mean(Scores(p.impacts))
    ensures |p.impacts| > 0 ==> s.maxScore.Some? && IsMaximum(s.maxScore.value, Scores(p.impacts))
    ensures |p.impacts| > 0 ==> Min(Scores(p.impacts)) <= s.averageScore <= s.maxScore.value
  {
    if |p.impacts| == 0 then Summary(|p.processes|, 0.0, None)
    else
      var scores := Scores(p.impacts);
      Summary(|p.processes|, Mean(scores), Some(Max(scores)))
  }

  lemma {:induction false} SumBounds(xs: seq<real>, lo: real, hi: real)
    requires forall k :: 0 <= k < |xs| ==> lo <= xs[k] <= hi
    ensures |xs| as real * lo <= Sum(xs) <= |xs| as real * hi
  {
    if |xs| > 0 {
      SumBounds(xs[..|xs| - 1], lo, hi);
    }
  }

  /** A total between `n·lo` and `n·hi` has its mean between `lo` and `hi`. */
  lemma MeanBounds(total: real, n: real, lo: real, hi: real)
    requires n > 0.0
    requires n * lo <= total <= n * hi
    ensures lo <= total / n <= hi
  {
    var mean := total / n;
    assert mean * n == total;
    assert (mean - lo) * n >= 0.0;
    assert (hi - mean) * n >= 0.0;
  }

  /** Scores that all lie between `lo` and `hi` have their mean there too. */
  lemma {:induction false} MeanWithinBounds(xs: seq<real>, lo: real, hi: real)
    requires |xs| > 0
    requires forall k :: 0 <= k < |xs| ==> lo <= xs[k] <= hi
    ensures lo <= Sum(xs) / |xs| as real <= hi
  {
    SumBounds(xs, lo, hi);
    MeanBounds(Sum(xs), |xs| as real, lo, hi);
  }

  /** `sum(xs) / len(xs)`: the mean of a non-empty list. */
  function Mean(xs: seq<real>): (m: real)
    requires |xs| > 0
    ensures Min(xs) <= m <= Max(xs)
  {
    MeanWithinBounds(xs, Min(xs), Max(xs));
    Sum(xs) / |xs| as real
  }

  /** Impacts entered with the sliders average between 1 and 5. */
  lemma AverageInSliderRange(p: Project)
    requires |p.impacts| > 0
    requires forall k :: 0 <= k < |p.impacts| ==> InSliderRange(p.impacts[k])
    ensures 1.0 <= SummarizeRisk(p).averageScore <= 5.0
    ensures 1.0 <= SummarizeRisk(p).maxScore.value <= 5.0
  {
    var scores := Scores(p.impacts);
    forall k | 0 <= k < |scores|
      ensures 1.0 <= scores[k] <= 5.0
    {
      PriorityInSliderRange(p.impacts[k]);
    }
    SumBounds(scores, 1.0, 5.0);
    MeanBounds(Sum(scores), |scores| as real, 1.0, 5.0);
  }
}
