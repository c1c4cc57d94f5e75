/** Picking one SummEval machine summary for a row (helpers.py:763-777):
    either a summary whose consistency score is 5, or one whose score is
    below 5, chosen at random among those that qualify; none when no score
    qualifies. The random choice is a parameter: `pick` stands for whatever
    `random.choice` draws, reduced modulo the number of candidates. */
module SummarySelection {
  import opened Wrappers

  /** Which summaries qualify: a perfect score, or a score below 5. */
  datatype Band = PerfectlyConsistent | WithHallucinations

  predicate InBand(band: Band, score: real) {
    match band
    case PerfectlyConsistent => score == 5.0
    case WithHallucinations => score < 5.0
  }

  /** The indices whose score is in `band`, in increasing order (the
      `enumerate` of the comprehension). */
  function Matching(scores: seq<real>, band: Band): (idx: seq<nat>)
    ensures forall k :: 0 <= k < |idx| ==> idx[k] < |scores| && InBand(band, scores[idx[k]])
    ensures forall i :: 0 <= i < |scores| && InBand(band, scores[i]) ==> i in idx
    ensures forall j, k :: 0 <= j < k < |idx| ==> idx[j] < idx[k]
    decreases |scores|
  {
    if scores == [] then []
    else
      var n := |scores| - 1;
      Matching(scores[..n], band) + (if InBand(band, scores[n]) then [n] else [])
  }

  /** The source indexes `summaries` by every qualifying position of `scores`;
      a shorter list of summaries makes it fail. */
  predicate Indexable(scores: seq<real>, summaries: seq<string>, band: Band) {
    forall i :: 0 <= i < |scores| && InBand(band, scores[i]) ==> i < |summaries|
  }

  /** The qualifying summaries, in order. */
  function Candidates(scores: seq<real>, summaries: seq<string>, band: Band): (c: seq<string>)
    requires Indexable(scores, summaries, band)
    ensures |c| == |Matching(scores, band)|
    ensures forall k :: 0 <= k < |c| ==> c[k] == summaries[Matching(scores, band)[k]]
  {
    var idx := Matching(scores, band);
    seq(|idx|, k requires 0 <= k < |idx| => summaries[idx[k]])
  }

  /** A random qualifying summary, or none. */
  function FindRandomSummary(scores: seq<real>, summaries: seq<string>, band: Band, pick: nat): (r: Option<string>)
    requires Indexable(scores, summaries, band)
    ensures r.None? <==> forall i :: 0 <= i < |scores| ==> !InBand(band, scores[i])
    ensures r.Some? ==> exists i :: 0 <= i < |scores| && InBand(band, scores[i]) && r.value == summaries[i]
  {
    var c := Candidates(scores, summaries, band);
    if c == [] then None
    else
      var k := pick % |c|;
      assert InBand(band, scores[Matching(scores, band)[k]]);
      Some(c[k])
  }

  /** find_random_summary_with_consistency_5 */
  function FindRandomSummaryWithConsistency5(scores: seq<real>, summaries: seq<string>, pick: nat)
    : (r: Option<string>)
    requires Indexable(scores, summaries, PerfectlyConsistent)
    ensures r.None? <==> forall i :: 0 <= i < |scores| ==> scores[i] != 5.0
    ensures r.Some? ==> exists i :: 0 <= i < |scores| && scores[i] == 5.0 && r.value == summaries[i]
  {
    FindRandomSummary(scores, summaries, PerfectlyConsistent, pick)
  }

  /** find_random_summary_with_hallucinations */
  function FindRandomSummaryWithHallucinations(scores: seq<real>, summaries: seq<string>, pick: nat)
    : (r: Option<string>)
    requires Indexable(scores, summaries, WithHallucinations)
    ensures r.None? <==> forall i :: 0 <= i < |scores| ==> scores[i] >= 5.0
    ensures r.Some? ==> exists i :: 0 <= i < |scores| && scores[i] < 5.0 && r.value == summaries[i]
  {
    FindRandomSummary(scores, summaries, WithHallucinations, pick)
  }

  /** Every qualifying summary can be drawn: some `pick` returns it. */
  lemma EveryCandidateCanBeDrawn(scores: seq<real>, summaries: seq<string>, band: Band, i: nat)
    requires Indexable(scores, summaries, band)
    requires i < |scores| && InBand(band, scores[i])
    ensures exists pick: nat :: FindRandomSummary(scores, summaries, band, pick) == Some(summaries[i])
  {
    var idx := Matching(scores, band);
    assert i in idx;
    var k :| 0 <= k < |idx| && idx[k] == i;
    var c := Candidates(scores, summaries, band);
    assert c[k] == summaries[i];
    SmallRemainder(k, |c|);
    assert FindRandomSummary(scores, summaries, band, k) == Some(c[k]);
  }

  lemma SmallRemainder(k: nat, n: nat)
    requires k < n
    ensures k % n == k
  {
  }
}
