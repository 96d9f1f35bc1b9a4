/**
 The build records returned by the job server and the window reducer
 `calc_metrics`, which reduces the most recent N builds of a job to a
 success count, a failure count and the window's size.
 */
module Builds {

  datatype Option<T> = None | Some(value: T)

  /** One build of a job, as deserialised from the job server's answer.
      Only `result` takes part in the reduction; the other fields are carried. */
  datatype OneBuild = OneBuild(
    id: string,
    number: nat,
    result: Option<string>,
    timestamp: nat,
    duration: nat)

  /** The answer of the job server: the builds, oldest first. */
  datatype AllBuilds = AllBuilds(builds: seq<OneBuild>)

  /** The reducer's result, in the order of the source's tuple. */
  datatype Metrics = Metrics(success: nat, failure: nat, total: nat)

  const SuccessLabel: string := "SUCCESS"
  const FailureLabel: string := "FAILURE"

  /** All contiguous windows of length `n`, first to last, as `slice::windows`
      yields them; there are none when `s` is shorter than `n`. */
  function Windows<T>(s: seq<T>, n: nat): (ws: seq<seq<T>>)
    requires n > 0
    ensures |ws| == if |s| < n then 0 else |s| - n + 1
    ensures forall i :: 0 <= i < |ws| ==> |s| >= n && i + n <= |s| && ws[i] == s[i..i + n]
    decreases |s|
  {
    if |s| < n then [] else [s[..n]] + Windows(s[1..], n)
  }

  /** `Iterator::last`: the final element, if there is one. */
  function Last<T>(xs: seq<T>): (r: Option<T>)
    ensures r.None? <==> |xs| == 0
    ensures r.Some? ==> r.value == xs[|xs| - 1]
  {
    if |xs| == 0 then None else Some(xs[|xs| - 1])
  }

  /** The last window of length `n` is the trailing slice, and it exists exactly
      when there are at least `n` builds. */
  lemma LastWindowIsTrailing<T>(s: seq<T>, n: nat)
    requires n > 0
    ensures Last(Windows(s, n)) == if |s| < n then None else Some(s[|s| - n..])
  {
    var ws := Windows(s, n);
    if |s| < n {
      assert |ws| == 0;
    } else {
      var k := |ws| - 1;
      assert k + n == |s|;
      assert ws[k] == s[k..k + n] == s[|s| - n..];
      assert Last(ws) == Some(ws[k]);
    }
  }

  /** The filter closure of `calc_metrics`: a build matches an outcome only when its
      result is present and is exactly that string. */
  predicate HasOutcome(b: OneBuild, outcome: string)
    ensures HasOutcome(b, outcome) <==> b.result == Some(outcome)
  {
    match b.result
    case Some(res) => res == outcome
    case None => false
  }

  /** `iter().filter(..).count()` over a window. */
  function CountOutcome(w: seq<OneBuild>, outcome: string): (c: nat)
    ensures c <= |w|
  {
    if |w| == 0 then 0
    else (if HasOutcome(w[0], outcome) then 1 else 0) + CountOutcome(w[1..], outcome)
  }

  /** The outcome labels of a window, in order. */
  function Outcomes(w: seq<OneBuild>): (r: seq<Option<string>>)
    ensures |r| == |w|
    ensures forall i :: 0 <= i < |w| ==> r[i] == w[i].result
  {
    seq(|w|, i requires 0 <= i < |w| => w[i].result)
  }

  /** `calc_metrics(data, try_total)`: the counts over the last window of size
      `try_total`, or all zero when there is no such window. */
  function CalcMetrics(data: AllBuilds, tryTotal: nat): (m: Metrics)
    requires tryTotal > 0
    ensures |data.builds| < tryTotal ==> m == Metrics(0, 0, 0)
    ensures |data.builds| >= tryTotal ==>
      var w := data.builds[|data.builds| - tryTotal..];
      m.total == tryTotal &&
      m.success == CountOutcome(w, SuccessLabel) &&
      m.failure == CountOutcome(w, FailureLabel)
  {
    LastWindowIsTrailing(data.builds, tryTotal);
    match Last(Windows(data.builds, tryTotal))
    case None => Metrics(0, 0, 0)
    case Some(lastN) =>
      Metrics(CountOutcome(lastN, SuccessLabel), CountOutcome(lastN, FailureLabel), |lastN|)
  }

  /** Exact-match counting: the count is the number of times `Some(outcome)` occurs
      among the window's results. A build whose result is absent, or any other
      string (another case included), is never counted. */
  lemma {:induction false} CountOutcomeIsMultiplicity(w: seq<OneBuild>, outcome: string)
    ensures CountOutcome(w, outcome) == multiset(Outcomes(w))[Some(outcome)]
  {
    if |w| > 0 {
      CountOutcomeIsMultiplicity(w[1..], outcome);
      assert Outcomes(w) == [w[0].result] + Outcomes(w[1..]);
      assert HasOutcome(w[0], outcome) <==> w[0].result == Some(outcome);
    } else {
      assert Outcomes(w) == [];
    }
  }

  /** Builds matching two different labels are disjoint, so their counts add up
      to at most the window's length. */
  lemma {:induction false} DistinctOutcomesBound(w: seq<OneBuild>, l1: string, l2: string)
    requires l1 != l2
    ensures CountOutcome(w, l1) + CountOutcome(w, l2) <= |w|
  {
    if |w| > 0 {
      DistinctOutcomesBound(w[1..], l1, l2);
    }
  }

  /** The shape of every result: `total` is 0 or the window size, the two counts
      fit in the window, and an empty window has no counts. */
  lemma CalcMetricsBounds(data: AllBuilds, tryTotal: nat)
    requires tryTotal > 0
    ensures var m := CalcMetrics(data, tryTotal);
      (m.total == 0 || m.total == tryTotal) &&
      m.success + m.failure <= m.total &&
      (m.total == 0 ==> m.success == 0 && m.failure == 0) &&
      (m.total == tryTotal <==> |data.builds| >= tryTotal)
  {
    if |data.builds| >= tryTotal {
      DistinctOutcomesBound(data.builds[|data.builds| - tryTotal..], SuccessLabel, FailureLabel);
    }
  }

  /** Only the most recent window counts: builds older than the last
      `tryTotal` never change the result. */
  lemma CalcMetricsIgnoresOlder(older: seq<OneBuild>, recent: seq<OneBuild>, tryTotal: nat)
    requires tryTotal > 0
    requires |recent| >= tryTotal
    ensures CalcMetrics(AllBuilds(older + recent), tryTotal) == CalcMetrics(AllBuilds(recent), tryTotal)
  {
    var all := older + recent;
    assert all[|all| - tryTotal..] == recent[|recent| - tryTotal..];
  }

  /** The counts as multiplicities of the exact labels in the trailing window. */
  lemma CalcMetricsCountsLabels(data: AllBuilds, tryTotal: nat)
    requires tryTotal > 0
    requires |data.builds| >= tryTotal
    ensures var w := Outcomes(data.builds[|data.builds| - tryTotal..]);
      CalcMetrics(data, tryTotal).success == multiset(w)[Some(SuccessLabel)] &&
      CalcMetrics(data, tryTotal).failure == multiset(w)[Some(FailureLabel)]
  {
    var w := data.builds[|data.builds| - tryTotal..];
    CountOutcomeIsMultiplicity(w, SuccessLabel);
    CountOutcomeIsMultiplicity(w, FailureLabel);
  }
}
