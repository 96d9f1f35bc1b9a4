/**
 The bookkeeping of the exporter's main loop: three process-wide counters and,
 per configured job, three gauges created at start-up and overwritten in every
 poll cycle from the job's last window of builds. Fetching a job's builds is an
 input of the cycle: one `Fetch` per configured job, in the order of the jobs.
 */
module Exporter {
  import opened Builds
  import opened MetricNames

  datatype MyError = GenericError(message: string)

  /** What fetching one job's build list gave: the builds or an error. */
  datatype Fetch = Ok(data: AllBuilds) | Err(error: MyError)

  /** An integer gauge: the name it was registered under and its value. */
  datatype Gauge = Gauge(name: string, value: int)

  /** The three maps from job name to that job's gauge. */
  datatype GaugeSet = GaugeSet(
    total: map<string, Gauge>,
    success: map<string, Gauge>,
    failure: map<string, Gauge>)

  function Family(g: GaugeSet, kind: Kind): map<string, Gauge>
  {
    match kind
    case Total => g.total
    case Success => g.success
    case Failure => g.failure
  }

  /** The value a cycle writes into the gauge of the given kind. */
  function Reading(m: Metrics, kind: Kind): nat
  {
    match kind
    case Total => m.total
    case Success => m.success
    case Failure => m.failure
  }

  function JobSet(jobs: seq<string>): set<string>
  {
    set j | j in jobs
  }

  lemma JobSetSnoc(jobs: seq<string>, job: string)
    ensures JobSet(jobs + [job]) == JobSet(jobs) + {job}
  {
    assert forall j :: j in jobs + [job] <==> j in jobs || j == job;
  }

  /** Every configured job, and nothing else, has a gauge in the map, and each
      gauge carries the name built for its job and the map's kind. */
  predicate RegisteredFamily(m: map<string, Gauge>, jobs: seq<string>, kind: Kind)
  {
    m.Keys == JobSet(jobs) && forall j :: j in m ==> m[j].name == GaugeName(j, kind)
  }

  predicate Registered(g: GaugeSet, jobs: seq<string>)
  {
    RegisteredFamily(g.total, jobs, Total) &&
    RegisteredFamily(g.success, jobs, Success) &&
    RegisteredFamily(g.failure, jobs, Failure)
  }

  /** The job has a gauge in each of the three maps. */
  predicate HasGauges(g: GaugeSet, job: string)
  {
    job in g.total && job in g.success && job in g.failure
  }

  /** Same keys, and every gauge keeps its name. */
  predicate SameNames(a: map<string, Gauge>, b: map<string, Gauge>)
  {
    a.Keys == b.Keys && forall k :: k in b ==> a[k].name == b[k].name
  }

  predicate SameShape(a: GaugeSet, b: GaugeSet)
  {
    SameNames(a.total, b.total) && SameNames(a.success, b.success) && SameNames(a.failure, b.failure)
  }

  lemma SameShapeKeeps(a: GaugeSet, b: GaugeSet, jobs: seq<string>)
    requires SameShape(a, b)
    ensures (forall j :: j in jobs ==> HasGauges(b, j)) ==> forall j :: j in jobs ==> HasGauges(a, j)
  {
  }

  /** A job's gauges survive a change that keeps every map's keys and names. */
  lemma SameShapeHas(a: GaugeSet, b: GaugeSet, job: string)
    requires SameShape(a, b) && HasGauges(b, job)
    ensures HasGauges(a, job)
  {
  }

  lemma SameShapeKeepsRegistered(a: GaugeSet, b: GaugeSet, jobs: seq<string>)
    requires SameShape(a, b)
    requires Registered(b, jobs)
    ensures Registered(a, jobs)
  {
  }

  /** Registered gauges exist for every configured job. */
  lemma RegisteredHasGauges(g: GaugeSet, jobs: seq<string>)
    requires Registered(g, jobs)
    ensures forall j :: j in jobs ==> HasGauges(g, j)
  {
  }

  /** The source reads a window only when a fetch succeeds, and `windows(0)`
      panics, so a zero window size is admissible only in a cycle without an
      `Ok`. */
  predicate Fetchable(results: seq<Fetch>, tryTotal: nat)
  {
    tryTotal > 0 || forall i :: 0 <= i < |results| ==> results[i].Err?
  }

  /** A non-empty sequence is its prefix followed by its last element. */
  lemma SplitLast<T>(xs: seq<T>)
    requires |xs| > 0
    ensures xs == xs[..|xs| - 1] + [xs[|xs| - 1]]
  {
  }

  /** Everything in a prefix is in the whole sequence. */
  lemma PrefixIn<T>(xs: seq<T>, i: nat)
    requires i <= |xs|
    ensures forall x :: x in xs[..i] ==> x in xs
  {
  }

  /** Every gauge of the map is at zero. */
  predicate Zeroed(m: map<string, Gauge>)
  {
    forall j :: j in m ==> m[j].value == 0
  }

  /** Registering one more job's gauge of a kind, at zero. */
  lemma AddGauge(m: map<string, Gauge>, jobs: seq<string>, job: string, kind: Kind)
    requires RegisteredFamily(m, jobs, kind) && Zeroed(m)
    ensures var m' := m[job := Gauge(GaugeName(job, kind), 0)];
      RegisteredFamily(m', jobs + [job], kind) && Zeroed(m')
  {
    JobSetSnoc(jobs, job);
  }

  /** The gauges right after the start-up loop: one zero gauge per job and
      kind, registered under `GaugeName`. */
  function Initial(jobs: seq<string>): (g: GaugeSet)
    ensures Registered(g, jobs)
    ensures Zeroed(g.total) && Zeroed(g.success) && Zeroed(g.failure)
  {
    if |jobs| == 0 then GaugeSet(map[], map[], map[])
    else
      var prefix := jobs[..|jobs| - 1];
      var prev := Initial(prefix);
      var job := jobs[|jobs| - 1];
      SplitLast(jobs);
      AddGauge(prev.total, prefix, job, Total);
      AddGauge(prev.success, prefix, job, Success);
      AddGauge(prev.failure, prefix, job, Failure);
      GaugeSet(
        prev.total[job := Gauge(GaugeName(job, Total), 0)],
        prev.success[job := Gauge(GaugeName(job, Success), 0)],
        prev.failure[job := Gauge(GaugeName(job, Failure), 0)])
  }

  /** Setting one gauge's value keeps every name and touches no other gauge. */
  lemma SetValue(g: GaugeSet, job: string, kind: Kind, v: int)
    requires job in Family(g, kind)
    ensures var m := Family(g, kind); var m' := m[job := m[job].(value := v)];
      SameNames(m', m) &&
      forall k :: k in m ==> m'[k] == if k == job then m[k].(value := v) else m[k]
  {
  }

  /** The three `set` calls for one job: its gauges take the window's counts,
      keeping their names; every other gauge is left alone. */
  function Publish(g: GaugeSet, job: string, m: Metrics): (r: GaugeSet)
    requires HasGauges(g, job)
    ensures SameShape(r, g)
    ensures forall kind, k :: k in Family(g, kind) ==>
      Family(r, kind)[k] == if k == job then Family(g, kind)[k].(value := Reading(m, kind)) else Family(g, kind)[k]
  {
    SetValue(g, job, Total, m.total);
    SetValue(g, job, Success, m.success);
    SetValue(g, job, Failure, m.failure);
    GaugeSet(
      g.total[job := g.total[job].(value := m.total)],
      g.success[job := g.success[job].(value := m.success)],
      g.failure[job := g.failure[job].(value := m.failure)])
  }

  /** The loop body for one job: an `Err` leaves the gauges as they were, an
      `Ok` publishes the job's metrics. */
  function Step(g: GaugeSet, job: string, response: Fetch, tryTotal: nat): (r: GaugeSet)
    requires HasGauges(g, job)
    requires response.Ok? ==> tryTotal > 0
    ensures SameShape(r, g)
  {
    match response
    case Err(_) => g
    case Ok(data) => Publish(g, job, CalcMetrics(data, tryTotal))
  }

  /** The gauges after the loop body has run for each of `jobs` with the
      matching fetch result. */
  function Apply(g: GaugeSet, jobs: seq<string>, results: seq<Fetch>, tryTotal: nat): (r: GaugeSet)
    requires |jobs| == |results|
    requires forall j :: j in jobs ==> HasGauges(g, j)
    requires Fetchable(results, tryTotal)
    ensures SameShape(r, g)
    decreases |jobs|
  {
    if |jobs| == 0 then g
    else
      var n := |jobs| - 1;
      var prev := Apply(g, jobs[..n], results[..n], tryTotal);
      assert jobs[n] in jobs;
      SameShapeHas(prev, g, jobs[n]);
      Step(prev, jobs[n], results[n], tryTotal)
  }

  /** A reference per gauge: the value of `key`'s gauge of `kind` after the
      cycle, given its value `v` before, is the reading of the last successful
      fetch for `key`, or `v` if there was none. */
  function LatestReading(v: int, jobs: seq<string>, results: seq<Fetch>, tryTotal: nat,
                         key: string, kind: Kind): int
    requires |jobs| == |results|
    requires Fetchable(results, tryTotal)
    decreases |jobs|
  {
    if |jobs| == 0 then v
    else
      var n := |jobs| - 1;
      if jobs[n] == key && results[n].Ok? then Reading(CalcMetrics(results[n].data, tryTotal), kind)
      else LatestReading(v, jobs[..n], results[..n], tryTotal, key, kind)
  }

  /** Number of fetches that ended in error. */
  function ErrCount(results: seq<Fetch>): (c: nat)
    ensures c <= |results|
  {
    if |results| == 0 then 0
    else ErrCount(results[..|results| - 1]) + (if results[|results| - 1].Err? then 1 else 0)
  }

  /** The error count is zero exactly when every fetch succeeded, and the
      number of fetches exactly when every fetch failed. */
  lemma {:induction false} ErrCountExtremes(results: seq<Fetch>)
    ensures ErrCount(results) == 0 <==> forall i :: 0 <= i < |results| ==> results[i].Ok?
    ensures ErrCount(results) == |results| <==> forall i :: 0 <= i < |results| ==> results[i].Err?
  {
    if |results| > 0 {
      var n := |results| - 1;
      var prefix := results[..n];
      ErrCountExtremes(prefix);
      assert forall i :: 0 <= i < n ==> prefix[i] == results[i];
    }
  }

  /** The fold over the first `i` jobs. */
  function ApplyUpTo(g: GaugeSet, jobs: seq<string>, results: seq<Fetch>, tryTotal: nat, i: nat): (r: GaugeSet)
    requires |jobs| == |results|
    requires forall j :: j in jobs ==> HasGauges(g, j)
    requires Fetchable(results, tryTotal)
    requires i <= |jobs|
    ensures SameShape(r, g)
  {
    PrefixIn(jobs, i);
    Apply(g, jobs[..i], results[..i], tryTotal)
  }

  /** The fold over all jobs, and one more turn of the loop body extends the
      fold by one `Step`. */
  lemma ApplyUpToAll(g: GaugeSet, jobs: seq<string>, results: seq<Fetch>, tryTotal: nat)
    requires |jobs| == |results|
    requires forall j :: j in jobs ==> HasGauges(g, j)
    requires Fetchable(results, tryTotal)
    ensures ApplyUpTo(g, jobs, results, tryTotal, |jobs|) == Apply(g, jobs, results, tryTotal)
  {
    assert jobs[..|jobs|] == jobs && results[..|results|] == results;
  }

  lemma ApplyUpToNext(g: GaugeSet, jobs: seq<string>, results: seq<Fetch>, tryTotal: nat, i: nat)
    requires |jobs| == |results|
    requires forall j :: j in jobs ==> HasGauges(g, j)
    requires Fetchable(results, tryTotal)
    requires i < |jobs|
    ensures results[i].Ok? ==> tryTotal > 0
    ensures HasGauges(ApplyUpTo(g, jobs, results, tryTotal, i), jobs[i])
    ensures ApplyUpTo(g, jobs, results, tryTotal, i + 1) ==
            Step(ApplyUpTo(g, jobs, results, tryTotal, i), jobs[i], results[i], tryTotal)
  {
    assert jobs[..i + 1][..i] == jobs[..i] && results[..i + 1][..i] == results[..i];
    assert jobs[i] in jobs;
    SameShapeHas(ApplyUpTo(g, jobs, results, tryTotal, i), g, jobs[i]);
  }

  lemma ErrCountPrefix(results: seq<Fetch>, i: nat)
    requires i < |results|
    ensures ErrCount(results[..i + 1]) == ErrCount(results[..i]) + if results[i].Err? then 1 else 0
  {
    assert results[..i + 1][..i] == results[..i];
  }

  /** `SameShape` and `HasGauges`, read through `Family`. */
  lemma FamilyOf(a: GaugeSet, b: GaugeSet, job: string, kind: Kind)
    ensures SameShape(a, b) ==> SameNames(Family(a, kind), Family(b, kind))
    ensures HasGauges(a, job) ==> job in Family(a, kind)
  {
  }

  lemma ApplyCovers(g: GaugeSet, jobs: seq<string>, results: seq<Fetch>, tryTotal: nat)
    requires |jobs| == |results|
    requires forall j :: j in jobs ==> HasGauges(g, j)
    requires Fetchable(results, tryTotal)
    ensures forall j :: j in jobs ==> HasGauges(Apply(g, jobs, results, tryTotal), j)
  {
    SameShapeKeeps(Apply(g, jobs, results, tryTotal), g, jobs);
  }

  /** The whole-map fold agrees with the per-gauge reference. */
  lemma {:induction false} ApplyAt(g: GaugeSet, jobs: seq<string>, results: seq<Fetch>, tryTotal: nat,
                                   key: string, kind: Kind)
    requires |jobs| == |results|
    requires forall j :: j in jobs ==> HasGauges(g, j)
    requires Fetchable(results, tryTotal)
    requires key in Family(g, kind)
    ensures key in Family(Apply(g, jobs, results, tryTotal), kind)
    ensures Family(Apply(g, jobs, results, tryTotal), kind)[key] ==
      Family(g, kind)[key].(value := LatestReading(Family(g, kind)[key].value, jobs, results, tryTotal, key, kind))
  {
    FamilyOf(Apply(g, jobs, results, tryTotal), g, key, kind);
    if |jobs| > 0 {
      var n := |jobs| - 1;
      PrefixIn(jobs, n);
      ApplyAt(g, jobs[..n], results[..n], tryTotal, key, kind);
      var prev := Apply(g, jobs[..n], results[..n], tryTotal);
      assert jobs[n] in jobs;
      SameShapeHas(prev, g, jobs[n]);
      StepAt(prev, jobs[n], results[n], tryTotal, key, kind);
    }
  }

  /** The loop body, read at one gauge. */
  lemma StepAt(g: GaugeSet, job: string, response: Fetch, tryTotal: nat, key: string, kind: Kind)
    requires HasGauges(g, job)
    requires response.Ok? ==> tryTotal > 0
    requires key in Family(g, kind)
    ensures key in Family(Step(g, job, response, tryTotal), kind)
    ensures Family(Step(g, job, response, tryTotal), kind)[key] ==
      if key == job && response.Ok? then Family(g, kind)[key].(value := Reading(CalcMetrics(response.data, tryTotal), kind))
      else Family(g, kind)[key]
  {
    FamilyOf(Step(g, job, response, tryTotal), g, key, kind);
  }

  /** A gauge whose job does not occur in the cycle keeps its value. */
  lemma {:induction false} LatestReadingUntouched(v: int, jobs: seq<string>, results: seq<Fetch>,
                                                  tryTotal: nat, key: string, kind: Kind)
    requires |jobs| == |results|
    requires Fetchable(results, tryTotal)
    requires key !in jobs
    ensures LatestReading(v, jobs, results, tryTotal, key, kind) == v
  {
    if |jobs| > 0 {
      var n := |jobs| - 1;
      assert jobs[n] in jobs;
      PrefixIn(jobs, n);
      LatestReadingUntouched(v, jobs[..n], results[..n], tryTotal, key, kind);
    }
  }

  /** When `key` occurs only at position `i`, its gauge ends up with that
      fetch's reading on `Ok` and with its old value on `Err`. */
  lemma {:induction false} LatestReadingSingle(v: int, jobs: seq<string>, results: seq<Fetch>,
                                               tryTotal: nat, i: nat, kind: Kind)
    requires |jobs| == |results|
    requires Fetchable(results, tryTotal)
    requires i < |jobs|
    requires forall j :: 0 <= j < |jobs| && j != i ==> jobs[j] != jobs[i]
    ensures LatestReading(v, jobs, results, tryTotal, jobs[i], kind) ==
      if results[i].Ok? then Reading(CalcMetrics(results[i].data, tryTotal), kind) else v
  {
    var n := |jobs| - 1;
    if i < n {
      assert jobs[n] != jobs[i];
      LatestReadingSingle(v, jobs[..n], results[..n], tryTotal, i, kind);
    } else if results[n].Err? {
      assert jobs[i] !in jobs[..n];
      LatestReadingUntouched(v, jobs[..n], results[..n], tryTotal, jobs[i], kind);
    }
  }

  /** A result only ever reaches its own job's gauges: replacing the fetch
      result at position `i` by any other changes nothing for another job. */
  lemma {:induction false} LatestReadingIsolated(v: int, jobs: seq<string>, results: seq<Fetch>,
                                                 other: Fetch, tryTotal: nat, i: nat,
                                                 key: string, kind: Kind)
    requires |jobs| == |results|
    requires i < |jobs|
    requires Fetchable(results, tryTotal) && Fetchable(results[i := other], tryTotal)
    requires key != jobs[i]
    ensures LatestReading(v, jobs, results[i := other], tryTotal, key, kind) ==
            LatestReading(v, jobs, results, tryTotal, key, kind)
  {
    var n := |jobs| - 1;
    var alt := results[i := other];
    if i < n {
      assert alt[..n] == results[..n][i := other] && alt[n] == results[n];
      LatestReadingIsolated(v, jobs[..n], results[..n], other, tryTotal, i, key, kind);
    } else {
      assert alt[..n] == results[..n];
      assert LatestReading(v, jobs, alt, tryTotal, key, kind) == LatestReading(v, jobs[..n], alt[..n], tryTotal, key, kind);
    }
  }

  /** Running the same cycle twice gives the same reading as running it once. */
  lemma {:induction false} LatestReadingIdempotent(v: int, jobs: seq<string>, results: seq<Fetch>,
                                                   tryTotal: nat, key: string, kind: Kind)
    requires |jobs| == |results|
    requires Fetchable(results, tryTotal)
    ensures var once := LatestReading(v, jobs, results, tryTotal, key, kind);
      LatestReading(once, jobs, results, tryTotal, key, kind) == once
  {
    if |jobs| > 0 {
      var n := |jobs| - 1;
      if !(jobs[n] == key && results[n].Ok?) {
        var once := LatestReading(v, jobs[..n], results[..n], tryTotal, key, kind);
        LatestReadingIdempotent(v, jobs[..n], results[..n], tryTotal, key, kind);
        assert LatestReading(once, jobs, results, tryTotal, key, kind)
            == LatestReading(once, jobs[..n], results[..n], tryTotal, key, kind);
      }
    }
  }

  /** Jobs that do not take part in the cycle keep their gauges as they were. */
  lemma CycleLeavesOthers(g: GaugeSet, jobs: seq<string>, results: seq<Fetch>, tryTotal: nat,
                          key: string, kind: Kind)
    requires |jobs| == |results|
    requires forall j :: j in jobs ==> HasGauges(g, j)
    requires Fetchable(results, tryTotal)
    requires key in Family(g, kind) && key !in jobs
    ensures key in Family(Apply(g, jobs, results, tryTotal), kind) &&
            Family(Apply(g, jobs, results, tryTotal), kind)[key] == Family(g, kind)[key]
  {
    ApplyAt(g, jobs, results, tryTotal, key, kind);
    LatestReadingUntouched(Family(g, kind)[key].value, jobs, results, tryTotal, key, kind);
  }

  /** One job's fetch result never reaches another job's gauges. */
  lemma CycleIsolated(g: GaugeSet, jobs: seq<string>, results: seq<Fetch>, other: Fetch,
                      tryTotal: nat, i: nat, key: string, kind: Kind)
    requires |jobs| == |results|
    requires forall j :: j in jobs ==> HasGauges(g, j)
    requires i < |jobs|
    requires Fetchable(results, tryTotal) && Fetchable(results[i := other], tryTotal)
    requires key in Family(g, kind) && key != jobs[i]
    ensures key in Family(Apply(g, jobs, results, tryTotal), kind)
    ensures key in Family(Apply(g, jobs, results[i := other], tryTotal), kind)
    ensures Family(Apply(g, jobs, results[i := other], tryTotal), kind)[key] ==
            Family(Apply(g, jobs, results, tryTotal), kind)[key]
  {
    ApplyAt(g, jobs, results, tryTotal, key, kind);
    ApplyAt(g, jobs, results[i := other], tryTotal, key, kind);
    LatestReadingIsolated(Family(g, kind)[key].value, jobs, results, other, tryTotal, i, key, kind);
  }

  /** With distinct job names, each job's gauges after a cycle are the window
      counts of its fetch if that succeeded, and unchanged if it failed; the
      gauge keeps its registered name either way. */
  lemma CycleOutcome(g: GaugeSet, jobs: seq<string>, results: seq<Fetch>, tryTotal: nat,
                     i: nat, kind: Kind)
    requires |jobs| == |results|
    requires forall j :: j in jobs ==> HasGauges(g, j)
    requires Fetchable(results, tryTotal)
    requires i < |jobs|
    requires forall a, b :: 0 <= a < b < |jobs| ==> jobs[a] != jobs[b]
    ensures jobs[i] in Family(g, kind) && jobs[i] in Family(Apply(g, jobs, results, tryTotal), kind)
    ensures var after := Family(Apply(g, jobs, results, tryTotal), kind)[jobs[i]];
      after.name == Family(g, kind)[jobs[i]].name &&
      after.value == if results[i].Ok? then Reading(CalcMetrics(results[i].data, tryTotal), kind)
                     else Family(g, kind)[jobs[i]].value
  {
    assert jobs[i] in jobs;
    FamilyOf(g, g, jobs[i], kind);
    assert forall j :: 0 <= j < |jobs| && j != i ==> jobs[j] != jobs[i] by {
      forall j | 0 <= j < |jobs| && j != i ensures jobs[j] != jobs[i] {
        if j < i { assert jobs[j] != jobs[i]; } else { assert jobs[i] != jobs[j]; }
      }
    }
    ApplyAt(g, jobs, results, tryTotal, jobs[i], kind);
    LatestReadingSingle(Family(g, kind)[jobs[i]].value, jobs, results, tryTotal, i, kind);
  }

  lemma FamiliesEqual(a: GaugeSet, b: GaugeSet)
    requires forall kind :: Family(a, kind) == Family(b, kind)
    ensures a == b
  {
    assert a.total == Family(a, Total) == Family(b, Total) == b.total;
    assert a.success == Family(a, Success) == Family(b, Success) == b.success;
    assert a.failure == Family(a, Failure) == Family(b, Failure) == b.failure;
  }

  /** Repeating a cycle with the same fetch results changes no gauge. */
  lemma CycleIdempotent(g: GaugeSet, jobs: seq<string>, results: seq<Fetch>, tryTotal: nat)
    requires |jobs| == |results|
    requires forall j :: j in jobs ==> HasGauges(g, j)
    requires Fetchable(results, tryTotal)
    ensures var once := Apply(g, jobs, results, tryTotal);
      (forall j :: j in jobs ==> HasGauges(once, j)) &&
      Apply(once, jobs, results, tryTotal) == once
  {
    var once := Apply(g, jobs, results, tryTotal);
    ApplyCovers(g, jobs, results, tryTotal);
    var twice := Apply(once, jobs, results, tryTotal);
    forall kind ensures Family(twice, kind) == Family(once, kind) {
      FamilyOf(once, g, "", kind);
      FamilyOf(twice, once, "", kind);
      forall k | k in Family(once, kind) ensures Family(twice, kind)[k] == Family(once, kind)[k] {
        ApplyAt(g, jobs, results, tryTotal, k, kind);
        ApplyAt(once, jobs, results, tryTotal, k, kind);
        LatestReadingIdempotent(Family(g, kind)[k].value, jobs, results, tryTotal, k, kind);
      }
    }
    FamiliesEqual(twice, once);
  }

  /** Of two consecutive cycles, the later successful fetch decides: after the
      second cycle a job whose second fetch succeeded shows that fetch's counts
      only, whatever the first cycle wrote. */
  lemma LaterCycleWins(g: GaugeSet, jobs: seq<string>, first: seq<Fetch>, second: seq<Fetch>,
                       tryTotal: nat, i: nat, kind: Kind)
    requires |jobs| == |first| == |second|
    requires forall j :: j in jobs ==> HasGauges(g, j)
    requires Fetchable(first, tryTotal) && Fetchable(second, tryTotal)
    requires i < |jobs|
    requires forall a, b :: 0 <= a < b < |jobs| ==> jobs[a] != jobs[b]
    requires second[i].Ok?
    ensures var mid := Apply(g, jobs, first, tryTotal);
      (forall j :: j in jobs ==> HasGauges(mid, j)) &&
      jobs[i] in Family(Apply(mid, jobs, second, tryTotal), kind) &&
      Family(Apply(mid, jobs, second, tryTotal), kind)[jobs[i]].value ==
        Reading(CalcMetrics(second[i].data, tryTotal), kind)
  {
    ApplyCovers(g, jobs, first, tryTotal);
    CycleOutcome(Apply(g, jobs, first, tryTotal), jobs, second, tryTotal, i, kind);
  }

  /** The gauges after the given cycles, one after another. */
  function ApplyCycles(g: GaugeSet, jobs: seq<string>, rounds: seq<seq<Fetch>>, tryTotal: nat): (r: GaugeSet)
    requires forall j :: j in jobs ==> HasGauges(g, j)
    requires forall c :: 0 <= c < |rounds| ==> |rounds[c]| == |jobs| && Fetchable(rounds[c], tryTotal)
    ensures SameShape(r, g)
    decreases |rounds|
  {
    if |rounds| == 0 then g
    else
      var n := |rounds| - 1;
      var prev := ApplyCycles(g, jobs, rounds[..n], tryTotal);
      SameShapeKeeps(prev, g, jobs);
      Apply(prev, jobs, rounds[n], tryTotal)
  }

  /** Number of failed fetches over several cycles. */
  function ErrCountAll(rounds: seq<seq<Fetch>>): (c: nat)
    ensures c <= SumLengths(rounds)
  {
    if |rounds| == 0 then 0 else ErrCountAll(rounds[..|rounds| - 1]) + ErrCount(rounds[|rounds| - 1])
  }

  function SumLengths(rounds: seq<seq<Fetch>>): nat
  {
    if |rounds| == 0 then 0 else SumLengths(rounds[..|rounds| - 1]) + |rounds[|rounds| - 1]|
  }

  /** The exporter's state between two cycles. */
  class Exporter {
    const jobs: seq<string>
    const lastJobs: nat
    const pollIntervalSec: nat

    var pollCounter: nat
    var reqCounter: nat
    var reqErrCounter: nat
    var gaugesTotal: map<string, Gauge>
    var gaugesSuccess: map<string, Gauge>
    var gaugesFailure: map<string, Gauge>
    var waitSec: nat

    function Gauges(): GaugeSet
      reads this
    {
      GaugeSet(gaugesTotal, gaugesSuccess, gaugesFailure)
    }

    ghost predicate Valid()
      reads this
    {
      reqErrCounter <= reqCounter && Registered(Gauges(), jobs)
    }

    /** Start-up: the counters at zero, no wait before the first cycle, and one
        zero gauge of each kind per configured job. */
    constructor (jobs: seq<string>, lastJobs: nat, pollIntervalSec: nat)
      ensures Valid()
      ensures this.jobs == jobs && this.lastJobs == lastJobs && this.pollIntervalSec == pollIntervalSec
      ensures pollCounter == 0 && reqCounter == 0 && reqErrCounter == 0 && waitSec == 0
      ensures Gauges() == Initial(jobs)
    {
      var total, success, failure := RegisterGauges(jobs);
      this.jobs := jobs;
      this.lastJobs := lastJobs;
      this.pollIntervalSec := pollIntervalSec;
      pollCounter, reqCounter, reqErrCounter := 0, 0, 0;
      gaugesTotal, gaugesSuccess, gaugesFailure := total, success, failure;
      waitSec := 0;
    }

    /** The start-up loop over the configured jobs: for each, three gauges
        named after the sanitised job name, inserted under the job's own name. */
    static method RegisterGauges(jobs: seq<string>)
      returns (total: map<string, Gauge>, success: map<string, Gauge>, failure: map<string, Gauge>)
      ensures GaugeSet(total, success, failure) == Initial(jobs)
      ensures Registered(GaugeSet(total, success, failure), jobs)
    {
      total, success, failure := map[], map[], map[];
      for i := 0 to |jobs|
        invariant GaugeSet(total, success, failure) == Initial(jobs[..i])
      {
        var job := jobs[i];
        var metricName := Sanitize(job);
        assert jobs[..i + 1][..i] == jobs[..i];
        total := total[job := Gauge(metricName + Suffix(Total), 0)];
        success := success[job := Gauge(metricName + Suffix(Success), 0)];
        failure := failure[job := Gauge(metricName + Suffix(Failure), 0)];
      }
      assert jobs[..|jobs|] == jobs;
    }

    /** The `for job in &opts.jobs` loop of one turn of the main loop, on the
        counters and gauges given, `results[i]` being what fetching `jobs[i]`
        gave: one request counted per job, one error per failed fetch, and the
        gauges as `Apply` says. */
    static method PollJobs(jobs: seq<string>, lastJobs: nat, results: seq<Fetch>,
                           reqCounter: nat, reqErrCounter: nat, gauges: GaugeSet)
      returns (req: nat, reqErr: nat, after: GaugeSet)
      requires Registered(gauges, jobs)
      requires |results| == |jobs|
      requires Fetchable(results, lastJobs)
      ensures req == reqCounter + |jobs|
      ensures reqErr == reqErrCounter + ErrCount(results)
      ensures after == Apply(gauges, jobs, results, lastJobs)
      ensures Registered(after, jobs)
    {
      RegisteredHasGauges(gauges, jobs);
      after := gauges;
      req, reqErr := reqCounter, reqErrCounter;
      for i := 0 to |jobs|
        invariant req == reqCounter + i
        invariant reqErr == reqErrCounter + ErrCount(results[..i])
        invariant after == ApplyUpTo(gauges, jobs, results, lastJobs, i)
      {
        ApplyUpToNext(gauges, jobs, results, lastJobs, i);
        ErrCountPrefix(results, i);
        req, reqErr, after := PollJob(req, reqErr, after, jobs[i], results[i], lastJobs);
      }
      ApplyUpToAll(gauges, jobs, results, lastJobs);
      assert results[..|results|] == results;
      SameShapeKeepsRegistered(after, gauges, jobs);
    }

    /** The loop body for one job: the request is counted; a failed fetch is
        counted as an error and leaves the gauges alone; a successful one sets
        the job's three gauges, looked up by the job's name (`gauges_*[&gkey]`,
        which always finds its entry), from `calc_metrics`' counts. */
    static method PollJob(req: nat, reqErr: nat, gauges: GaugeSet, job: string, response: Fetch,
                          lastJobs: nat)
      returns (req': nat, reqErr': nat, gauges': GaugeSet)
      requires HasGauges(gauges, job)
      requires response.Ok? ==> lastJobs > 0
      ensures req' == req + 1
      ensures reqErr' == reqErr + if response.Err? then 1 else 0
      ensures gauges' == Step(gauges, job, response, lastJobs)
    {
      req' := req + 1;
      reqErr', gauges' := reqErr, gauges;
      match response
      case Err(_) =>
        reqErr' := reqErr + 1;
      case Ok(r) =>
        var m := CalcMetrics(r, lastJobs);
        var gkey := job;
        gauges' := GaugeSet(
          gauges.total[gkey := gauges.total[gkey].(value := m.total)],
          gauges.success[gkey := gauges.success[gkey].(value := m.success)],
          gauges.failure[gkey := gauges.failure[gkey].(value := m.failure)]);
    }

    /** One turn of the main loop: the per-job loop, then the poll counter, and
        from now on the configured interval as the wait before the next turn. */
    method Cycle(results: seq<Fetch>)
      requires Valid()
      requires |results| == |jobs|
      requires Fetchable(results, lastJobs)
      modifies this
      ensures Valid()
      ensures reqCounter == old(reqCounter) + |jobs|
      ensures reqErrCounter == old(reqErrCounter) + ErrCount(results)
      ensures pollCounter == old(pollCounter) + 1
      ensures waitSec == pollIntervalSec
      ensures Gauges() == Apply(old(Gauges()), jobs, results, lastJobs)
    {
      var req, reqErr, after := PollJobs(jobs, lastJobs, results, reqCounter, reqErrCounter, Gauges());
      Commit(req, reqErr, after);
    }

    /** The end of a turn: the request counters and the three gauge maps take
        the values the per-job loop left them with, `poll_counter.inc()`, and
        `wait_sec = opts.poll_interval_sec`. Nothing else changes. */
    method Commit(req: nat, reqErr: nat, after: GaugeSet)
      modifies this
      ensures reqCounter == req && reqErrCounter == reqErr
      ensures Gauges() == after
      ensures pollCounter == old(pollCounter) + 1
      ensures waitSec == pollIntervalSec
    {
      reqCounter, reqErrCounter := req, reqErr;
      gaugesTotal, gaugesSuccess, gaugesFailure := after.total, after.success, after.failure;
      pollCounter := pollCounter + 1;
      waitSec := pollIntervalSec;
    }

    /** A bounded prefix of the endless main loop: the given cycles in turn. */
    method Run(rounds: seq<seq<Fetch>>)
      requires Valid()
      requires forall c :: 0 <= c < |rounds| ==> |rounds[c]| == |jobs| && Fetchable(rounds[c], lastJobs)
      modifies this
      ensures Valid()
      ensures pollCounter == old(pollCounter) + |rounds|
      ensures reqCounter == old(reqCounter) + |rounds| * |jobs|
      ensures reqErrCounter == old(reqErrCounter) + ErrCountAll(rounds)
      ensures waitSec == if |rounds| == 0 then old(waitSec) else pollIntervalSec
      ensures Gauges() == ApplyCycles(old(Gauges()), jobs, rounds, lastJobs)
    {
      ghost var before := Gauges();
      assert forall j :: j in jobs ==> HasGauges(before, j);
      for c := 0 to |rounds|
        invariant Valid()
        invariant pollCounter == old(pollCounter) + c
        invariant reqCounter == old(reqCounter) + c * |jobs|
        invariant reqErrCounter == old(reqErrCounter) + ErrCountAll(rounds[..c])
        invariant waitSec == if c == 0 then old(waitSec) else pollIntervalSec
        invariant Gauges() == ApplyCycles(before, jobs, rounds[..c], lastJobs)
      {
        assert rounds[..c + 1][..c] == rounds[..c] && rounds[..c + 1][c] == rounds[c];
        Cycle(rounds[c]);
      }
      assert rounds[..|rounds|] == rounds;
    }
  }
}
