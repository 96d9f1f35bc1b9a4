# Jenkins job health exporter — a Dafny model

The exporter polls a Jenkins server at a fixed interval. For every configured
job it fetches the job's build list and reduces the most recent `last_jobs`
builds to three numbers: how many succeeded, how many failed, and how many were
looked at. It publishes these numbers as three Prometheus integer gauges per
job, next to three process-wide counters:

- `poll_cycle_counter`, the cycles done;
- `req_counter`, the requests made;
- `req_err_counter`, the requests that failed.

The model has three modules, one per part of `src/main.rs`.

- `Builds` (`builds.dfy`) models the build records `OneBuild` and `AllBuilds`
  and the window reducer `calc_metrics`. These are pure functions over
  sequences: `slice::windows(n).last()` is `Last(Windows(s, n))`, and each
  `iter().filter(..).count()` is `CountOutcome`.
- `MetricNames` (`metric_names.dfy`) models the gauge names: the job name with
  every `-` replaced by `_`, followed by `_total`, `_success` or `_failure`.
- `Exporter` (`exporter.dfy`) models the bookkeeping of `main` as a class.
  - Fields: the configuration, the three counters, the three gauge maps (job
    name to `Gauge(name, value)`), and `wait_sec`.
  - The constructor runs the start-up loop that registers the gauges.
  - The per-job `for` loop is the static method `PollJobs`. Its per-job body
    is `PollJob`.
  - `Cycle` is one turn of the endless main loop. `Run` is a bounded number of
    turns.
  - Fetching a job's builds is an input of the cycle: one `Fetch` per
    configured job, either `Ok(builds)` or `Err(error)`.
  - Each method is proved against specification functions:
    - `Initial`, the gauges after start-up;
    - `Step`, the loop body on the gauges;
    - `Apply`, the fold of `Step` over the jobs;
    - `ApplyCycles`, several cycles in a row;
    - `ErrCount`, the number of errors.
  - The lemmas state the cycle's properties against `LatestReading`, an
    independent per-gauge reference.

Three behaviours of `src/main.rs` shape the model:

- A failed fetch only increments `req_err_counter` (src/main.rs:149). The
  job's gauges keep their previous values; nothing is zeroed.
- Only the `_total`, `_success` and `_failure` gauges exist per job
  (src/main.rs:133-135).
- The per-job loop (src/main.rs:145-163) sets each job's gauges in turn. In
  the model `PollJobs` does this on copies of the counters and gauges, and
  `Commit` stores them in the object at the end of the turn.

`calc_metrics` panics when the window size is 0, because `slice::windows(0)`
panics. So `CalcMetrics` requires `tryTotal > 0`. A cycle admits
`lastJobs == 0` only when no fetch succeeds (`Fetchable`), because the
reducer only runs on a successful fetch.

## Model

| member | source | states |
|---|---|---|
| Builds.Windows | src/main.rs:74 | `slice::windows(n)`: there are `len-n+1` windows when `len >= n` and none otherwise; window `i` is exactly `s[i..i+n]`. |
| Builds.LastWindowIsTrailing | src/main.rs:74-78 | `windows(n).last()` is `None` exactly when there are fewer than `n` builds; otherwise it is the trailing slice `builds[len-n..]`. |
| Builds.Last | src/main.rs:74 | `.last()`: `None` exactly on an empty sequence, otherwise its final element. |
| Builds.HasOutcome | src/main.rs:83-89 | The filter closure: true exactly when the build's result is present and equal to the label; an absent result is false. |
| Builds.CountOutcome | src/main.rs:81-100 | A filter-count never exceeds the window's length. |
| Builds.CalcMetrics | src/main.rs:73-102 | Needs a window size above 0. With fewer builds than the window, the result is `(0,0,0)`. Otherwise `total` is the window size, and `success`/`failure` count the exact labels `SUCCESS`/`FAILURE` in the trailing window `builds[len-N..]`. |
| Builds.CountOutcomeIsMultiplicity | src/main.rs:81-100 | The count equals the number of times `Some(label)` occurs among the window's results. An absent result or any other string, including another case of the same letters, is never counted. |
| Builds.DistinctOutcomesBound | src/main.rs:81-101 | For two different labels, the two counts add up to at most the window's length. |
| Builds.CalcMetricsBounds | src/main.rs:73-102 | `total` is 0 or the window size, and it is the window size exactly when there are enough builds; `success + failure <= total`; an empty result has zero counts. |
| Builds.CalcMetricsIgnoresOlder | src/main.rs:74-80 | Builds older than the last `N` never change the result. |
| Builds.CalcMetricsCountsLabels | src/main.rs:81-100 | `success` and `failure` are the multiplicities of `Some("SUCCESS")` and `Some("FAILURE")` among the trailing window's results. |
| MetricNames.Sanitize | src/main.rs:132 | `replace("-", "_")`: same length, no `-` left, each `-` becomes `_`, and every other character stays in place. |
| MetricNames.Suffix | src/main.rs:133-135 | Each kind's suffix is `_` followed by a lower-case word, with no `-`. |
| MetricNames.GaugeName | src/main.rs:132-135 | The name passed to `register_int_gauge!`: the sanitised job name, then the kind's suffix; its length is the two lengths added; no `-` occurs anywhere in it. |
| MetricNames.SanitizeKeepsClean | src/main.rs:132 | A job name without `-` is its own metric name. |
| MetricNames.SanitizeIdempotent | src/main.rs:132 | Sanitising twice is the same as sanitising once. |
| MetricNames.GaugeNameEqual | src/main.rs:132-135 | Two gauge names coincide exactly when their kinds agree and their sanitised job names agree. |
| MetricNames.HyphenAndUnderscoreCollide | src/main.rs:132-135 | Jobs `a-b` and `a_b` get the same gauge names. |
| Exporter.Initial | src/main.rs:128-139 | After start-up, each of the three maps has exactly the configured jobs as keys; each gauge carries the name built for its job and kind, and its value is 0. |
| Exporter.Publish | src/main.rs:158-160 | The three `set` calls give the job's gauges the window's counts and keep their names; every other gauge is unchanged. |
| Exporter.Step | src/main.rs:148-161 | The loop body keeps every map's keys and gauge names. |
| Exporter.Apply | src/main.rs:145-163 | The per-job loop keeps every map's keys and gauge names. |
| Exporter.ApplyUpTo | src/main.rs:145-163 | The loop over the first `i` jobs keeps keys and names. |
| Exporter.ApplyUpToNext | src/main.rs:145-163 | One more turn of the loop is one more `Step`; the job's gauges are present when its turn comes (the `gauges_*[&gkey]` lookups never fail). |
| Exporter.ErrCount | src/main.rs:147-149 | The errors counted in a cycle never exceed the requests made in it. |
| Exporter.ErrCountExtremes | src/main.rs:147-149 | The error count is 0 exactly when every fetch succeeded. It equals the number of jobs exactly when every fetch failed. |
| Exporter.ApplyAt | src/main.rs:145-163 | The loop's effect on any one gauge is that of the per-gauge reference: the reading of the last successful fetch for that job, or the old value if there was none. The name is kept. |
| Exporter.StepAt | src/main.rs:148-161 | The loop body read at one gauge: it changes only the fetched job's gauge, and only on `Ok`. |
| Exporter.LatestReadingUntouched | src/main.rs:145-163 | A gauge whose job is not polled keeps its value. |
| Exporter.LatestReadingSingle | src/main.rs:148-161 | A job polled once ends with its fetch's reading on `Ok` and with its old value on `Err`. |
| Exporter.LatestReadingIsolated | src/main.rs:148-161 | Replacing one job's fetch result changes no other job's gauges. |
| Exporter.LatestReadingIdempotent | src/main.rs:145-163 | Repeating the same fetch results leaves every reading as it was. |
| Exporter.CycleLeavesOthers | src/main.rs:145-163 | Gauges of jobs not in the cycle keep name and value. |
| Exporter.CycleIsolated | src/main.rs:148-161 | One job's fetch result never reaches another job's gauges. |
| Exporter.CycleOutcome | src/main.rs:148-161 | With distinct job names, after the loop each job's gauge has the kept name. Its value is the window's count on `Ok` and the stale value on `Err`; there is no zeroing. |
| Exporter.CycleIdempotent | src/main.rs:145-163 | Running the loop twice on the same fetch results gives the same gauges as running it once. |
| Exporter.LaterCycleWins | src/main.rs:142-166 | Over two cycles, a job whose second fetch succeeds shows that fetch's counts, whatever the first cycle wrote. |
| Exporter.ApplyCycles | src/main.rs:142-167 | Consecutive cycles keep every map's keys and gauge names. |
| Exporter.ErrCountAll | src/main.rs:142-167 | Over several cycles, the errors never exceed the requests. |
| Exporter.Exporter.constructor | src/main.rs:128-141 | Start-up: all counters 0, `wait_sec` 0, and the gauges are `Initial(jobs)`. |
| Exporter.Exporter.RegisterGauges | src/main.rs:128-139 | The start-up loop builds exactly `Initial(jobs)`: three zero gauges per job under its sanitised name plus suffix, keyed by the job name. |
| Exporter.Exporter.PollJobs | src/main.rs:145-163 | The per-job loop: `req` grows by the number of jobs; `req_err` grows by the number of failed fetches; the gauges become `Apply` of the old gauges; every job still has its three gauges with their names. |
| Exporter.Exporter.PollJob | src/main.rs:146-161 | One job: `req` grows by 1; `req_err` grows by 1 exactly on `Err`; the gauges become `Step`, which means unchanged on `Err` and the `calc_metrics` counts on `Ok`. |
| Exporter.Exporter.Commit | src/main.rs:164-166 | The end of a turn: the loop's counters and gauges are stored, `poll` grows by 1, and `wait_sec` becomes the poll interval. |
| Exporter.Exporter.Cycle | src/main.rs:142-166 | One turn. `req` grows by the number of jobs and `req_err` by the number of errors, so `req_err <= req` is kept. `poll` grows by 1. `wait_sec` becomes the poll interval. The gauges are `Apply` of the old gauges, with keys and names kept. |
| Exporter.Exporter.Run | src/main.rs:142-167 | `k` turns in a row: `poll` grows by `k`, `req` by `k` times the number of jobs, `req_err` by all errors, and the gauges are `ApplyCycles` of the old gauges. |

## Left out

- `get_job_builds` (src/main.rs:33-42) issues an HTTP request with `minreq` and formats its URL. This is network I/O, so the model takes its result as an input `Fetch` per job.
- The JSON decoding of `AllBuilds` with `serde` (src/main.rs:40) is a foreign library. The model starts from decoded builds. Decoding failures are one kind of `Err`, and the error text is carried without interpretation.
- Command-line parsing with `clap` and its defaults (src/main.rs:46-71, 105) is plumbing. The jobs, `last_jobs` and `poll_interval_sec` are constructor parameters. The Jenkins host, bind address and verbosity take no part in the modelled logic. `clap`'s requirement of at least one job is not imposed.
- Starting the exporter and registering counters and gauges with the Prometheus registry (src/main.rs:106, 115-126, 133-135) is left out. The registry is a foreign library. Registering a name twice makes `unwrap` panic; jobs `a-b` and `a_b` would do this. The model does not stop at that point: `HyphenAndUnderscoreCollide` and `GaugeNameEqual` state when start-up would fail this way. Names the registry rejects as invalid, such as a job name containing `.` or `/` or starting with a digit, also make `unwrap` panic at start-up; the model accepts every job name.
- Exporter.Exporter.constructor: registering the same job twice panics in the source. The model overwrites the entry instead.
- Timing and concurrency are left out:
  - `exporter.wait_duration` and its guard (src/main.rs:143, 165);
  - the endless `loop` (src/main.rs:142), which becomes `Run` over a finite number of cycles;
  - the scrape server that reads the metrics concurrently.
- Exporter.Exporter.Cycle: the source updates the counters and gauges in place, one job at a time. The model computes them in `PollJobs` and stores them together in `Commit` at the end of the turn. States a concurrent scrape could see in the middle of a turn are not modelled.
- `println!` logging (src/main.rs:107-113, 154-157) is output only.
- Prometheus counters hold `f64` and gauges hold `i64`. The model uses unbounded `nat` and `int`. The `usize as i64` casts (src/main.rs:158-160) never truncate here, because every count is at most the length of a build list held in memory.
- Exporter.Publish and Exporter.Exporter.PollJob: `gauges_*[&gkey]` panics on a missing key. The model requires the key to be present, and `Initial`, `Valid` and `ApplyUpToNext` prove that it always is.
- `String::replace` is modelled character by character. Characters are Dafny `char`, with no byte or UTF-8 encoding.
