/**
 How each configured job's three gauges are named: the job name with every
 `-` turned into `_`, followed by `_total`, `_success` or `_failure`.
 */
module MetricNames {

  /** The three gauges kept per job. */
  datatype Kind = Total | Success | Failure

  /** The suffix of each kind: an `_` and a lower-case word, never a `-`. */
  function Suffix(kind: Kind): (r: string)
    ensures |r| > 1 && r[0] == '_' && '-' !in r
    ensures forall i :: 1 <= i < |r| ==> 'a' <= r[i] <= 'z'
  {
    match kind
    case Total => "_total"
    case Success => "_success"
    case Failure => "_failure"
  }

  /** `job.replace("-", "_")`: same length, no `-` left, every `-` turned
      into `_` and every other character kept in place. */
  function Sanitize(job: string): (r: string)
    ensures |r| == |job|
    ensures '-' !in r
    ensures forall i :: 0 <= i < |job| ==> r[i] == if job[i] == '-' then '_' else job[i]
  {
    if |job| == 0 then ""
    else [if job[0] == '-' then '_' else job[0]] + Sanitize(job[1..])
  }

  /** The name a gauge of the given kind is registered under for `job`: the
      job's characters with `-` turned into `_`, then the kind's suffix. */
  function GaugeName(job: string, kind: Kind): (r: string)
    ensures |r| == |job| + |Suffix(kind)|
    ensures r[..|job|] == Sanitize(job)
    ensures r[|job|..] == Suffix(kind)
    ensures '-' !in r
  {
    Sanitize(job) + Suffix(kind)
  }

  /** A name without `-` is left as it is; in particular sanitising twice is
      the same as sanitising once. */
  lemma SanitizeKeepsClean(job: string)
    requires '-' !in job
    ensures Sanitize(job) == job
  {
    var r := Sanitize(job);
    forall i | 0 <= i < |job| ensures r[i] == job[i] {
      assert job[i] != '-';
    }
  }

  lemma SanitizeIdempotent(job: string)
    ensures Sanitize(Sanitize(job)) == Sanitize(job)
  {
    SanitizeKeepsClean(Sanitize(job));
  }

  /** Two gauge names coincide exactly when they are of the same kind and the
      two job names agree once sanitised. So the three gauges of one job always
      have different names, while jobs such as `a-b` and `a_b` share them. */
  lemma GaugeNameEqual(j1: string, k1: Kind, j2: string, k2: Kind)
    ensures GaugeName(j1, k1) == GaugeName(j2, k2) <==> k1 == k2 && Sanitize(j1) == Sanitize(j2)
  {
    var n1, n2 := GaugeName(j1, k1), GaugeName(j2, k2);
    if n1 == n2 {
      // The suffixes end in different letters ('l', 's', 'e'), so the kinds agree.
      assert n1[|n1| - 1] == Suffix(k1)[|Suffix(k1)| - 1];
      assert n2[|n2| - 1] == Suffix(k2)[|Suffix(k2)| - 1];
      assert k1 == k2;
      assert Sanitize(j1) == n1[..|n1| - |Suffix(k1)|];
      assert Sanitize(j2) == n2[..|n2| - |Suffix(k2)|];
    }
  }

  /** The collision the naming scheme allows. */
  lemma HyphenAndUnderscoreCollide(kind: Kind)
    ensures GaugeName("a-b", kind) == GaugeName("a_b", kind)
  {
    assert Sanitize("a-b") == "a_b" by {
      assert Sanitize("a-b")[1] == '_';
    }
    assert Sanitize("a_b") == "a_b" by {
      SanitizeKeepsClean("a_b");
    }
  }
}
