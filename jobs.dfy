/** The job source adapter of htcondor_status/jobs.py: the `condor_q`
    argument vector, the parse-or-empty fallback of `get_jobs`, and the
    random draw of `simulate_jobs`. Spawning the process, reading its
    output and reading the bundled sample file are I/O and arrive here as
    parameters. */
module Jobs {
  import opened Wrappers
  import opened Json

  /** `random.randint(1, total - 1)` raises when the sample has fewer than two records. */
  datatype JobsError = SampleTooSmall(size: nat)

  /** Builds the `condor_q` argument vector from the two flags, appending
      `-global` and then `-all` as each flag asks. */
  method CondorQArgs(all: bool, global: bool) returns (args: seq<string>)
    ensures |args| == 2 + (if global then 1 else 0) + (if all then 1 else 0)
    ensures args[..2] == ["condor_q", "-json"]
    ensures "-global" in args <==> global
    ensures "-all" in args <==> all
    ensures global && all ==> args[2] == "-global" && args[3] == "-all"
    ensures forall a :: a in args[2..] ==> a == "-global" || a == "-all"
  {
    args := ["condor_q", "-json"];
    if global {
      args := args + ["-global"];
    }
    if all {
      args := args + ["-all"];
    }
  }

  /** `json.loads(out)`, or `[]` when it raises `JSONDecodeError`; `parsed`
      is the decoder's verdict on the captured standard output (`None` for
      output that is not JSON, the empty output included). */
  function ParsedOrEmpty(parsed: Option<Snapshot>): Snapshot
  {
    match parsed
    case Some(jobs) => jobs
    case None => []
  }

  /** `get_jobs(all, global_)`: the command line it runs and the job list it
      returns, given what the command printed. */
  method GetJobs(all: bool, global: bool, parsed: Option<Snapshot>) returns (args: seq<string>, jobs: Snapshot)
    ensures |args| == 2 + (if global then 1 else 0) + (if all then 1 else 0)
    ensures args[..2] == ["condor_q", "-json"]
    ensures "-global" in args <==> global
    ensures "-all" in args <==> all
    ensures global && all ==> args[2] == "-global" && args[3] == "-all"
    ensures forall a :: a in args[2..] ==> a == "-global" || a == "-all"
    ensures parsed.None? ==> jobs == []
    ensures parsed.Some? ==> jobs == parsed.value
  {
    args := CondorQArgs(all, global);
    jobs := ParsedOrEmpty(parsed);
  }

  /** `draw` lists the sample positions that `out` was taken from, in the
      order they were drawn, each position at most once. */
  ghost predicate IsDrawFor(draw: seq<nat>, out: Snapshot, sample: Snapshot)
  {
    && |draw| == |out|
    && (forall i :: 0 <= i < |draw| ==> draw[i] < |sample| && out[i] == sample[draw[i]])
    && (forall i, j :: 0 <= i < j < |draw| ==> draw[i] != draw[j])
  }

  /** `out` is a draw without replacement from `sample`. */
  ghost predicate IsSampleOf(out: Snapshot, sample: Snapshot)
  {
    exists draw :: IsDrawFor(draw, out, sample)
  }

  /** `simulate_jobs()`: `random.sample(data, k=random.randint(1, N - 1))`.
      The random choices are nondeterministic: the size k, then one position
      at a time from the pool of positions not yet drawn. */
  method SimulateJobs(sample: Snapshot) returns (r: Result<Snapshot, JobsError>)
    ensures r.Err? <==> |sample| < 2
    ensures r.Err? ==> r.error == SampleTooSmall(|sample|)
    ensures r.Ok? ==> 1 <= |r.value| <= |sample| - 1
    ensures r.Ok? ==> IsSampleOf(r.value, sample)
  {
    var n := |sample|;
    if n < 2 {
      return Err(SampleTooSmall(n));
    }
    var k :| 1 <= k <= n - 1;
    var pool: seq<nat> := seq(n, (i: nat) => i);
    var draw: seq<nat> := [];
    var out: Snapshot := [];
    while |draw| < k
      invariant |draw| <= k
      invariant |pool| == n - |draw|
      invariant IsDrawFor(draw, out, sample)
      invariant forall x :: x in pool ==> x < n && x !in draw
      invariant forall i, j :: 0 <= i < j < |pool| ==> pool[i] != pool[j]
    {
      var j :| 0 <= j < |pool|;
      var d := pool[j];
      assert d in pool;
      var rest := pool[..j] + pool[j + 1..];
      assert forall x :: x in rest ==> x in pool && x != d by {
        forall x | x in rest ensures x in pool && x != d {
          var m :| 0 <= m < |rest| && rest[m] == x;
          if m < j { assert x == pool[m]; } else { assert x == pool[m + 1]; }
        }
      }
      draw := draw + [d];
      out := out + [sample[d]];
      pool := rest;
    }
    assert IsDrawFor(draw, out, sample);
    r := Ok(out);
  }

  /** A draw of fewer positions than the sample has leaves some position
      undrawn: the simulated list is a strict subset of the sample. */
  lemma {:induction false} DrawLeavesOneOut(draw: seq<nat>, out: Snapshot, sample: Snapshot)
    requires IsDrawFor(draw, out, sample)
    requires |out| < |sample|
    ensures exists p :: 0 <= p < |sample| && p !in draw
  {
    Pigeonhole(draw, |sample|);
  }

  /** Distinct positions below n, fewer than n of them, miss one position. */
  lemma {:induction false} Pigeonhole(draw: seq<nat>, n: nat)
    requires forall i :: 0 <= i < |draw| ==> draw[i] < n
    requires forall i, j :: 0 <= i < j < |draw| ==> draw[i] != draw[j]
    requires |draw| < n
    ensures exists p :: 0 <= p < n && p !in draw
    decreases n
  {
    if n - 1 !in draw {
      assert 0 <= n - 1 < n && n - 1 !in draw;
    } else {
      var k :| 0 <= k < |draw| && draw[k] == n - 1;
      var rest := draw[..k] + draw[k + 1..];
      assert forall i :: 0 <= i < |rest| ==> rest[i] == if i < k then draw[i] else draw[i + 1];
      Pigeonhole(rest, n - 1);
      var p :| 0 <= p < n - 1 && p !in rest;
      forall m | 0 <= m < |draw| ensures draw[m] != p {
        if m < k {
          assert draw[m] == rest[m];
        } else if m > k {
          assert draw[m] == rest[m - 1];
        }
      }
      assert 0 <= p < n && p !in draw;
    }
  }
}
