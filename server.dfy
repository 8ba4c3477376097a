/** `HTCondorStatusApp` of htcondor_status/server.py: the one mutable job
    snapshot that the handlers read and the refresh replaces wholesale. The
    refresh's inputs that come from I/O (the bundled sample for a simulated
    refresh, the decoded `condor_q` output for a real one) are parameters. */
module Server {
  import opened Wrappers
  import opened Json
  import Jobs
  import Handlers

  class HTCondorStatusApp {
    var simulate: bool
    var jobs: Snapshot

    /** A new app serves the empty snapshot until its first refresh. */
    constructor (simulate: bool)
      ensures this.simulate == simulate
      ensures jobs == []
    {
      this.simulate := simulate;
      jobs := [];
    }

    /** `refresh_jobs_list`: replaces the snapshot with a simulated draw from
        `sample` or with what `get_jobs()` (default flags) returns. When the
        simulation raises, the exception escapes and the snapshot stays. */
    method RefreshJobsList(sample: Snapshot, parsed: Option<Snapshot>) returns (outcome: Result<(), Jobs.JobsError>)
      modifies this`jobs
      ensures !simulate ==> outcome.Ok? && jobs == Jobs.ParsedOrEmpty(parsed)
      ensures simulate && |sample| < 2 ==> outcome == Err(Jobs.SampleTooSmall(|sample|)) && jobs == old(jobs)
      ensures simulate && |sample| >= 2 ==>
                outcome.Ok? && 1 <= |jobs| <= |sample| - 1 && Jobs.IsSampleOf(jobs, sample)
    {
      if simulate {
        var r := Jobs.SimulateJobs(sample);
        match r
        case Ok(drawn) =>
          jobs := drawn;
          outcome := Ok(());
        case Err(e) =>
          outcome := Err(e);
      } else {
        var args, fetched := Jobs.GetJobs(true, true, parsed);
        jobs := fetched;
        outcome := Ok(());
      }
    }
  }

  /** The handler test: an app that has not refreshed yet answers
      `/jobs.json` with `{"jobs": []}`. */
  method FreshAppServesNoJobs(simulate: bool) returns (body: Handlers.JobsBody)
    ensures body == Handlers.JobsBody([])
  {
    var app := new HTCondorStatusApp(simulate);
    body := Handlers.JobsGet(app.jobs);
  }

  /** `condor_q` printed nothing JSON can decode, and
      `/jobs.json` then answers `{"jobs": []}` instead of failing. */
  method UnparsableOutputServesNoJobs() returns (body: Handlers.JobsBody)
    ensures body == Handlers.JobsBody([])
  {
    var app := new HTCondorStatusApp(false);
    var _ := app.RefreshJobsList([], None);
    body := Handlers.JobsGet(app.jobs);
  }

  /** Startup in simulation mode with a five-record sample: the first
      `/jobs.json` holds between one and four records, all from the sample. */
  method SimulatedStartup(sample: Snapshot) returns (body: Handlers.JobsBody)
    requires |sample| == 5
    ensures 1 <= |body.jobs| <= 4
    ensures forall r :: r in body.jobs ==> r in sample
  {
    var app := new HTCondorStatusApp(true);
    var _ := app.RefreshJobsList(sample, None);
    body := Handlers.JobsGet(app.jobs);
    forall r | r in body.jobs ensures r in sample {
      var draw :| Jobs.IsDrawFor(draw, app.jobs, sample);
      var i :| 0 <= i < |app.jobs| && app.jobs[i] == r;
      assert sample[draw[i]] == r;
    }
  }

  /** Two real refreshes against a source that prints the same output
      leave equal snapshots. */
  method RefreshTwiceSameSource(parsed: Option<Snapshot>) returns (first: Snapshot, second: Snapshot)
    ensures first == second
    ensures first == Jobs.ParsedOrEmpty(parsed)
  {
    var app := new HTCondorStatusApp(false);
    var _ := app.RefreshJobsList([], parsed);
    first := app.jobs;
    var _ := app.RefreshJobsList([], parsed);
    second := app.jobs;
  }
}
