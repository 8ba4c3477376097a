/** The dashboard logic of src/htcondor.ts: the status-name table, the
    per-status counts shown above the table, the search for a clicked job
    and the text of its details dialog. Fetching, timers and DOM updates are
    outside the model; what they deliver arrives as parameters. */
module Client {
  import opened Wrappers
  import opened Json

  /** `statusMap`: HTCondor's job status codes and their display names. */
  const StatusMap: map<int, string> := map[
    1 := "Idle",
    2 := "Running",
    3 := "Removed",
    4 := "Completed",
    5 := "Held",
    6 := "Transferring Output",
    7 := "Suspended"
  ]

  /** `formatJobStatusString(status)`; `None` is the `undefined` that a code
      without an entry looks up. */
  function FormatJobStatusString(status: int): (name: Option<string>)
    ensures name.Some? <==> 1 <= status <= 7
  {
    if status in StatusMap then Some(StatusMap[status]) else None
  }

  /** The table entries, as the unit tests list them. */
  lemma StatusNames()
    ensures FormatJobStatusString(1) == Some("Idle")
    ensures FormatJobStatusString(2) == Some("Running")
    ensures FormatJobStatusString(3) == Some("Removed")
    ensures FormatJobStatusString(4) == Some("Completed")
    ensures FormatJobStatusString(5) == Some("Held")
    ensures FormatJobStatusString(6) == Some("Transferring Output")
    ensures FormatJobStatusString(7) == Some("Suspended")
    ensures FormatJobStatusString(0) == None && FormatJobStatusString(8) == None
  {
  }

  /** Distinct codes have distinct names, so a name identifies its code. */
  lemma StatusNamesInjective(a: int, b: int)
    requires FormatJobStatusString(a).Some?
    requires FormatJobStatusString(a) == FormatJobStatusString(b)
    ensures a == b
  {
  }

  /** `statusMap[v]` for a decoded JSON value: JavaScript turns the value
      into a property key, so the string "1" finds "Idle" as the number 1
      does, while `true`, `null` and other strings find nothing. */
  function StatusOfValue(v: Value): (name: Option<string>)
    ensures v.Int? ==> name == FormatJobStatusString(v.n)
    ensures v.Null? || v.Bool? ==> name.None?
    ensures v.Str? ==> (name.Some? <==> v.s in ["1", "2", "3", "4", "5", "6", "7"])
  {
    match v
    case Int(n) => FormatJobStatusString(n)
    case Str(s) =>
      if s in ["1", "2", "3", "4", "5", "6", "7"] then FormatJobStatusString(s[0] as int - '0' as int) else None
    case _ => None
  }

  /** The formatted status of one summary row; a row without the field
      looks up `undefined` and gets `undefined`. */
  function RowStatus(row: Record): Option<string>
  {
    if "JobStatus" in row then StatusOfValue(row["JobStatus"]) else None
  }

  /** The status list that the `ajaxResponse` callback collects, one per
      row and in row order. */
  method CollectStatuses(data: seq<Record>) returns (jobStatuses: seq<Option<string>>)
    ensures |jobStatuses| == |data|
    ensures forall i :: 0 <= i < |data| ==> jobStatuses[i] == RowStatus(data[i])
  {
    jobStatuses := [];
    for i := 0 to |data|
      invariant |jobStatuses| == i
      invariant forall j :: 0 <= j < i ==> jobStatuses[j] == RowStatus(data[j])
    {
      jobStatuses := jobStatuses + [RowStatus(data[i])];
    }
  }

  /** `getJobCount`: how many entries equal `status`. */
  method GetJobCount(jobStatuses: seq<Option<string>>, status: string) returns (count: nat)
    ensures count == multiset(jobStatuses)[Some(status)]
    ensures count <= |jobStatuses|
  {
    count := 0;
    for i := 0 to |jobStatuses|
      invariant count == multiset(jobStatuses[..i])[Some(status)]
      invariant count <= i
    {
      assert jobStatuses[..i + 1] == jobStatuses[..i] + [jobStatuses[i]];
      if jobStatuses[i] == Some(status) {
        count := count + 1;
      }
    }
    assert jobStatuses[..|jobStatuses|] == jobStatuses;
  }

  /** The record of counts that `updateJobCounts` writes to the page. */
  datatype JobCounts = JobCounts(total: nat, running: nat, idle: nat, held: nat)

  /** Occurrences of three different values together never exceed the length. */
  lemma {:induction false} ThreeCountsBound<T>(s: seq<T>, x: T, y: T, z: T)
    requires x != y && y != z && x != z
    ensures multiset(s)[x] + multiset(s)[y] + multiset(s)[z] <= |s|
  {
    if s != [] {
      var init := s[..|s| - 1];
      assert s == init + [s[|s| - 1]];
      ThreeCountsBound(init, x, y, z);
    }
  }

  /** `updateJobCounts`, without the page updates. */
  method UpdateJobCounts(jobStatuses: seq<Option<string>>) returns (counts: JobCounts)
    ensures counts.total == |jobStatuses|
    ensures counts.running == multiset(jobStatuses)[Some("Running")]
    ensures counts.idle == multiset(jobStatuses)[Some("Idle")]
    ensures counts.held == multiset(jobStatuses)[Some("Held")]
    ensures counts.running + counts.idle + counts.held <= counts.total
  {
    var running := GetJobCount(jobStatuses, "Running");
    var idle := GetJobCount(jobStatuses, "Idle");
    var held := GetJobCount(jobStatuses, "Held");
    ThreeCountsBound(jobStatuses, Some("Running"), Some("Idle"), Some("Held"));
    counts := JobCounts(|jobStatuses|, running, idle, held);
  }

  /** The `ajaxResponse` callback: collect the formatted statuses of the
      summary rows and count them. */
  method AjaxResponse(data: seq<Record>) returns (jobStatuses: seq<Option<string>>, counts: JobCounts)
    ensures |jobStatuses| == |data|
    ensures forall i :: 0 <= i < |data| ==> jobStatuses[i] == RowStatus(data[i])
    ensures counts.total == |data|
    ensures counts.running == multiset(jobStatuses)[Some("Running")]
    ensures counts.idle == multiset(jobStatuses)[Some("Idle")]
    ensures counts.held == multiset(jobStatuses)[Some("Held")]
  {
    jobStatuses := CollectStatuses(data);
    counts := UpdateJobCounts(jobStatuses);
  }

  /** A decoded JavaScript object: its own keys in enumeration order, and
      its fields. */
  datatype JsObject = JsObject(keys: seq<string>, fields: map<string, Value>)
  {
    /** Every field is enumerated exactly once. */
    ghost predicate Wf()
    {
      && (forall k :: k in keys <==> k in fields)
      && (forall i, j :: 0 <= i < j < |keys| ==> keys[i] != keys[j])
    }
  }

  /** The job's GlobalJobId is the string `id`. */
  predicate HasId(job: JsObject, id: string)
  {
    "GlobalJobId" in job.fields && job.fields["GlobalJobId"] == Str(id)
  }

  function Digit(d: nat): char
    requires d < 10
  {
    "0123456789"[d]
  }

  function NatToDecimal(n: nat): string
  {
    if n < 10 then [Digit(n)] else NatToDecimal(n / 10) + [Digit(n % 10)]
  }

  /** A value as a template literal writes it. */
  function Render(v: Value): string
  {
    match v
    case Null => "null"
    case Bool(b) => if b then "true" else "false"
    case Int(n) => if n < 0 then "-" + NatToDecimal(-n) else NatToDecimal(n)
    case Str(s) => s
  }

  /** One line of the details dialog. */
  function DetailLine(key: string, value: Value): string
  {
    "<p><strong>" + key + ":</strong> " + Render(value) + "</p>"
  }

  /** `lines.join("")`. */
  function Join(lines: seq<string>): string
  {
    if lines == [] then "" else lines[0] + Join(lines[1..])
  }

  /** Joining without a separator distributes over concatenation. */
  lemma {:induction false} JoinAppend(a: seq<string>, b: seq<string>)
    ensures Join(a + b) == Join(a) + Join(b)
  {
    if a == [] {
      assert a + b == b;
    } else {
      assert (a + b)[0] == a[0] && (a + b)[1..] == a[1..] + b;
      JoinAppend(a[1..], b);
    }
  }

  /** Line i of the joined text starts right after the lines before it:
      nothing separates or surrounds the lines. */
  lemma JoinPlacesLine(lines: seq<string>, i: nat)
    requires i < |lines|
    ensures var at := |Join(lines[..i])|;
            at + |lines[i]| <= |Join(lines)| && Join(lines)[at..at + |lines[i]|] == lines[i]
  {
    assert lines == lines[..i] + [lines[i]] + lines[i + 1..];
    JoinAppend(lines[..i] + [lines[i]], lines[i + 1..]);
    JoinAppend(lines[..i], [lines[i]]);
    assert Join([lines[i]]) == lines[i] + Join([]);
  }

  /** The dialog lines of `job`: one per key, in enumeration order. */
  ghost predicate AreDetailLines(lines: seq<string>, job: JsObject)
    requires job.Wf()
  {
    && |lines| == |job.keys|
    && forall i :: 0 <= i < |lines| ==> lines[i] == DetailLine(job.keys[i], job.fields[job.keys[i]])
  }

  /** `showModal(jobDetails)` up to the dialog: one line per key in
      enumeration order, joined with nothing in between. */
  method ShowModal(job: JsObject) returns (lines: seq<string>, body: string)
    requires job.Wf()
    ensures |lines| == |job.keys|
    ensures forall i :: 0 <= i < |lines| ==> lines[i] == DetailLine(job.keys[i], job.fields[job.keys[i]])
    ensures body == Join(lines)
  {
    lines := [];
    for i := 0 to |job.keys|
      invariant |lines| == i
      invariant forall j :: 0 <= j < i ==> lines[j] == DetailLine(job.keys[j], job.fields[job.keys[j]])
    {
      var key := job.keys[i];
      lines := lines + [DetailLine(key, job.fields[key])];
    }
    body := Join(lines);
  }

  /** What clicking a row leads to: the details dialog of the job found at
      `index`, or the console error for an unknown id. */
  datatype Details = Shown(index: nat, body: string) | NotFound(message: string)

  /** `showDetails(summary)` over the fetched `jobs`: the first job whose
      GlobalJobId equals the summary's. */
  method ShowDetails(jobs: seq<JsObject>, id: string) returns (details: Details)
    requires forall j :: j in jobs ==> j.Wf()
    ensures details.Shown? ==> details.index < |jobs| && HasId(jobs[details.index], id)
    ensures details.Shown? ==> forall j :: 0 <= j < details.index ==> !HasId(jobs[j], id)
    ensures details.Shown? ==> exists lines :: details.body == Join(lines) && AreDetailLines(lines, jobs[details.index])
    ensures details.NotFound? <==> forall j :: 0 <= j < |jobs| ==> !HasId(jobs[j], id)
    ensures details.NotFound? ==> details.message == "Couldn't find job " + id
  {
    for i := 0 to |jobs|
      invariant forall j :: 0 <= j < i ==> !HasId(jobs[j], id)
    {
      if HasId(jobs[i], id) {
        var lines, body := ShowModal(jobs[i]);
        assert AreDetailLines(lines, jobs[i]);
        return Shown(i, body);
      }
    }
    return NotFound("Couldn't find job " + id);
  }
}
