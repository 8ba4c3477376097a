/** The dashboard counts its jobs by status name from `/summary.json`; the
    server counts by status code in `/counts.json`. Because the status table
    gives distinct codes distinct names, the two agree whenever every status
    in the snapshot is an integer (pandas and JavaScript treat a string "1"
    or a boolean status differently). */
module Agreement {
  import opened Wrappers
  import opened Json
  import H = Handlers
  import C = Client

  /** Every JobStatus present in the snapshot is an integer. */
  predicate IntegerStatuses(s: Snapshot)
  {
    forall i :: 0 <= i < |s| && "JobStatus" in s[i] ==> s[i]["JobStatus"].Int?
  }

  /** For an integer status, the client's name matches exactly when the
      server's code does. */
  lemma RowNameMatchesCode(r: Record, code: int, name: string)
    requires C.FormatJobStatusString(code) == Some(name)
    requires "JobStatus" in r ==> r["JobStatus"].Int?
    ensures C.RowStatus(r) == Some(name) <==> H.HasStatus(r, code)
  {
  }

  /** Counting rows by name on the client gives the server's count by code. */
  lemma {:induction false} NameCountIsCodeCount(s: Snapshot, statuses: seq<Option<string>>, code: int, name: string)
    requires C.FormatJobStatusString(code) == Some(name)
    requires IntegerStatuses(s)
    requires |statuses| == |s|
    requires forall i :: 0 <= i < |s| ==> statuses[i] == C.RowStatus(s[i])
    ensures multiset(statuses)[Some(name)] == |H.Select(s, code)|
  {
    if s != [] {
      assert statuses == [statuses[0]] + statuses[1..];
      assert forall i :: 0 <= i < |s| - 1 ==> s[1..][i] == s[i + 1];
      NameCountIsCodeCount(s[1..], statuses[1..], code, name);
      RowNameMatchesCode(s[0], code, name);
    }
  }

  /** A summary row has the status of its record, NaN looking up nothing
      just as a missing field does. */
  lemma SummaryKeepsStatus(s: Snapshot)
    ensures forall i :: 0 <= i < |s| ==> C.RowStatus(H.SummaryRow(s[i])) == C.RowStatus(s[i])
  {
  }

  /** Every record has every summary field, none of them null, so the
      summary holds no NaN cell (which the browser's JSON parser rejects),
      and every QDate is a number of seconds that `formatQDate` accepts. */
  predicate DashboardReadable(s: Snapshot)
  {
    && (forall i, f :: 0 <= i < |s| && f in H.SummaryFields ==> f in s[i] && !s[i][f].Null?)
    && (forall i :: 0 <= i < |s| ==> "QDate" in s[i] && s[i]["QDate"].Int?)
  }

  /** The dashboard's pipeline (summary, then `ajaxResponse`) over a
      snapshot it can read shows the counts that `/counts.json` serves for it. */
  method DashboardCounts(s: Snapshot) returns (counts: C.JobCounts)
    requires IntegerStatuses(s)
    requires DashboardReadable(s)
    requires s != []
    ensures H.JobCountGet(s) == Ok(H.Counts(counts.total, counts.idle, counts.running, counts.held))
  {
    forall f | f in H.SummaryFields ensures H.HasColumn(s, f) {
      assert f in s[0];
    }
    var rows := H.JobSummaryGet(s).value;
    var statuses;
    statuses, counts := C.AjaxResponse(rows);
    SummaryKeepsStatus(s);
    assert "JobStatus" in H.SummaryFields;
    C.StatusNames();
    NameCountIsCodeCount(s, statuses, H.Idle, "Idle");
    NameCountIsCodeCount(s, statuses, H.Running, "Running");
    NameCountIsCodeCount(s, statuses, H.Held, "Held");
  }
}
