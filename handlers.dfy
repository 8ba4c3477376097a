/** The read-only JSON handlers of htcondor_status/server.py, as projections
    of the cached snapshot. The counts and summary handlers go through a
    pandas DataFrame: a column exists when at least one record has that
    field, a missing column raises, and a cell of a record that lacks a
    field present elsewhere is NaN (written `Null` here). */
module Handlers {
  import opened Wrappers
  import opened Json

  /** The body of `/jobs.json`: `{"jobs": S}`. */
  datatype JobsBody = JobsBody(jobs: Snapshot)

  /** The body of `/counts.json`. */
  datatype Counts = Counts(total: nat, idle: nat, running: nat, held: nat)

  /** Pandas raises (AttributeError for `jobs.JobStatus`, KeyError for the
      summary column list) when the DataFrame lacks the columns named. */
  datatype HandlerError = MissingColumns(names: seq<string>)

  const Idle := 1
  const Running := 2
  const Held := 5

  /** The fixed columns of `/summary.json`. */
  const SummaryFields: seq<string> := ["GlobalJobId", "ClusterId", "QDate", "Owner", "Cmd", "JobStatus"]

  /** `JobsHandler.get`: the snapshot, verbatim and in order, under "jobs". */
  function JobsGet(s: Snapshot): (body: JobsBody)
    ensures body.jobs == s
    ensures s == [] ==> body == JobsBody([])
  {
    JobsBody(s)
  }

  /** The DataFrame built from `s` has a column named `field`. */
  predicate HasColumn(s: Snapshot, field: string)
  {
    exists i :: 0 <= i < |s| && field in s[i]
  }

  /** Python's `v == n` for a JSON scalar and an int: `True == 1`,
      `False == 0`, and a string, None or NaN never equals a number. */
  predicate PyEqualsInt(v: Value, n: int)
  {
    match v
    case Int(m) => m == n
    case Bool(b) => (if b then 1 else 0) == n
    case _ => false
  }

  /** The row passes the mask `jobs.JobStatus == code`. */
  predicate HasStatus(r: Record, code: int)
  {
    "JobStatus" in r && PyEqualsInt(r["JobStatus"], code)
  }

  /** `jobs[jobs.JobStatus == code]`: the rows whose status equals `code`, in order. */
  function Select(s: Snapshot, code: int): (rows: Snapshot)
    ensures |rows| <= |s|
    ensures forall r :: r in rows ==> r in s && HasStatus(r, code)
    ensures forall i :: 0 <= i < |s| && HasStatus(s[i], code) ==> s[i] in rows
  {
    if s == [] then []
    else (if HasStatus(s[0], code) then [s[0]] else []) + Select(s[1..], code)
  }

  /** The selection keeps every record with the status as often as the
      snapshot holds it, and no other record: its length is the number of
      such records, duplicates included. */
  lemma {:induction false} SelectMultiset(s: Snapshot, code: int)
    ensures forall x :: multiset(Select(s, code))[x] == if HasStatus(x, code) then multiset(s)[x] else 0
  {
    if s != [] {
      assert s == [s[0]] + s[1..];
      SelectMultiset(s[1..], code);
    }
  }

  /** Selection distributes over concatenation of snapshots. */
  lemma {:induction false} SelectAppend(a: Snapshot, b: Snapshot, code: int)
    ensures Select(a + b, code) == Select(a, code) + Select(b, code)
  {
    if a == [] {
      assert a + b == b;
    } else {
      assert (a + b)[0] == a[0] && (a + b)[1..] == a[1..] + b;
      SelectAppend(a[1..], b, code);
    }
  }

  /** The status lands in one of the three counted buckets. */
  predicate InBuckets(r: Record)
  {
    HasStatus(r, Idle) || HasStatus(r, Running) || HasStatus(r, Held)
  }

  /** The three buckets are disjoint, so together they never exceed the
      total, and they add up to it exactly when every status is 1, 2 or 5. */
  lemma {:induction false} BucketsBound(s: Snapshot)
    ensures |Select(s, Idle)| + |Select(s, Running)| + |Select(s, Held)| <= |s|
    ensures |Select(s, Idle)| + |Select(s, Running)| + |Select(s, Held)| == |s|
            <==> forall i :: 0 <= i < |s| ==> InBuckets(s[i])
  {
    if s != [] {
      BucketsBound(s[1..]);
      assert forall i :: 0 < i < |s| ==> s[i] == s[1..][i - 1];
      if !InBuckets(s[0]) {
        assert !(forall i :: 0 <= i < |s| ==> InBuckets(s[i]));
      }
    }
  }

  /** `JobCountHandler.get`. */
  function JobCountGet(s: Snapshot): (r: Result<Counts, HandlerError>)
    ensures r.Err? <==> !HasColumn(s, "JobStatus")
    ensures r.Err? ==> r.error == MissingColumns(["JobStatus"])
    ensures s == [] ==> r.Err?
    ensures r.Ok? ==> r.value.total == |s|
    ensures r.Ok? ==> r.value.idle == |Select(s, Idle)|
    ensures r.Ok? ==> r.value.running == |Select(s, Running)|
    ensures r.Ok? ==> r.value.held == |Select(s, Held)|
    ensures r.Ok? ==> r.value.idle + r.value.running + r.value.held <= r.value.total
  {
    if !HasColumn(s, "JobStatus") then
      Err(MissingColumns(["JobStatus"]))
    else
      BucketsBound(s);
      Ok(Counts(|s|, |Select(s, Idle)|, |Select(s, Running)|, |Select(s, Held)|))
  }

  /** Appending a record that lacks JobStatus raises the total by one and
      leaves every bucket as it was. */
  lemma NoStatusCountsTowardTotalOnly(s: Snapshot, r: Record, code: int)
    requires "JobStatus" !in r
    ensures |s + [r]| == |s| + 1
    ensures Select(s + [r], code) == Select(s, code)
  {
    SelectAppend(s, [r], code);
    assert Select([r], code) == [];
  }

  /** The scenario of the handler test: statuses 1, 2 and 5. */
  lemma CountsScenario()
    ensures JobCountGet([map["JobStatus" := Int(1)], map["JobStatus" := Int(2)], map["JobStatus" := Int(5)]])
            == Ok(Counts(3, 1, 1, 1))
  {
    var s := [map["JobStatus" := Int(1)], map["JobStatus" := Int(2)], map["JobStatus" := Int(5)]];
    assert "JobStatus" in s[0];
    assert s[1..] == [s[1], s[2]] && s[1..][1..] == [s[2]];
  }

  /** The fields of `fields` that no record of `s` has, in order. */
  function MissingColumnsOf(fields: seq<string>, s: Snapshot): (missing: seq<string>)
    ensures forall f :: f in missing <==> f in fields && !HasColumn(s, f)
  {
    if fields == [] then []
    else (if HasColumn(s, fields[0]) then [] else [fields[0]]) + MissingColumnsOf(fields[1..], s)
  }

  /** One summary row: exactly the six summary fields, copied from the
      record, NaN where this record lacks a field. */
  function SummaryRow(r: Record): (row: Record)
    ensures row.Keys == set f | f in SummaryFields
    ensures forall f :: f in SummaryFields && f in r ==> row[f] == r[f]
  {
    map f | f in SummaryFields :: if f in r then r[f] else Null
  }

  /** The summary rows of every record, in order. */
  function SummaryRows(s: Snapshot): (rows: Snapshot)
    ensures |rows| == |s|
    ensures forall i :: 0 <= i < |s| ==> rows[i] == SummaryRow(s[i])
  {
    if s == [] then [] else [SummaryRow(s[0])] + SummaryRows(s[1..])
  }

  /** `JobSummaryHandler.get`. */
  function JobSummaryGet(s: Snapshot): (r: Result<Snapshot, HandlerError>)
    ensures r.Err? <==> exists f :: f in SummaryFields && !HasColumn(s, f)
    ensures r.Err? ==> r.error.names != []
    ensures r.Err? ==> forall f :: f in r.error.names ==> f in SummaryFields && !HasColumn(s, f)
    ensures s == [] ==> r.Err?
    ensures r.Ok? ==> |r.value| == |s|
    ensures r.Ok? ==> forall i :: 0 <= i < |s| ==> r.value[i].Keys == set f | f in SummaryFields
    ensures r.Ok? ==> forall i, f :: 0 <= i < |s| && f in SummaryFields && f in s[i] ==> r.value[i][f] == s[i][f]
  {
    var missing := MissingColumnsOf(SummaryFields, s);
    if missing != [] then
      assert missing[0] in missing;
      Err(MissingColumns(missing))
    else
      assert "JobStatus" in SummaryFields;
      Ok(SummaryRows(s))
  }
}
