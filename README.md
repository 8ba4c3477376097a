# htcondor_status, modelled in Dafny

htcondor_status polls HTCondor's `condor_q -json` (or, in simulation mode,
draws from a bundled sample), caches the latest job list in memory, and
serves it as `/jobs.json` (verbatim), `/counts.json` (total and idle,
running, held counts) and `/summary.json` (six fixed fields per job). A
TypeScript dashboard turns the summary into a table, counts jobs by status
name, and shows the details of a clicked job.

The model:

- `wrappers.dfy`: `Option` and `Result`.
- `json.dfy`: a job record is a `map<string, Value>` over scalar JSON values, and a snapshot is a `seq` of records.
- `jobs.dfy` (module `Jobs`, htcondor_status/jobs.py) covers three things:
  - the `condor_q` argument vector;
  - the parse-or-empty fallback of `get_jobs`;
  - `simulate_jobs`, as a nondeterministic draw without replacement.
- `handlers.dfy` (module `Handlers`, the three JSON handlers of htcondor_status/server.py): pure functions of the snapshot.
  - The pandas DataFrame they build is modelled by its observable behaviour.
  - A column exists when some record has the field.
  - A missing column raises.
  - A cell the record lacks is NaN, written `Null`.
  - `==` against a number follows Python, so `True == 1`.
- `server.dfy` (module `Server`): the class `HTCondorStatusApp`.
  - Its field `jobs` starts empty.
  - `RefreshJobsList` replaces `jobs` wholesale.
  - The module also has three scenarios: start-up, an unparsable source, and a repeated refresh.
- `client.dfy` (module `Client`, src/htcondor.ts) covers:
  - the status table;
  - the counting loop and the count record;
  - status collection in `ajaxResponse`;
  - the first-match search of `showDetails`;
  - the line builder of `showModal`.
- `agreement.dfy` (module `Agreement`): when every status is an integer and the browser can read the summary (no NaN cell, a numeric QDate), the dashboard's counts by name equal the server's counts by code. The proof uses the fact that the status table is injective.

Two behaviours of the handlers are worth knowing:

- `/counts.json` and `/summary.json` raise on an empty snapshot, because pandas finds no columns (`JobCountGet`, `JobSummaryGet`). So a refresh whose output does not decode makes both endpoints fail until the next good refresh.
- `/summary.json` raises only for a summary field that no record has. A field missing from some records becomes NaN in those rows.

## Model

| member | source | states |
|---|---|---|
| `Jobs.CondorQArgs` | htcondor_status/jobs.py:16-22 | starts with `condor_q -json`; `-global` iff global and `-all` iff all, `-global` before `-all`, nothing else; length 2 + flags |
| `Jobs.GetJobs` | htcondor_status/jobs.py:9-30 | the command line: `condor_q -json`, then `-global` iff global and `-all` iff all in that order, nothing else, length 2 + flags; an output that does not decode (empty included) gives `[]`, one that decodes gives exactly the decoded list |
| `Jobs.SimulateJobs` | htcondor_status/jobs.py:40-44 | fails exactly when the sample has fewer than 2 records; otherwise returns k records, 1 <= k <= N-1, each drawn from a distinct sample position |
| `Jobs.DrawLeavesOneOut` | htcondor_status/jobs.py:44 | a draw of fewer records than the sample leaves some sample position unused (strict subset) |
| `Jobs.Pigeonhole` | htcondor_status/jobs.py:44 | fewer than n distinct positions below n miss one position |
| `Handlers.JobsGet` | htcondor_status/server.py:24-27 | `/jobs.json` is `{"jobs": S}` with S the snapshot unchanged and in order; `{"jobs": []}` for the empty snapshot |
| `Handlers.Select` | htcondor_status/server.py:37-39 | the rows passing `JobStatus == code`: no more than the snapshot, each from it and with that status, and every such record included |
| `Handlers.SelectMultiset` | htcondor_status/server.py:37-39 | the selection holds each record with the status exactly as often as the snapshot does, and no other record, so its length is the number of such records |
| `Handlers.SelectAppend` | htcondor_status/server.py:37-39 | selecting by status distributes over concatenation of snapshots |
| `Handlers.BucketsBound` | htcondor_status/server.py:36-39 | idle + running + held <= total, with equality iff every status is 1, 2 or 5 |
| `Handlers.JobCountGet` | htcondor_status/server.py:30-41 | errors iff no record has JobStatus (the empty snapshot included); otherwise total is the snapshot length, idle, running and held are the sizes of the status-1, -2 and -5 selections, and they sum to at most the total |
| `Handlers.NoStatusCountsTowardTotalOnly` | htcondor_status/server.py:36-39 | a record without JobStatus raises the total by one and no bucket |
| `Handlers.CountsScenario` | htcondor_status/server.py:33-40 | statuses 1, 2, 5 give total 3, idle 1, running 1, held 1: the outcome the counts test in server_test.py expects (that test patches an attribute the handler does not read) |
| `Handlers.MissingColumnsOf` | htcondor_status/server.py:50-59 | lists exactly the requested fields that no record has |
| `Handlers.SummaryRow` | htcondor_status/server.py:50-59 | a summary row has exactly the six summary keys, each copied from the record when it has it |
| `Handlers.SummaryRows` | htcondor_status/server.py:47-59 | one summary row per record, in order |
| `Handlers.JobSummaryGet` | htcondor_status/server.py:44-61 | errors iff some summary field is in no record, naming only such fields (the empty snapshot errs); else one row per record with exactly the six keys, values copied |
| `Server.HTCondorStatusApp.constructor` | htcondor_status/server.py:86-87 | a new app holds the empty snapshot and the given simulate flag |
| `Server.HTCondorStatusApp.RefreshJobsList` | htcondor_status/server.py:93-100 | only `jobs` changes; real mode: jobs becomes the decoded output or `[]`; simulate mode: a 1..N-1 draw without replacement, or an error leaving jobs as it was |
| `Server.FreshAppServesNoJobs` | htcondor_status/server_test.py:22-30 | an app that has not refreshed yet serves `{"jobs": []}` |
| `Server.UnparsableOutputServesNoJobs` | htcondor_status/jobs.py:27-30 | after a refresh whose output does not decode, `/jobs.json` is `{"jobs": []}` |
| `Server.SimulatedStartup` | htcondor_status/server.py:117-120 | simulated start-up with a 5-record sample serves 1 to 4 records, all from the sample |
| `Server.RefreshTwiceSameSource` | htcondor_status/server.py:97-100 | two refreshes against the same output give equal snapshots |
| `Client.FormatJobStatusString` | src/htcondor.ts:12-39 | a name exactly for the codes 1..7, `undefined` for every other code |
| `Client.StatusNames` | src/htcondor.test.ts:7-18 | 1 Idle, 2 Running, 3 Removed, 4 Completed, 5 Held, 6 Transferring Output, 7 Suspended; 0 and 8 have none |
| `Client.StatusNamesInjective` | src/htcondor.ts:12-20 | two codes with the same name are the same code |
| `Client.StatusOfValue` | src/htcondor.ts:37-39 | an integer value looks up its code; a string finds a name iff it is "1" to "7" (JavaScript property keys); `null` and booleans find nothing |
| `Client.CollectStatuses` | src/htcondor.ts:132-137 | one formatted status per row, same length and order |
| `Client.GetJobCount` | src/htcondor.ts:64-73 | the number of entries equal to the status (multiset multiplicity), at most the length |
| `Client.ThreeCountsBound` | src/htcondor.ts:46-51 | the counts of three different statuses sum to at most the length |
| `Client.UpdateJobCounts` | src/htcondor.ts:45-56 | total is the number of statuses; running, idle and held are their counts, and sum to at most the total |
| `Client.AjaxResponse` | src/htcondor.ts:129-141 | the statuses follow the rows one to one, and the counts are taken over them |
| `Client.JoinAppend` | src/htcondor.ts:180 | joining with no separator distributes over concatenation |
| `Client.JoinPlacesLine` | src/htcondor.ts:173-180 | each line sits in the joined text right after the lines before it |
| `Client.ShowModal` | src/htcondor.ts:172-180 | one `<p><strong>key:</strong> value</p>` line per key in enumeration order, joined with nothing between |
| `Client.ShowDetails` | src/htcondor.ts:157-170 | shows the first job whose GlobalJobId matches, with its dialog text; reports not found iff no job matches |
| `Agreement.RowNameMatchesCode` | src/htcondor.ts:12-20 | for an integer status, the row's name equals a code's name iff its status is that code |
| `Agreement.NameCountIsCodeCount` | src/htcondor.ts:46-50 | the client's count of a name equals the server's count of its code |
| `Agreement.SummaryKeepsStatus` | htcondor_status/server.py:47-59 | a summary row formats to the same status as its record |
| `Agreement.DashboardCounts` | src/htcondor.ts:129-138 | for a non-empty snapshot whose statuses are integers, whose records have every summary field non-null and whose QDate is a number, the dashboard's counts over `/summary.json` equal what `/counts.json` serves |

## Left out

- Tornado routing, templates, content types, static files and `listen` are framework plumbing.
- The `PeriodicCallback` timer, `async`/`await` and the start-up ordering are scheduling, not data. Refresh is modelled as one sequential call.
- I/O is not modelled:
  - spawning `condor_q` and reading its output;
  - reading the bundled sample file.
- The decoded output and the sample are parameters. A failure to load the sample propagates in the source and is not modelled.
- The JSON decoder is abstract. Its verdict on the output is an `Option`.
- A decoded value that is not a list of records is not modelled.
- Values are JSON scalars. Floats and nested arrays or objects are not modelled.
- Pandas' type coercions are not modelled, such as integers turned into floats next to NaN. The NaN cell itself is written `Null`.
- `formatQDate`, the rewriting of `QDate` and `JobStatus` inside the displayed rows, Tabulator, Bootstrap's `Modal`, `setText`, `fetch` and `setInterval` are display and I/O.
- htcondor_status's `htcondor.js` and `cli.py` are UI polling and argument parsing. The call `main(port, debug)` in cli.py does not match the keyword-only `main` of server.py.
- `Agreement.DashboardCounts`: says nothing about snapshots outside `DashboardReadable`. There the dashboard counts nothing: a NaN cell makes the summary invalid JSON for the browser, and a non-numeric QDate makes `formatQDate` throw before the status is collected. The page then keeps its old counts.
- `Client.AjaxResponse`: does not model that the callback fails on a non-numeric QDate (luxon throws) or never runs on a summary holding NaN (the browser rejects it as JSON). The model always collects the statuses.
- Key order is not modelled. A record is a `map`, so the key order of each job in `/jobs.json`, the column order of the summary rows and the order in which the details dialog lists a job's keys are not captured by the server side. The client's `JsObject` takes the enumeration order as given.
- JavaScript numbers are not modelled. They are doubles: `JSON.parse` loses precision above 2^53, and a template literal writes 1e21 and above in exponent form. `Render` writes every integer in full decimal.
- `Client.ShowDetails`: compares GlobalJobId as strings, which is the declared type. JavaScript's loose `==` coercions between numbers, strings and `undefined` are not modelled.
