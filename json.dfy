/** The decoded JSON that `condor_q -json` produces and the server hands on:
    one job is an open-ended record from field name to scalar value. */
module Json {

  /** The scalar JSON values a job record field can hold. */
  datatype Value = Null | Bool(b: bool) | Int(n: int) | Str(s: string)

  /** One job: field name to value; unknown fields are carried along opaquely. */
  type Record = map<string, Value>

  /** The cached job list, in the order the job source returned it. */
  type Snapshot = seq<Record>
}
