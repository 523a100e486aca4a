/**
 The data shared by the two components of the report front-end: a report job
 as the remote API sends it, the body of a create request, the numeric status
 enumeration, and the two shapes a remote answer can take.
 */
module Models {

  datatype Option<+T> = None | Some(value: T)

  /** What an HTTP observable delivers to its subscriber: one value through
      `next`, or a failure through `error` (the error object is only logged,
      so it is not kept). */
  datatype Response<+T> = Next(value: T) | Error

  /** The numeric members of the status enumeration. The backend may send any
      number; only these three have a name on the client. */
  const Pending: int := 0
  const Processing: int := 1
  const Completed: int := 2

  predicate IsNamedStatus(status: int) {
    status == Pending || status == Processing || status == Completed
  }

  /** A report job, keyed by `id`. Dates and timestamps stay the strings the
      API delivers; `status` is the raw enumeration number. */
  datatype ReportJob = ReportJob(
    id: string,
    reportType: string,
    startDate: string,
    endDate: string,
    status: int,
    createdAt: string)

  /** The body of a create request, bound to the creation form. */
  datatype CreateReportDto = CreateReportDto(
    reportType: string,
    startDate: string,
    endDate: string)

  /** The enumeration object looked up by member name (`ReportStatus.Pending`). */
  function StatusByName(name: string): (v: Option<int>)
    ensures v.Some? ==> IsNamedStatus(v.value)
  {
    if name == "Pending" then Some(Pending)
    else if name == "Processing" then Some(Processing)
    else if name == "Completed" then Some(Completed)
    else None
  }
}
