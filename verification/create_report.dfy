/**
 The creation form. Submitting checks that all three fields are filled and
 that the end date is after the start date, then sends one create request;
 the request's answer either navigates back to the job list or shows a
 generic failure message. Closing the form only navigates back.

 Date parsing is not modelled: `parse` stands for `new Date(...)` and gives
 None for an invalid date, whose time value (NaN) makes every comparison
 false.
 */
module CreateReport {
  import opened Models

  const EndDateError: string := "End Date must be greater than Start Date."
  const SubmitFailedError: string := "Failed to submit report request."
  const ReportsRoute: string := "/reports"

  /** The report types the form offers; submission does not check against them. */
  const ReportTypes: seq<string> := ["Sales", "UserActivity", "Inventory", "AuditLog"]

  /** `a <= b` on two Date objects: false when either time value is NaN. */
  predicate DateAtMost(a: Option<int>, b: Option<int>) {
    a.Some? && b.Some? && a.value <= b.value
  }

  /** JavaScript truthiness of a form field. */
  predicate Filled(m: CreateReportDto) {
    m.reportType != "" && m.startDate != "" && m.endDate != ""
  }

  /** What a submission decides before any request is made. */
  datatype Verdict = Incomplete | EndNotAfterStart | Accepted

  function CheckForm(m: CreateReportDto, parse: string -> Option<int>): (v: Verdict)
    ensures v == Incomplete <==>
      m.reportType == "" || m.startDate == "" || m.endDate == ""
    // a form is accepted with an invalid date on either side, and when both
    // dates are valid, only when the end is strictly after the start
    ensures v == Accepted <==>
      && Filled(m)
      && (parse(m.startDate).None? || parse(m.endDate).None?
          || parse(m.startDate).value < parse(m.endDate).value)
  {
    if !Filled(m) then Incomplete
    else if DateAtMost(parse(m.endDate), parse(m.startDate)) then EndNotAfterStart
    else Accepted
  }

  class CreateReportComponent {
    var model: CreateReportDto
    var isLoading: bool
    var errorMessage: string
    /** The create requests sent so far, oldest first. */
    var requests: seq<CreateReportDto>
    /** The routes navigated to so far, oldest first. */
    var navigations: seq<string>

    /** An empty form, not loading, without a message. */
    constructor ()
      ensures model == CreateReportDto("", "", "")
      ensures !isLoading && errorMessage == ""
      ensures requests == [] && navigations == []
    {
      model := CreateReportDto("", "", "");
      isLoading := false;
      errorMessage := "";
      requests := [];
      navigations := [];
    }

    /** The synchronous part of a submission, up to sending the request. Every
        submission clears the previous message first. */
    method OnSubmit(parse: string -> Option<int>)
      modifies this
      ensures model == old(model) && navigations == old(navigations)
      ensures CheckForm(model, parse) == Incomplete ==>
        errorMessage == "" && isLoading == old(isLoading) && requests == old(requests)
      ensures CheckForm(model, parse) == EndNotAfterStart ==>
        errorMessage == EndDateError && isLoading == old(isLoading) && requests == old(requests)
      ensures CheckForm(model, parse) == Accepted ==>
        errorMessage == "" && isLoading && requests == old(requests) + [model]
    {
      errorMessage := "";
      if Filled(model) {
        if DateAtMost(parse(model.endDate), parse(model.startDate)) {
          errorMessage := EndDateError;
          return;
        }
        isLoading := true;
        requests := requests + [model];
      }
    }

    /** The create request answered with the created job. */
    method OnCreateNext(created: ReportJob)
      modifies this
      ensures !isLoading && navigations == old(navigations) + [ReportsRoute]
      ensures model == old(model) && errorMessage == old(errorMessage)
      ensures requests == old(requests)
    {
      isLoading := false;
      navigations := navigations + [ReportsRoute];
    }

    /** The create request failed. */
    method OnCreateError()
      modifies this
      ensures !isLoading && errorMessage == SubmitFailedError
      ensures model == old(model) && navigations == old(navigations)
      ensures requests == old(requests)
    {
      isLoading := false;
      errorMessage := SubmitFailedError;
    }

    /** A submission followed, when a request went out, by its answer. */
    method SubmitAndSettle(parse: string -> Option<int>, response: Response<ReportJob>)
      modifies this
      ensures model == old(model)
      ensures CheckForm(model, parse) == Incomplete ==>
        errorMessage == "" && isLoading == old(isLoading)
        && requests == old(requests) && navigations == old(navigations)
      ensures CheckForm(model, parse) == EndNotAfterStart ==>
        errorMessage == EndDateError && isLoading == old(isLoading)
        && requests == old(requests) && navigations == old(navigations)
      ensures CheckForm(model, parse) == Accepted ==>
        !isLoading && requests == old(requests) + [model]
      ensures CheckForm(model, parse) == Accepted && response.Next? ==>
        errorMessage == "" && navigations == old(navigations) + [ReportsRoute]
      ensures CheckForm(model, parse) == Accepted && response.Error? ==>
        errorMessage == SubmitFailedError && navigations == old(navigations)
    {
      OnSubmit(parse);
      if CheckForm(model, parse) == Accepted {
        match response {
          case Next(created) => OnCreateNext(created);
          case Error => OnCreateError();
        }
      }
    }

    /** Cancel: back to the job list, nothing else changes. */
    method OnClose()
      modifies this
      ensures navigations == old(navigations) + [ReportsRoute]
      ensures model == old(model) && isLoading == old(isLoading)
      ensures errorMessage == old(errorMessage) && requests == old(requests)
    {
      navigations := navigations + [ReportsRoute];
    }
  }

  /** A range whose end precedes its start is refused before any request. */
  lemma ReversedRangeRejected(m: CreateReportDto, parse: string -> Option<int>)
    requires Filled(m)
    requires parse(m.startDate).Some? && parse(m.endDate).Some?
    requires parse(m.endDate).value <= parse(m.startDate).value
    ensures CheckForm(m, parse) == EndNotAfterStart
  {
  }
}
