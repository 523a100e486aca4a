# Report front-end: job list reconciliation and the creation form

This project models the two components of a browser front-end for
asynchronous report jobs.

- **The job list** (`ReportListComponent`) holds the list of jobs and a loading
  flag. A full fetch replaces the list wholesale. This happens once at
  activation and then on every five-second poll tick. A job pushed by the
  real-time channel is merged into the list: the first entry with the same id
  is replaced in place, and a job with a new id is prepended. The model is the
  pure merge `Merged` with its lemmas, a value-level `Step`/`Run` over an
  arbitrary interleaving of fetch answers and pushed values, and a class whose
  methods update `reports` and `isLoading` as the component does.
- **The creation form** (`CreateReportComponent`) is a class. Submitting clears
  the message and checks that the three fields are filled. It then checks that
  the end date is after the start date. Only then does it set `isLoading` and
  send one create request. The answer comes back through one of two callbacks,
  `OnCreateNext` and `OnCreateError`.

Files: `models.dfy` holds the records and the status enumeration,
`report_list.dfy` the job list, and `create_report.dfy` the form.

Modelling choices:

- A job's `status` is the raw number the API sends. The backend may send any
  number; the client enumeration names only Pending = 0, Processing = 1 and
  Completed = 2. Any other number gets no label (`None`, JavaScript's
  `undefined`) and the fallback class `status-failed`.
- Remote calls are inputs. A fetch or create answer is a `Response`, either
  `Next(value)` or `Error`. Requests sent and routes navigated to are recorded
  in the fields `requests` and `navigations`.
- Date parsing is a parameter `parse: string -> Option<int>`, where `None` is an
  invalid date. JavaScript compares an invalid date as false against anything.
  So an invalid date on either side passes the range check. The range check
  guarantees the end date is after the start date only when both dates parse;
  the model follows the code (`CheckForm`).
- Callbacks run to completion one at a time. Interleavings of poll answers and
  pushes are modelled as an arbitrary sequence of `Event`s.

## Model

| member | source | states |
|---|---|---|
| `Models.StatusByName` | src/app/models.ts:10-14 | looking up a member name of the enumeration yields one of the three named numbers, or nothing |
| `ReportList.FindIndex` | src/app/components/report-list/report-list.component.ts:72 | the result is -1 exactly when no entry has the id; otherwise it is the first position holding the id |
| `ReportList.Merged` | src/app/components/report-list/report-list.component.ts:70-83 | the merged list keeps or grows the length by at most one and always contains the pushed job |
| `ReportList.MergedReplacesFirstMatch` | src/app/components/report-list/report-list.component.ts:72-77 | when the first entry with the pushed id is at i, the length is unchanged, position i holds the pushed job, and every other position is unchanged |
| `ReportList.MergedPrependsNew` | src/app/components/report-list/report-list.component.ts:78-80 | when no entry has the pushed id, the result is the job followed by the old list, each old entry shifted by one |
| `ReportList.MergedKeepsOthers` | src/app/components/report-list/report-list.component.ts:70-83 | the merge never removes a job: the entries with other ids are exactly the old ones, in the same relative order |
| `ReportList.MergedIdSet` | src/app/components/report-list/report-list.component.ts:70-83 | the ids after the merge are the old ids plus the pushed job's id |
| `ReportList.MergedKeepsIdsDistinct` | src/app/components/report-list/report-list.component.ts:72-80 | pairwise distinct ids stay pairwise distinct after a merge |
| `ReportList.MergedIdempotent` | src/app/components/report-list/report-list.component.ts:70-83 | merging the same job twice gives the same list as merging it once |
| `ReportList.StatusLabel` | src/app/components/report-list/report-list.component.ts:85-87 | a status has a label exactly when the enumeration names it |
| `ReportList.StatusClass` | src/app/components/report-list/report-list.component.ts:89-96 | the class is the fallback `status-failed` exactly when the status is not one of the three named ones |
| `ReportList.StatusLabelRoundTrip` | src/app/components/report-list/report-list.component.ts:85-87 | the label of a status is a member name whose lookup gives the status back, and no other name does |
| `ReportList.StatusClassDistinct` | src/app/components/report-list/report-list.component.ts:89-96 | the three named statuses get three different classes, and the fallback class is used exactly when the status has no label |
| `ReportList.Step` | src/app/components/report-list/report-list.component.ts:25-68 | one callback on the list state (the push effect with its null guard, or a fetch answer): the loading flag is never raised, poll answers and pushes keep it, a failed fetch keeps the list, and a push never shrinks the list and adds at most one entry |
| `ReportList.Run` | src/app/components/report-list/report-list.component.ts:53-83 | the callbacks of any interleaving applied in order; with pushes only, the list never shrinks and grows by at most one entry per push |
| `ReportList.StepIdempotent` | src/app/components/report-list/report-list.component.ts:53-83 | handling the same fetch answer or pushed value twice leaves the state that handling it once leaves |
| `ReportList.SnapshotWins` | src/app/components/report-list/report-list.component.ts:55-56 | after any history, a successful fetch leaves exactly the fetched list |
| `ReportList.RunNeverRaisesLoading` | src/app/components/report-list/report-list.component.ts:53-68 | no sequence of fetch answers and pushes sets the loading flag once it is clear |
| `ReportList.PollsKeepLoading` | src/app/components/report-list/report-list.component.ts:38-40 | poll answers, successful or failed, and pushes never change the loading flag |
| `ReportList.InitialLoadClearsLoading` | src/app/components/report-list/report-list.component.ts:49-68 | once the initial load has answered, with data or an error, the loading flag stays clear |
| `ReportList.RunKeepsIdsDistinct` | src/app/components/report-list/report-list.component.ts:53-83 | if every fetched snapshot has distinct ids, the list has distinct ids under any interleaving of fetches and pushes |
| `ReportList.ListScenario` | src/app/components/report-list/report-list.component.ts:53-83 | a snapshot, an in-place update, a new job and a stale poll give the lists [1,2], [1',2], [3,1',2] and again [1,2] |
| `ReportList.ReportListComponent.constructor` | src/app/components/report-list/report-list.component.ts:20-21 | the list starts empty and loading |
| `ReportList.ReportListComponent.FetchReports` | src/app/components/report-list/report-list.component.ts:53-68 | data replaces the list, an error leaves it unchanged, and the loading flag is cleared only when not polling |
| `ReportList.ReportListComponent.InitialLoad` | src/app/components/report-list/report-list.component.ts:49-51 | the initial load replaces the list on success and always clears the loading flag |
| `ReportList.ReportListComponent.PollTick` | src/app/components/report-list/report-list.component.ts:38-40 | a poll tick replaces the list on success and never changes the loading flag |
| `ReportList.ReportListComponent.UpdateReportList` | src/app/components/report-list/report-list.component.ts:70-83 | the list becomes the merge of the old list and the job, keeps distinct ids distinct, and the loading flag is unchanged |
| `ReportList.ReportListComponent.OnJobUpdate` | src/app/components/report-list/report-list.component.ts:25-31 | a null push value leaves the list untouched; a job is merged |
| `CreateReport.CheckForm` | src/app/components/create-report/create-report.component.ts:35-39 | a form is incomplete exactly when a field is empty; it is accepted exactly when all fields are filled and either date is invalid or the end is strictly after the start |
| `CreateReport.ReversedRangeRejected` | src/app/components/create-report/create-report.component.ts:36-39 | a filled form whose valid end date is not after its valid start date is rejected with the date error |
| `CreateReport.CreateReportComponent.constructor` | src/app/components/create-report/create-report.component.ts:21-29 | the form starts empty, not loading and without a message |
| `CreateReport.CreateReportComponent.OnSubmit` | src/app/components/create-report/create-report.component.ts:32-42 | the message is cleared first; an incomplete form sends nothing and keeps the loading flag; a bad range shows the date error and sends nothing; an accepted form sets loading and sends exactly one request with the unchanged model |
| `CreateReport.CreateReportComponent.OnCreateNext` | src/app/components/create-report/create-report.component.ts:43-48 | success clears the loading flag and navigates to the job list |
| `CreateReport.CreateReportComponent.OnCreateError` | src/app/components/create-report/create-report.component.ts:49-53 | failure clears the loading flag and shows the failure message, without navigating |
| `CreateReport.CreateReportComponent.SubmitAndSettle` | src/app/components/create-report/create-report.component.ts:32-61 | a submission with its answer: navigation happens exactly for an accepted form whose request succeeded, and an accepted form always ends not loading |
| `CreateReport.CreateReportComponent.OnClose` | src/app/components/create-report/create-report.component.ts:64-70 | closing only navigates to the job list; model, message, loading flag and requests are unchanged |

## Left out

- The HTTP service (`src/app/services/report.service.ts`) is a thin wrapper over a fixed URL. Its answers are the `Response` inputs of the model.
- The real-time channel (`src/app/services/signalr.service.ts`) is transport set-up and logging. Only the delivered value, a job or null, is modelled.
- The route table (`src/app/app.routes.ts`) holds no logic. Navigation is recorded as a target path.
- Teardown in `ngOnDestroy`, the five-second timer and the start of the connection in `ngOnInit` are scheduling, not list logic. Each answered poll request is one `PollTick` call, or one `Fetched(true, _)` event, in any order relative to the other events.
- The reactive effect runs on the channel's latest value. Two pushes delivered before the effect runs may be seen as one. The model treats each delivered value as one `Pushed` event.
- Parsing date strings is not modelled; `parse` stands for it.
- The `catch` blocks around `onSubmit` and `onClose`, and logging, are left out. They handle exceptions from framework calls, which are not modelled.
- HTML templates and CSS are left out.
