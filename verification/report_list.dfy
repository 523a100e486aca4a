/**
 The job list of the report list view. Two independent sources write to it:
 a full fetch (the initial load and every poll tick) replaces the list
 wholesale, and a pushed single-job update is merged into it: the first entry
 with the same id is replaced in place, or the job is prepended when no entry
 has its id.
 */
module ReportList {
  import opened Models

  // ---------------------------------------------------------------------------
  // The merge of one pushed job
  // ---------------------------------------------------------------------------

  /** `Array.prototype.findIndex` on the id: the first position holding `id`,
      or -1 when there is none. */
  function FindIndex(rs: seq<ReportJob>, id: string): (i: int)
    ensures -1 <= i < |rs|
    ensures i == -1 <==> forall k :: 0 <= k < |rs| ==> rs[k].id != id
    ensures 0 <= i ==> rs[i].id == id && forall k :: 0 <= k < i ==> rs[k].id != id
  {
    if rs == [] then -1
    else if rs[0].id == id then 0
    else
      var j := FindIndex(rs[1..], id);
      if j == -1 then -1 else j + 1
  }

  /** The list `updateReportList` computes from the current list and a pushed job. */
  function Merged(rs: seq<ReportJob>, job: ReportJob): (r: seq<ReportJob>)
    ensures |rs| <= |r| <= |rs| + 1
    ensures job in r
  {
    var i := FindIndex(rs, job.id);
    if i != -1 then
      assert rs[i := job][i] == job;
      rs[i := job]
    else [job] + rs
  }

  /** The entries of `rs` whose id is not `id`, in their order. */
  function Without(rs: seq<ReportJob>, id: string): (r: seq<ReportJob>)
    ensures |r| <= |rs|
    ensures forall x :: x in r <==> x in rs && x.id != id
  {
    if rs == [] then []
    else if rs[0].id == id then Without(rs[1..], id)
    else [rs[0]] + Without(rs[1..], id)
  }

  /** The ids that occur in `rs`. */
  function IdSet(rs: seq<ReportJob>): set<string> {
    set k | 0 <= k < |rs| :: rs[k].id
  }

  /** At most one entry per id. */
  predicate IdsDistinct(rs: seq<ReportJob>) {
    forall i, j :: 0 <= i < j < |rs| ==> rs[i].id != rs[j].id
  }

  /** A pushed job whose id is already listed replaces the FIRST entry with
      that id, at its position; everything else stays where it was. */
  lemma MergedReplacesFirstMatch(rs: seq<ReportJob>, job: ReportJob, i: nat)
    requires i < |rs| && rs[i].id == job.id
    requires forall k :: 0 <= k < i ==> rs[k].id != job.id
    ensures |Merged(rs, job)| == |rs|
    ensures Merged(rs, job)[i] == job
    ensures forall k :: 0 <= k < |rs| && k != i ==> Merged(rs, job)[k] == rs[k]
  {
  }

  /** A pushed job with a new id goes to the front, and every old entry moves
      down by one. */
  lemma MergedPrependsNew(rs: seq<ReportJob>, job: ReportJob)
    requires forall k :: 0 <= k < |rs| ==> rs[k].id != job.id
    ensures Merged(rs, job) == [job] + rs
    ensures |Merged(rs, job)| == |rs| + 1
    ensures forall k :: 0 <= k < |rs| ==> Merged(rs, job)[k + 1] == rs[k]
  {
  }

  lemma {:induction false} WithoutUpdate(rs: seq<ReportJob>, i: nat, x: ReportJob, id: string)
    requires i < |rs| && rs[i].id == id && x.id == id
    ensures Without(rs[i := x], id) == Without(rs, id)
  {
    if i == 0 {
      assert rs[i := x][1..] == rs[1..];
    } else {
      WithoutUpdate(rs[1..], i - 1, x, id);
      assert rs[i := x][1..] == rs[1..][i - 1 := x];
    }
  }

  /** The merge never removes a job: the entries whose id differs from the
      pushed job's are exactly the old ones, in the same relative order. */
  lemma MergedKeepsOthers(rs: seq<ReportJob>, job: ReportJob)
    ensures Without(Merged(rs, job), job.id) == Without(rs, job.id)
    ensures forall x :: x in rs && x.id != job.id ==> x in Merged(rs, job)
  {
    var i := FindIndex(rs, job.id);
    if i != -1 {
      WithoutUpdate(rs, i, job, job.id);
    } else {
      assert ([job] + rs)[1..] == rs;
    }
  }

  /** The ids after the merge are the old ids plus the pushed one. */
  lemma MergedIdSet(rs: seq<ReportJob>, job: ReportJob)
    ensures IdSet(Merged(rs, job)) == IdSet(rs) + {job.id}
  {
    var r := Merged(rs, job);
    var i := FindIndex(rs, job.id);
    if i != -1 {
      forall id | id in IdSet(r) ensures id in IdSet(rs) + {job.id} {
        var k :| 0 <= k < |r| && r[k].id == id;
        if k != i { assert rs[k].id == id; }
      }
      forall id | id in IdSet(rs) + {job.id} ensures id in IdSet(r) {
        if id == job.id {
          assert r[i].id == id;
        } else {
          var k :| 0 <= k < |rs| && rs[k].id == id;
          assert r[k].id == id;
        }
      }
    } else {
      forall id | id in IdSet(r) ensures id in IdSet(rs) + {job.id} {
        var k :| 0 <= k < |r| && r[k].id == id;
        if k != 0 { assert rs[k - 1].id == id; }
      }
      forall id | id in IdSet(rs) + {job.id} ensures id in IdSet(r) {
        if id == job.id {
          assert r[0].id == id;
        } else {
          var k :| 0 <= k < |rs| && rs[k].id == id;
          assert r[k + 1].id == id;
        }
      }
    }
  }

  /** Merging keeps the list free of duplicate ids. */
  lemma MergedKeepsIdsDistinct(rs: seq<ReportJob>, job: ReportJob)
    requires IdsDistinct(rs)
    ensures IdsDistinct(Merged(rs, job))
  {
  }

  /** Delivering the same pushed job twice gives the list it gives once. */
  lemma MergedIdempotent(rs: seq<ReportJob>, job: ReportJob)
    ensures Merged(Merged(rs, job), job) == Merged(rs, job)
  {
    var r := Merged(rs, job);
    var i := FindIndex(rs, job.id);
    var p := if i != -1 then i else 0;
    assert r[p] == job;
    assert forall k :: 0 <= k < p ==> r[k].id != job.id;
    assert FindIndex(r, job.id) == p;
    assert r[p := job] == r;
  }

  // ---------------------------------------------------------------------------
  // Status display
  // ---------------------------------------------------------------------------

  /** `getStatusLabel`: the enumeration's reverse lookup, undefined (None) for
      a number the enumeration does not name. */
  function StatusLabel(status: int): (name: Option<string>)
    ensures name.Some? <==> IsNamedStatus(status)
  {
    if status == Pending then Some("Pending")
    else if status == Processing then Some("Processing")
    else if status == Completed then Some("Completed")
    else None
  }

  /** `getStatusClass`: a total switch with a fallback for any other number. */
  function StatusClass(status: int): (cls: string)
    ensures cls == "status-failed" <==> !IsNamedStatus(status)
  {
    if status == Pending then "status-pending"
    else if status == Processing then "status-processing"
    else if status == Completed then "status-completed"
    else "status-failed"
  }

  /** The label is the enumeration's own member name: looking it up again by
      name gives back the number, and no other name does. */
  lemma StatusLabelRoundTrip(status: int, name: string)
    ensures StatusLabel(status) == Some(name) <==> StatusByName(name) == Some(status)
  {
  }

  /** The three named statuses get three different classes, and the fallback
      class is used exactly when the status has no label. */
  lemma StatusClassDistinct(s: int, t: int)
    ensures IsNamedStatus(s) && IsNamedStatus(t) && s != t ==> StatusClass(s) != StatusClass(t)
    ensures StatusClass(s) == "status-failed" <==> StatusLabel(s) == None
  {
  }

  // ---------------------------------------------------------------------------
  // The component's state under an arbitrary interleaving of fetches and pushes
  // ---------------------------------------------------------------------------

  datatype ListState = ListState(reports: seq<ReportJob>, isLoading: bool)

  /** One run-to-completion callback on the component: the answer to a fetch
      (the initial load when `isPolling` is false, a poll tick otherwise) or a
      value of the push channel (null before the first update). */
  datatype Event =
    | Fetched(isPolling: bool, response: Response<seq<ReportJob>>)
    | Pushed(update: Option<ReportJob>)

  /** One callback on the state. A callback never raises the loading flag,
      and only the initial load's answer may clear it; a failed fetch keeps
      the list; a push never shrinks the list and adds at most one entry. */
  function Step(s: ListState, e: Event): (t: ListState)
    ensures t.isLoading ==> s.isLoading
    ensures (e.Pushed? || e.isPolling) ==> t.isLoading == s.isLoading
    ensures e.Fetched? && e.response.Error? ==> t.reports == s.reports
    ensures e.Pushed? ==> |s.reports| <= |t.reports| <= |s.reports| + 1
  {
    match e
    case Fetched(isPolling, Next(data)) => ListState(data, s.isLoading && isPolling)
    case Fetched(isPolling, Error) => ListState(s.reports, s.isLoading && isPolling)
    case Pushed(None) => s
    case Pushed(Some(job)) => ListState(Merged(s.reports, job), s.isLoading)
  }

  /** Every event is a pushed value; no fetch answers. */
  predicate OnlyPushes(es: seq<Event>) {
    forall k :: 0 <= k < |es| ==> es[k].Pushed?
  }

  /** The callbacks of `es` applied in order. Between two fetch answers the
      list never shrinks, and grows by at most one entry per pushed value. */
  function Run(s: ListState, es: seq<Event>): (t: ListState)
    ensures OnlyPushes(es) ==> |s.reports| <= |t.reports| <= |s.reports| + |es|
    decreases |es|
  {
    if es == [] then s
    else
      assert OnlyPushes(es) ==> OnlyPushes(es[1..]) by {
        if OnlyPushes(es) {
          forall k | 0 <= k < |es[1..]| ensures es[1..][k].Pushed? {
            assert es[1..][k] == es[k + 1];
          }
        }
      }
      Run(Step(s, es[0]), es[1..])
  }

  /** Every callback, a snapshot as much as a push, is idempotent. */
  lemma StepIdempotent(s: ListState, e: Event)
    ensures Step(Step(s, e), e) == Step(s, e)
  {
    if e.Pushed? && e.update.Some? {
      MergedIdempotent(s.reports, e.update.value);
    }
  }

  lemma {:induction false} RunAppend(s: ListState, a: seq<Event>, b: seq<Event>)
    ensures Run(s, a + b) == Run(Run(s, a), b)
    decreases |a|
  {
    if a == [] {
      assert a + b == b;
    } else {
      assert (a + b)[1..] == a[1..] + b;
      RunAppend(Step(s, a[0]), a[1..], b);
    }
  }

  /** A successful fetch is authoritative: whatever came before it, the list
      is exactly the fetched sequence afterwards. */
  lemma SnapshotWins(s: ListState, es: seq<Event>, isPolling: bool, data: seq<ReportJob>)
    ensures Run(s, es + [Fetched(isPolling, Next(data))]).reports == data
  {
    RunAppend(s, es, [Fetched(isPolling, Next(data))]);
  }

  /** Nothing ever sets the loading flag again once it is cleared. */
  lemma {:induction false} RunNeverRaisesLoading(s: ListState, es: seq<Event>)
    ensures Run(s, es).isLoading ==> s.isLoading
    decreases |es|
  {
    if es != [] {
      RunNeverRaisesLoading(Step(s, es[0]), es[1..]);
    }
  }

  /** Poll ticks and pushes, successful or not, never change the loading flag. */
  lemma {:induction false} PollsKeepLoading(s: ListState, es: seq<Event>)
    requires forall k :: 0 <= k < |es| && es[k].Fetched? ==> es[k].isPolling
    ensures Run(s, es).isLoading == s.isLoading
    decreases |es|
  {
    if es != [] {
      PollsKeepLoading(Step(s, es[0]), es[1..]);
    }
  }

  /** Once the initial load has answered, with data or with an error, the
      loading flag is cleared for good. */
  lemma InitialLoadClearsLoading(s: ListState, es: seq<Event>, k: nat)
    requires k < |es| && es[k].Fetched? && !es[k].isPolling
    ensures !Run(s, es).isLoading
  {
    assert es == es[..k + 1] + es[k + 1..];
    assert es[..k + 1] == es[..k] + [es[k]];
    RunAppend(s, es[..k + 1], es[k + 1..]);
    RunAppend(s, es[..k], [es[k]]);
    RunNeverRaisesLoading(Run(s, es[..k + 1]), es[k + 1..]);
  }

  /** Every snapshot delivered has distinct ids. */
  predicate SnapshotsDistinct(es: seq<Event>) {
    forall k :: 0 <= k < |es| && es[k].Fetched? && es[k].response.Next? ==>
      IdsDistinct(es[k].response.value)
  }

  /** If the remote API never lists an id twice, the list never holds an id
      twice, however fetches and pushes interleave. */
  lemma {:induction false} RunKeepsIdsDistinct(s: ListState, es: seq<Event>)
    requires IdsDistinct(s.reports) && SnapshotsDistinct(es)
    ensures IdsDistinct(Run(s, es).reports)
    decreases |es|
  {
    if es != [] {
      if es[0].Pushed? && es[0].update.Some? {
        MergedKeepsIdsDistinct(s.reports, es[0].update.value);
      }
      assert SnapshotsDistinct(es[1..]) by {
        forall k | 0 <= k < |es[1..]| && es[1..][k].Fetched? && es[1..][k].response.Next?
          ensures IdsDistinct(es[1..][k].response.value)
        {
          assert es[1..][k] == es[k + 1];
        }
      }
      RunKeepsIdsDistinct(Step(s, es[0]), es[1..]);
    }
  }

  /** The end-to-end sequence of an empty list, a snapshot, an in-place update,
      a new job and a stale poll. */
  lemma ListScenario(j1: ReportJob, j2: ReportJob, j1b: ReportJob, j3: ReportJob)
    requires j1.id == "1" && j2.id == "2" && j1b.id == "1" && j3.id == "3"
    ensures var s1 := Step(ListState([], true), Fetched(false, Next([j1, j2])));
            var s2 := Step(s1, Pushed(Some(j1b)));
            var s3 := Step(s2, Pushed(Some(j3)));
            var s4 := Step(s3, Fetched(true, Next([j1, j2])));
            && s1 == ListState([j1, j2], false)
            && s2.reports == [j1b, j2]
            && s3.reports == [j3, j1b, j2]
            && s4.reports == [j1, j2]
  {
  }

  // ---------------------------------------------------------------------------
  // The component
  // ---------------------------------------------------------------------------

  class ReportListComponent {
    var reports: seq<ReportJob>
    var isLoading: bool

    function State(): ListState
      reads this
    {
      ListState(reports, isLoading)
    }

    /** The list starts empty and loading. */
    constructor ()
      ensures reports == [] && isLoading
    {
      reports := [];
      isLoading := true;
    }

    /** The answer of one fetch: data replaces the list; the loading flag is
        cleared by the initial load only, whether it succeeded or failed. */
    method FetchReports(isPolling: bool, response: Response<seq<ReportJob>>)
      modifies this
      ensures State() == Step(old(State()), Fetched(isPolling, response))
      ensures response.Next? ==> reports == response.value
      ensures response.Error? ==> reports == old(reports)
      ensures isLoading == (isPolling && old(isLoading))
    {
      match response {
        case Next(data) =>
          reports := data;
          if !isPolling {
            isLoading := false;
          }
        case Error =>
          if !isPolling {
            isLoading := false;
          }
      }
    }

    /** The one-off fetch at activation. */
    method InitialLoad(response: Response<seq<ReportJob>>)
      modifies this
      ensures State() == Step(old(State()), Fetched(false, response))
      ensures response.Next? ==> reports == response.value
      ensures response.Error? ==> reports == old(reports)
      ensures !isLoading
    {
      FetchReports(false, response);
    }

    /** One tick of the five-second poll. */
    method PollTick(response: Response<seq<ReportJob>>)
      modifies this
      ensures State() == Step(old(State()), Fetched(true, response))
      ensures response.Next? ==> reports == response.value
      ensures response.Error? ==> reports == old(reports)
      ensures isLoading == old(isLoading)
    {
      FetchReports(true, response);
    }

    /** Merge one pushed job into the list. */
    method UpdateReportList(job: ReportJob)
      modifies this
      ensures reports == Merged(old(reports), job)
      ensures isLoading == old(isLoading)
      ensures old(IdsDistinct(reports)) ==> IdsDistinct(reports)
    {
      if IdsDistinct(reports) {
        MergedKeepsIdsDistinct(reports, job);
      }
      reports := Merged(reports, job);
    }

    /** The effect on the push channel's current value: a null value is ignored. */
    method OnJobUpdate(update: Option<ReportJob>)
      modifies this
      ensures State() == Step(old(State()), Pushed(update))
      ensures update.None? ==> reports == old(reports)
      ensures update.Some? ==> reports == Merged(old(reports), update.value)
      ensures isLoading == old(isLoading)
    {
      if update.Some? {
        UpdateReportList(update.value);
      }
    }
  }
}
