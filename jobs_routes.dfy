/**
 * The job routes (src/server/routes/jobs.js): the filtered job list, the
 * kanban-status and notes updates, the manual fetch with its overrides,
 * the manual GitHub sync over the jobs not yet synced, and the sync
 * statistics.
 */
module JobsRoutes {
  import opened Common
  import opened Store
  import Fastwork
  import GitHubRules
  import opened GitHubService
  import Processor

  /** The query of `GET /`; an empty string is a filter that was not supplied. */
  datatype ListQuery = ListQuery(kanbanStatus: string, category: string, status: string, limit: Option<int>, offset: Option<int>)

  datatype FilterColumn = KanbanStatusColumn | CategoryColumn | StatusColumn

  /** One `AND column = ?` of the built query with its parameter. */
  datatype Condition = Condition(column: FilterColumn, value: string)

  function ColumnValue(row: JobRow, c: FilterColumn): string
  {
    match c
    case KanbanStatusColumn => row.kanbanStatus
    case CategoryColumn => row.category
    case StatusColumn => row.status
  }

  /** The conditions appended to `WHERE 1=1`: one per supplied filter, in the order kanban status, category, status. */
  function Conditions(q: ListQuery): (cs: seq<Condition>)
    ensures |cs| <= 3
    ensures forall c :: c in cs ==> c.value != ""
    ensures forall v :: Condition(KanbanStatusColumn, v) in cs <==> v != "" && v == q.kanbanStatus
    ensures forall v :: Condition(CategoryColumn, v) in cs <==> v != "" && v == q.category
    ensures forall v :: Condition(StatusColumn, v) in cs <==> v != "" && v == q.status
  {
    (if q.kanbanStatus != "" then [Condition(KanbanStatusColumn, q.kanbanStatus)] else [])
    + (if q.category != "" then [Condition(CategoryColumn, q.category)] else [])
    + (if q.status != "" then [Condition(StatusColumn, q.status)] else [])
  }

  predicate Satisfies(row: JobRow, cs: seq<Condition>)
  {
    forall c :: c in cs ==> ColumnValue(row, c.column) == c.value
  }

  /** The filter the list route means: every supplied filter must match, the others are ignored. */
  predicate MatchesQuery(row: JobRow, q: ListQuery)
    ensures q.kanbanStatus == "" && q.category == "" && q.status == "" ==> MatchesQuery(row, q)
    ensures q.kanbanStatus != "" && row.kanbanStatus != q.kanbanStatus ==> !MatchesQuery(row, q)
  {
    && (q.kanbanStatus == "" || row.kanbanStatus == q.kanbanStatus)
    && (q.category == "" || row.category == q.category)
    && (q.status == "" || row.status == q.status)
  }

  /** The built query selects exactly the rows the filters describe. */
  lemma ConditionsMeaning(row: JobRow, q: ListQuery)
    ensures Satisfies(row, Conditions(q)) <==> MatchesQuery(row, q)
  {
    var cs := Conditions(q);
    if q.kanbanStatus != "" { assert Condition(KanbanStatusColumn, q.kanbanStatus) in cs; }
    if q.category != "" { assert Condition(CategoryColumn, q.category) in cs; }
    if q.status != "" { assert Condition(StatusColumn, q.status) in cs; }
  }

  function LimitOf(q: ListQuery): int { if q.limit.Some? then q.limit.value else 100 }
  function OffsetOf(q: ListQuery): int { if q.offset.Some? then q.offset.value else 0 }

  /** `GET /`: the matching rows, newest first, then `LIMIT` (default 100) and `OFFSET` (default 0). */
  function ListJobs(rows: seq<JobRow>, q: ListQuery): (r: seq<JobRow>)
    ensures forall x :: x in r ==> x in rows && MatchesQuery(x, q)
    ensures SortedBy(ByCreatedDesc, r)
    ensures LimitOf(q) >= 0 ==> |r| <= LimitOf(q)
    ensures |r| == WindowLength(Count(rows, (x: JobRow) => MatchesQuery(x, q)), LimitOf(q), OffsetOf(q))
  {
    var sel := SelectOrdered(rows, (x: JobRow) => Satisfies(x, Conditions(q)), ByCreatedDesc);
    var r := LimitOffset(sel, LimitOf(q), OffsetOf(q));
    LimitOffsetWindow(ByCreatedDesc, sel, LimitOf(q), OffsetOf(q));
    MatchingCount(rows, q);
    assert forall x :: x in r ==> x in rows && MatchesQuery(x, q) by {
      forall x | x in r ensures x in rows && MatchesQuery(x, q) {
        ConditionsMeaning(x, q);
      }
    }
    r
  }

  /** The matching rows are as many as the rows the built query selects. */
  lemma MatchingCount(rows: seq<JobRow>, q: ListQuery)
    ensures |SelectOrdered(rows, (x: JobRow) => Satisfies(x, Conditions(q)), ByCreatedDesc)|
            == Count(rows, (x: JobRow) => MatchesQuery(x, q))
  {
    var p := (x: JobRow) => Satisfies(x, Conditions(q));
    forall x | x in rows ensures p(x) == MatchesQuery(x, q) {
      ConditionsMeaning(x, q);
    }
    FilterAgree(rows, p, (x: JobRow) => MatchesQuery(x, q));
    assert SelectOrdered(rows, p, ByCreatedDesc) == OrderBy(ByCreatedDesc, Filter(rows, p));
  }

  /** With the defaults and fewer than 100 rows, the list holds every matching row. */
  lemma ListJobsComplete(rows: seq<JobRow>, q: ListQuery, x: JobRow)
    requires OffsetOf(q) <= 0 && LimitOf(q) >= |rows|
    requires x in rows && MatchesQuery(x, q)
    ensures x in ListJobs(rows, q)
  {
    var p := (y: JobRow) => Satisfies(y, Conditions(q));
    var sel := SelectOrdered(rows, p, ByCreatedDesc);
    assert |sel| <= |rows| by {
      assert sel == OrderBy(ByCreatedDesc, Filter(rows, p));
    }
    ConditionsMeaning(x, q);
    assert x in sel;
    var r := LimitOffset(sel, LimitOf(q), OffsetOf(q));
    assert r == sel;
  }

  /** The responses of the update routes. */
  datatype Response = BadRequest(error: string) | NotFound | Done(message: string)

  /** `PATCH /:id/kanban-status`: only the four columns are accepted; an id with no row gives not-found. */
  method UpdateKanbanStatus(db: Database, id: string, kanbanStatus: string) returns (resp: Response)
    requires db.Valid()
    modifies db
    ensures db.Valid() && db.notifications == old(db.notifications)
    ensures !IsColumn(kanbanStatus) ==> resp == BadRequest("Invalid kanban status") && db.jobs == old(db.jobs)
    ensures IsColumn(kanbanStatus) ==> db.jobs == UpdateWhere(old(db.jobs), id, SetKanbanStatus(kanbanStatus))
    ensures IsColumn(kanbanStatus) ==> (resp == NotFound <==> !HasId(old(db.jobs), id))
    ensures IsColumn(kanbanStatus) && HasId(old(db.jobs), id) ==> resp == Done("Job status updated successfully")
  {
    if !IsColumn(kanbanStatus) {
      return BadRequest("Invalid kanban status");
    }
    var changes := db.Update(id, SetKanbanStatus(kanbanStatus));
    if changes == 0 {
      return NotFound;
    }
    resp := Done("Job status updated successfully");
  }

  /** `PATCH /:id/notes`: any notes are accepted; an id with no row gives not-found and changes nothing. */
  method UpdateNotes(db: Database, id: string, notes: string) returns (resp: Response)
    requires db.Valid()
    modifies db
    ensures db.Valid() && db.notifications == old(db.notifications)
    ensures db.jobs == UpdateWhere(old(db.jobs), id, SetNotes(notes))
    ensures resp == NotFound <==> !HasId(old(db.jobs), id)
    ensures resp != NotFound ==> resp == Done("Job notes updated successfully")
    ensures !HasId(old(db.jobs), id) ==> db.jobs == old(db.jobs)
  {
    var changes := db.Update(id, SetNotes(notes));
    if changes == 0 {
      return NotFound;
    }
    resp := Done("Job notes updated successfully");
  }

  /** The body of `POST /fetch`; absent fields take their defaults. */
  datatype FetchRequest = FetchRequest(categories: Option<seq<string>>, limit: Option<int>, minBudget: Option<int>)

  /** The categories fetched: those given, else all four. */
  function FetchCategories(req: FetchRequest): (ids: seq<string>)
    ensures req.categories.None? ==> ids == Fastwork.CategoryIds(Fastwork.JobCategories) && |ids| == 4
  {
    if req.categories.Some? then req.categories.value else Fastwork.CategoryIds(Fastwork.JobCategories)
  }

  function FetchLimit(req: FetchRequest): int { if req.limit.Some? then req.limit.value else 20 }

  /** The processor's configuration with the request's minimum, when one is given. */
  function FetchConfig(req: FetchRequest, base: Processor.Config): (c: Processor.Config)
    ensures c.minBudget == (if req.minBudget.Some? then req.minBudget.value else base.minBudget)
    ensures c.enabledCategories == base.enabledCategories && c.syncOnFetch == base.syncOnFetch
  {
    if req.minBudget.Some? then base.(minBudget := req.minBudget.value) else base
  }

  datatype FetchResponse =
    | FetchResponse(count: nat, jobs: seq<Fastwork.Listing>, categories: nat)
    | FetchFailed(error: string)

  /** The message of the error the service's constructor throws on a malformed project URL. */
  const InvalidProjectUrl := "Invalid GitHub project URL format"

  /**
   * `POST /fetch`: a fresh processor, whose constructor builds its own
   * GitHub service from the project URL and throws (a 500) when the URL
   * does not parse; otherwise a processor run with the request's
   * categories, limit and minimum. The response reports the capped job
   * list and the number of categories asked for.
   */
  method FetchRoute(db: Database, projectUrl: string, server: Fastwork.Params -> Fastwork.HttpReply, api: GitHubApi,
                    ops: GitHubRules.DateOps, req: FetchRequest, saveFails: string -> bool, now: string)
      returns (resp: FetchResponse)
    requires db.Valid()
    modifies db
    ensures db.Valid()
    ensures resp.FetchFailed? <==> GitHubRules.ParseProjectUrl(projectUrl).None?
    ensures resp.FetchFailed? ==> resp.error == InvalidProjectUrl && db.jobs == old(db.jobs)
    ensures resp.FetchResponse? ==>
      var ids := FetchCategories(req);
      var limit := FetchLimit(req);
      && (ids != [] ==> resp.jobs == Processor.ToProcess(Processor.Collected(server, Processor.PageSizeFor(limit, |ids|), ids),
                                                         FetchConfig(req, Processor.Settings).minBudget, limit))
      && (ids == [] ==> resp.jobs == [])
      && db.jobs == Processor.SavedRows(old(db.jobs), resp.jobs, saveFails,
                      if Processor.Settings.syncOnFetch
                      then Some((api, InitializedNodeId(api, GitHubRules.ParseProjectUrl(projectUrl).value)))
                      else None, now)
      && resp.count == |resp.jobs| && resp.categories == |ids|
  {
    var svc := NewProjectsService(projectUrl);
    if svc.None? {
      return FetchFailed(InvalidProjectUrl);
    }
    var ids := FetchCategories(req);
    var report := Processor.ProcessJobs(db, FetchConfig(req, Processor.Settings), svc, server, api, ops,
                                        FetchLimit(req), Some(ids), saveFails, now);
    resp := FetchResponse(|report.jobs|, report.jobs, |ids|);
  }

  /** The rows `POST /github/sync` considers: not synced, newest first, at most `limit`. */
  function SyncCandidates(rows: seq<JobRow>, limit: int): (r: seq<JobRow>)
    ensures forall x :: x in r ==> x in rows && x.githubSynced != 1
    ensures limit >= 0 ==> |r| <= limit
    ensures SortedBy(ByCreatedDesc, r)
    ensures UniqueIds(rows) ==> UniqueIds(r)
  {
    var sel := SelectOrdered(rows, NotSyncedRow, ByCreatedDesc);
    var r := LimitOffset(sel, limit, 0);
    assert UniqueIds(rows) ==> UniqueIds(r) by {
      if UniqueIds(rows) {
        SelectedUniqueIds(rows, NotSyncedRow, ByCreatedDesc);
        forall i, j | 0 <= i < j < |r| ensures r[i].id != r[j].id {
          assert r[i] == sel[i] && r[j] == sel[j];
        }
      }
    }
    assert SortedBy(ByCreatedDesc, r) by {
      forall i, j | 0 <= i < j < |r| ensures KeyLe(KeyOf(ByCreatedDesc, r[i]), KeyOf(ByCreatedDesc, r[j])) {
        assert r[i] == sel[i] && r[j] == sel[j];
      }
    }
    r
  }

  /** The sync route takes as many unsynced rows as there are, up to the limit. */
  lemma SyncCandidatesCount(rows: seq<JobRow>, limit: int)
    ensures |SyncCandidates(rows, limit)| == WindowLength(Count(rows, NotSyncedRow), limit, 0)
    ensures SyncCandidates(rows, limit) == SelectOrdered(rows, NotSyncedRow, ByCreatedDesc)[..|SyncCandidates(rows, limit)|]
  {
    var sel := SelectOrdered(rows, NotSyncedRow, ByCreatedDesc);
    assert sel == OrderBy(ByCreatedDesc, Filter(rows, NotSyncedRow));
    var r := SyncCandidates(rows, limit);
    assert r == LimitOffset(sel, limit, 0);
    assert forall i :: 0 <= i < |r| ==> r[i] == sel[i];
  }

  /** One entry of the sync route's `results`. */
  datatype SyncEntry = SyncEntry(jobId: string, jobTitle: string, result: Processor.SyncResult)
  {
    predicate Success() { result.Success() }
    predicate Skipped() { result.AlreadySynced? }
  }

  /** The result of creating an item for each row, in order. */
  function Outcomes(jobs: seq<JobRow>, api: GitHubApi, projectId: Option<string>): seq<CreateResult>
  {
    MapSeq((j: JobRow) => CreateOutcome(api, projectId, GitHubRules.FromRow(j)), jobs)
  }

  /** The creation results over one more row. */
  lemma OutcomesPrefix(jobs: seq<JobRow>, i: nat, api: GitHubApi, projectId: Option<string>)
    requires i < |jobs|
    ensures Outcomes(jobs[..i + 1], api, projectId)
         == Outcomes(jobs[..i], api, projectId) + [CreateOutcome(api, projectId, GitHubRules.FromRow(jobs[i]))]
  {
    MapSeqPrefix((j: JobRow) => CreateOutcome(api, projectId, GitHubRules.FromRow(j)), jobs, i);
  }

  /** The table after marking each row whose creation succeeded, given the creation results. */
  function Applied(rows: seq<JobRow>, jobs: seq<JobRow>, outs: seq<CreateResult>, now: string): seq<JobRow>
    requires |outs| == |jobs|
  {
    if jobs == [] then rows
    else
      var n := |jobs| - 1;
      Processor.AfterCreate(Applied(rows, jobs[..n], outs[..n], now), jobs[n].id, outs[n], now)
  }

  /** How many creation results succeeded. */
  function Successes(outs: seq<CreateResult>): (n: nat)
    ensures n <= |outs|
  {
    if outs == [] then 0
    else Successes(outs[..|outs| - 1]) + (if outs[|outs| - 1].Success() then 1 else 0)
  }

  /** The jobs table after the sync loop over rows none of which was synced. */
  function SyncedRows(rows: seq<JobRow>, jobs: seq<JobRow>, api: GitHubApi, projectId: Option<string>, now: string): seq<JobRow>
  {
    Applied(rows, jobs, Outcomes(jobs, api, projectId), now)
  }

  /** The number of rows whose item was created. */
  function CreatedCount(jobs: seq<JobRow>, api: GitHubApi, projectId: Option<string>): (n: nat)
    ensures n <= |jobs|
  {
    Successes(Outcomes(jobs, api, projectId))
  }

  /** Whether `initialize` answers true for a project-details reply. */
  predicate InitializeOk(reply: DetailsReply)
  {
    reply.ProjectFound? && forall k :: 0 <= k < |reply.nodes| ==> reply.nodes[k].Some?
  }

  datatype SyncReport =
    | Refused(error: string)
    | SyncDone(syncedCount: nat, skippedCount: nat, totalJobs: nat, results: seq<SyncEntry>)

  /**
   * `POST /github/sync`: select the unsynced rows, build the route's own
   * service from the project URL (its constructor throws, a 500, when the
   * URL does not parse), refuse when it cannot initialise, then build and
   * initialise a fresh processor's service and `saveJobToGitHub` each
   * row into the project that initialisation found. Since only unsynced
   * rows with distinct ids are selected, none is ever skipped.
   */
  method SyncToGitHub(db: Database, projectUrl: string, api: GitHubApi,
                      ops: GitHubRules.DateOps, limit: int, now: string) returns (rep: SyncReport)
    requires db.Valid()
    modifies db
    ensures db.Valid() && db.notifications == old(db.notifications)
    ensures GitHubRules.ParseProjectUrl(projectUrl).None? ==> rep == Refused(InvalidProjectUrl) && db.jobs == old(db.jobs)
    ensures GitHubRules.ParseProjectUrl(projectUrl).Some? ==>
      var ref := GitHubRules.ParseProjectUrl(projectUrl).value;
      && (rep.Refused? <==> !InitializeOk(api.details(ref.owner, ref.number)))
      && (rep.Refused? ==> rep.error == "Failed to initialize GitHub service" && db.jobs == old(db.jobs))
    ensures rep.SyncDone? ==>
      GitHubRules.ParseProjectUrl(projectUrl).Some? &&
      var ref := GitHubRules.ParseProjectUrl(projectUrl).value;
      var projectId := Some(api.details(ref.owner, ref.number).id);
      var jobs := SyncCandidates(old(db.jobs), limit);
      && rep.totalJobs == |jobs| && |rep.results| == |jobs|
      && rep.skippedCount == 0
      && rep.syncedCount == CreatedCount(jobs, api, projectId)
      && db.jobs == SyncedRows(old(db.jobs), jobs, api, projectId, now)
      && (forall i :: 0 <= i < |jobs| ==>
            && rep.results[i].jobId == jobs[i].id && rep.results[i].jobTitle == jobs[i].title && !rep.results[i].Skipped()
            && rep.results[i].result.Attempted?
            && rep.results[i].result.result == CreateOutcome(api, projectId, GitHubRules.FromRow(jobs[i])))
  {
    var jobs := SyncCandidates(db.jobs, limit);
    var routeSvc := NewProjectsService(projectUrl);
    if routeSvc.None? {
      return Refused(InvalidProjectUrl);
    }
    var initialized := routeSvc.value.Initialize(api);
    if !initialized {
      return Refused("Failed to initialize GitHub service");
    }
    var procSvc := new ProjectsService(GitHubRules.ParseProjectUrl(projectUrl).value);
    var _ := procSvc.Initialize(api);
    forall k | 0 <= k < |jobs| ensures FindRow(db.jobs, jobs[k].id) == Some(jobs[k]) {
      FindRowUnique(db.jobs, jobs[k]);
    }
    var synced, skipped, results := SyncRows(db, procSvc, api, ops, jobs, now);
    rep := SyncDone(synced, skipped, |jobs|, results);
  }

  /** An item created for one id leaves the row found under any other id as it was. */
  lemma AfterCreateKeepsOthers(rows: seq<JobRow>, id: string, r: CreateResult, now: string, other: string)
    requires other != id
    ensures FindRow(Processor.AfterCreate(rows, id, r, now), other) == FindRow(rows, other)
  {
    if r.Success() {
      FindRowUpdateOther(rows, other, id, MarkSynced(Some(r.projectItemId), now));
    }
  }

  /**
   * The state of the sync loop after `i` rows: each has its entry and its
   * creation result, the table holds their effect, and the rows still to
   * come are found unchanged.
   */
  predicate SyncedSoFar(rows: seq<JobRow>, start: seq<JobRow>, jobs: seq<JobRow>, i: nat, outs: seq<CreateResult>,
                        results: seq<SyncEntry>, api: GitHubApi, pid: Option<string>, now: string)
  {
    && i <= |jobs| && |outs| == i && |results| == i
    && rows == Applied(start, jobs[..i], outs, now)
    && (forall k :: 0 <= k < i ==>
          && results[k].jobId == jobs[k].id && results[k].jobTitle == jobs[k].title
          && results[k].result.Attempted? && results[k].result.result == outs[k])
    && outs == Outcomes(jobs[..i], api, pid)
    && (forall k :: i <= k < |jobs| ==> FindRow(rows, jobs[k].id) == Some(jobs[k]) && jobs[k].githubSynced != 1)
  }

  /** The loop of the sync route over rows that are all unsynced and have distinct ids. */
  method SyncRows(db: Database, procSvc: ProjectsService, api: GitHubApi, ops: GitHubRules.DateOps,
                  jobs: seq<JobRow>, now: string) returns (synced: nat, skipped: nat, results: seq<SyncEntry>)
    requires db.Valid() && UniqueIds(jobs)
    requires forall k :: 0 <= k < |jobs| ==> FindRow(db.jobs, jobs[k].id) == Some(jobs[k]) && jobs[k].githubSynced != 1
    modifies db
    ensures db.Valid() && db.notifications == old(db.notifications)
    ensures db.jobs == SyncedRows(old(db.jobs), jobs, api, procSvc.projectNodeId, now)
    ensures skipped == 0 && |results| == |jobs|
    ensures synced == CreatedCount(jobs, api, procSvc.projectNodeId)
    ensures forall i :: 0 <= i < |jobs| ==>
              && results[i].jobId == jobs[i].id && results[i].jobTitle == jobs[i].title && !results[i].Skipped()
              && results[i].result.Attempted?
              && results[i].result.result == CreateOutcome(api, procSvc.projectNodeId, GitHubRules.FromRow(jobs[i]))
  {
    synced := 0;
    skipped := 0;
    results := [];
    ghost var start := db.jobs;
    ghost var pid := procSvc.projectNodeId;
    ghost var outs: seq<CreateResult> := [];
    var i := 0;
    while i < |jobs|
      invariant db.Valid() && db.notifications == old(db.notifications) && skipped == 0
      invariant SyncedSoFar(db.jobs, start, jobs, i, outs, results, api, pid, now)
      invariant synced == Successes(outs)
    {
      var entry := SyncStep(db, procSvc, api, ops, jobs, i, now, start, outs, results);
      outs := outs + [entry.result.result];
      results := results + [entry];
      if entry.Success() && !entry.Skipped() {
        synced := synced + 1;
      } else if entry.Skipped() {
        // the route's `skippedCount++`: no selected row is ever already synced
        assert false;
      }
      i := i + 1;
    }
    SyncedSoFarDone(db.jobs, start, jobs, outs, results, api, pid, now);
  }

  /** At the end of the loop the state is the one the sync route promises. */
  lemma SyncedSoFarDone(rows: seq<JobRow>, start: seq<JobRow>, jobs: seq<JobRow>, outs: seq<CreateResult>,
                        results: seq<SyncEntry>, api: GitHubApi, pid: Option<string>, now: string)
    requires SyncedSoFar(rows, start, jobs, |jobs|, outs, results, api, pid, now)
    ensures outs == Outcomes(jobs, api, pid)
    ensures rows == SyncedRows(start, jobs, api, pid, now)
    ensures forall i :: 0 <= i < |jobs| ==>
              && results[i].jobId == jobs[i].id && results[i].jobTitle == jobs[i].title && !results[i].Skipped()
              && results[i].result.Attempted?
              && results[i].result.result == CreateOutcome(api, pid, GitHubRules.FromRow(jobs[i]))
  {
    assert jobs[..|jobs|] == jobs;
  }

  /** One pass of the sync loop: the row at `i` is sent and its entry recorded. */
  method SyncStep(db: Database, procSvc: ProjectsService, api: GitHubApi, ops: GitHubRules.DateOps,
                  jobs: seq<JobRow>, i: nat, now: string,
                  ghost start: seq<JobRow>, ghost outs: seq<CreateResult>, ghost results: seq<SyncEntry>)
    returns (entry: SyncEntry)
    requires db.Valid() && UniqueIds(jobs) && i < |jobs|
    requires SyncedSoFar(db.jobs, start, jobs, i, outs, results, api, procSvc.projectNodeId, now)
    modifies db
    ensures db.Valid() && db.notifications == old(db.notifications)
    ensures entry.result.Attempted? && !entry.Skipped()
    ensures Successes(outs + [entry.result.result]) == Successes(outs) + if entry.Success() then 1 else 0
    ensures SyncedSoFar(db.jobs, start, jobs, i + 1, outs + [entry.result.result], results + [entry],
                        api, procSvc.projectNodeId, now)
  {
    ghost var before := db.jobs;
    var job := jobs[i];
    var r := SyncOne(db, procSvc, api, ops, job, now);
    entry := SyncEntry(job.id, job.title, r);
    forall k | i < k < |jobs| ensures FindRow(db.jobs, jobs[k].id) == Some(jobs[k]) {
      AfterCreateKeepsOthers(before, job.id, r.result, now, jobs[k].id);
    }
    ghost var outs' := outs + [r.result];
    ghost var results' := results + [entry];
    assert jobs[..i + 1][..i] == jobs[..i] && jobs[..i + 1][i] == job;
    assert outs'[..i] == outs && outs'[i] == r.result;
    assert outs'[..|outs'| - 1] == outs;
    assert db.jobs == Applied(start, jobs[..i + 1], outs', now);
    OutcomesPrefix(jobs, i, api, procSvc.projectNodeId);
    forall k | 0 <= k < i + 1
      ensures && results'[k].jobId == jobs[k].id && results'[k].jobTitle == jobs[k].title
              && results'[k].result.Attempted? && results'[k].result.result == outs'[k]
    {
      if k < i {
        assert results'[k] == results[k] && outs'[k] == outs[k];
      }
    }
  }

  /** `saveJobToGitHub` on a row that is stored and not synced: the item is always attempted. */
  method SyncOne(db: Database, procSvc: ProjectsService, api: GitHubApi, ops: GitHubRules.DateOps, job: JobRow, now: string)
      returns (r: Processor.SyncResult)
    requires db.Valid() && FindRow(db.jobs, job.id) == Some(job) && job.githubSynced != 1
    modifies db
    ensures db.Valid() && db.notifications == old(db.notifications)
    ensures r.Attempted? && r.result == CreateOutcome(api, procSvc.projectNodeId, GitHubRules.FromRow(job))
    ensures db.jobs == Processor.AfterCreate(old(db.jobs), job.id, r.result, now)
  {
    r := Processor.SaveJobToGitHub(db, Some(procSvc), api, ops, GitHubRules.FromRow(job), now);
  }

  /** The figures of `GET /github/stats`. */
  datatype SyncStats = SyncStats(total: nat, synced: nat, unsynced: nat, syncPercentage: int)

  predicate IsSyncedRow(r: JobRow) { r.githubSynced == 1 }
  predicate NotSyncedRow(r: JobRow) { r.githubSynced != 1 }

  /** `Math.round(100 * synced / total)` taken exactly (halves round up), or 0 for an empty table. */
  function SyncPercentage(synced: nat, total: nat): (p: int)
    ensures total == 0 ==> p == 0
    ensures total > 0 ==> 2 * total * p <= 200 * synced + total < 2 * total * p + 2 * total
  {
    if total > 0 then (200 * synced + total) / (2 * total) else 0
  }

  /** A percentage of a part of the total lies between 0 and 100. */
  lemma SyncPercentageBounds(synced: nat, total: nat)
    requires synced <= total
    ensures 0 <= SyncPercentage(synced, total) <= 100
  {
    if total > 0 {
      var p := SyncPercentage(synced, total);
      assert total * (2 * p - 201) <= 0;
      assert total * (2 * p + 2) > 0;
    }
  }

  /** `GET /github/stats`: the table's size, its synced and unsynced rows, and the rounded share synced. */
  function GitHubStats(rows: seq<JobRow>): (st: SyncStats)
    ensures st.total == |rows| && st.total == st.synced + st.unsynced
    ensures 0 <= st.syncPercentage <= 100
    ensures st.synced == Count(rows, IsSyncedRow) && st.unsynced == Count(rows, NotSyncedRow)
    ensures st.syncPercentage == SyncPercentage(st.synced, st.total)
  {
    var synced := Count(rows, IsSyncedRow);
    CountSplit(rows);
    SyncPercentageBounds(synced, |rows|);
    SyncStats(|rows|, synced, Count(rows, NotSyncedRow), SyncPercentage(synced, |rows|))
  }

  /** Every row is either synced or not: the two counts add up to the table size. */
  lemma {:induction false} CountSplit(rows: seq<JobRow>)
    ensures Count(rows, IsSyncedRow) + Count(rows, NotSyncedRow) == |rows|
  {
    if rows != [] {
      CountSplit(rows[1..]);
    }
  }
}
