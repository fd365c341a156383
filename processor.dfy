/**
 * The job pipeline of `JobProcessor` (src/services/jobProcessor.js):
 * fetch each category, tag the listings, filter by budget, cap, save each
 * job and push it to the GitHub project, keeping the one-bit sync ledger
 * (`github_synced`, `github_project_item_id`, `github_synced_at`) on the
 * job's row.
 *
 * The listing server, the GitHub API and the date functions are
 * parameters; a failing `INSERT OR REPLACE` is the `saveFails` oracle, and
 * `CURRENT_TIMESTAMP` is the `now` parameter.
 */
module Processor {
  import opened Common
  import opened Fastwork
  import opened Budget
  import opened Store
  import GitHubRules
  import opened GitHubService

  /** The processor's configuration: the budget minimum, the enabled category ids and `syncOnFetch`. */
  datatype Config = Config(minBudget: int, enabledCategories: seq<string>, syncOnFetch: bool)

  /** The budget minimum of the settings, in baht; the board and its statistics use it too. */
  const MinimumBudget := 5000

  /** The settings: minimum 5,000, all four categories, items created while fetching. */
  const Settings := Config(MinimumBudget, CategoryIds(JobCategories), true)

  /** `Math.ceil(a / b)` for a positive divisor. */
  function CeilDiv(a: int, b: int): (q: int)
    requires b > 0
    ensures (q - 1) * b < a <= q * b
  {
    -((-a) / b)
  }

  /** The page size asked of each category: `max(ceil(limit / n) + 10, 20)`. */
  function PageSizeFor(limit: int, n: int): (size: int)
    requires n > 0
    ensures size >= 20 && size >= CeilDiv(limit, n) + 10
    ensures size == 20 || size == CeilDiv(limit, n) + 10
  {
    Max(CeilDiv(limit, n) + 10, 20)
  }

  /** The options `processJobs` passes when fetching one category. */
  function CategoryOptions(pageSize: int, tagId: string): FetchOptions
  {
    NoOptions.(pageSize := Some(pageSize), tagIds := Some(TagList([tagId])))
  }

  /** `{ ...job, category: name, tag_id: id }` for every listing of a category. */
  function Tagged(jobs: seq<Listing>, tagId: string): (r: seq<Listing>)
    ensures |r| == |jobs|
    ensures forall i :: 0 <= i < |r| ==> r[i] == jobs[i].(category := GetCategoryName(tagId), tagId := tagId)
  {
    if jobs == [] then []
    else [jobs[0].(category := GetCategoryName(tagId), tagId := tagId)] + Tagged(jobs[1..], tagId)
  }

  /** What one category adds to `allJobs`: its tagged listings, or nothing when its fetch failed. */
  function Contribution(server: Params -> HttpReply, pageSize: int, tagId: string): seq<Listing>
  {
    var res := FetchOutcome(CategoryOptions(pageSize, tagId), server);
    if res.success then Tagged(res.jobs, tagId) else []
  }

  /** `allJobs` after fetching the given categories in order. */
  function Collected(server: Params -> HttpReply, pageSize: int, ids: seq<string>): (r: seq<Listing>)
    ensures forall j :: j in r ==> j.tagId in ids && j.category == GetCategoryName(j.tagId)
  {
    if ids == [] then []
    else Collected(server, pageSize, ids[..|ids| - 1]) + Contribution(server, pageSize, ids[|ids| - 1])
  }

  /**
   * Every collected listing comes from a category whose fetch succeeded
   * and carries that category's name and id; a failed category adds
   * nothing and later categories are still fetched.
   */
  lemma {:induction false} CollectedFromSuccesses(server: Params -> HttpReply, pageSize: int, ids: seq<string>, j: Listing)
    requires j in Collected(server, pageSize, ids)
    ensures exists id :: id in ids && FetchOutcome(CategoryOptions(pageSize, id), server).success
                         && j.tagId == id && j.category == GetCategoryName(id)
  {
    var init := ids[..|ids| - 1];
    var last := ids[|ids| - 1];
    if j in Collected(server, pageSize, init) {
      CollectedFromSuccesses(server, pageSize, init, j);
      var id :| id in init && FetchOutcome(CategoryOptions(pageSize, id), server).success && j.tagId == id && j.category == GetCategoryName(id);
      assert id in ids;
    } else {
      assert j in Contribution(server, pageSize, last);
      assert last in ids;
    }
  }

  /** The listings gathered are exactly as many as the successful fetches returned. */
  lemma {:induction false} CollectedLength(server: Params -> HttpReply, pageSize: int, ids: seq<string>)
    ensures |Collected(server, pageSize, ids)| == FetchedCount(server, pageSize, ids)
  {
    if ids != [] {
      CollectedLength(server, pageSize, ids[..|ids| - 1]);
    }
  }

  function FetchedCount(server: Params -> HttpReply, pageSize: int, ids: seq<string>): nat
  {
    if ids == [] then 0
    else
      var res := FetchOutcome(CategoryOptions(pageSize, ids[|ids| - 1]), server);
      FetchedCount(server, pageSize, ids[..|ids| - 1]) + (if res.success then |res.jobs| else 0)
  }

  /** The category loop of `processJobs`. */
  method CollectJobs(server: Params -> HttpReply, pageSize: int, ids: seq<string>) returns (allJobs: seq<Listing>)
    ensures allJobs == Collected(server, pageSize, ids)
  {
    allJobs := [];
    var i := 0;
    while i < |ids|
      invariant i <= |ids|
      invariant allJobs == Collected(server, pageSize, ids[..i])
    {
      var result := FetchJobs(CategoryOptions(pageSize, ids[i]), server);
      if result.success {
        allJobs := allJobs + Tagged(result.jobs, ids[i]);
      }
      assert ids[..i + 1][..i] == ids[..i];
      i := i + 1;
    }
    assert ids[..i] == ids;
  }

  /** The row `saveJob` writes for a listing: a fresh row with every bookkeeping column reset. */
  function RowFromListing(job: Listing): (r: JobRow)
    ensures r.id == job.id && r.raw == job
    ensures r.budget == ExtractBudget(job)
    ensures r.status == "pending" && r.kanbanStatus == "jobs" && r.notes == "" && r.priority == 0
    ensures r.githubSynced == 0 && r.githubItemId.None? && r.githubSyncedAt.None? && r.analysis.None?
    ensures r.title == (if job.title != "" then job.title else job.name)
    ensures r.category == (if job.category != "" then job.category else "Other")
  {
    JobRow(
      id := job.id,
      title := if job.title != "" then job.title else job.name,
      description := job.description,
      budget := ExtractBudget(job),
      currency := "THB",
      tagId := job.tagId,
      createdAt := job.createdAt,
      insertedAt := job.insertedAt,
      url := GenerateJobUrl(job.id),
      raw := job,
      status := "pending",
      kanbanStatus := "jobs",
      category := if job.category != "" then job.category else "Other",
      notes := "",
      priority := 0,
      githubSynced := 0,
      githubItemId := None,
      githubSyncedAt := None,
      analysis := None)
  }

  /** `isJobSyncedToGitHub`: the row exists, its flag is 1 and it holds a non-empty item id. */
  predicate IsJobSynced(rows: seq<JobRow>, id: string)
  {
    var row := FindRow(rows, id);
    row.Some? && row.value.githubSynced == 1 && row.value.githubItemId.Some? && row.value.githubItemId.value != ""
  }

  /**
   * Saving a job clears its ledger entry: right after `saveJob` the job
   * never counts as synced, whatever its row held before.
   */
  lemma ResaveClearsLedger(rows: seq<JobRow>, job: Listing)
    ensures !IsJobSynced(Upsert(rows, RowFromListing(job)), job.id)
  {
    UpsertReplaces(rows, RowFromListing(job));
  }

  /** `markJobAsSynced` with a non-empty item id makes an existing row count as synced. */
  lemma MarkSetsLedger(rows: seq<JobRow>, id: string, itemId: string, now: string)
    requires WellFormed(rows) && HasId(rows, id) && itemId != ""
    ensures IsJobSynced(UpdateWhere(rows, id, MarkSynced(Some(itemId), now)), id)
    ensures FindRow(UpdateWhere(rows, id, MarkSynced(Some(itemId), now)), id).value.githubItemId == Some(itemId)
  {
    var after := UpdateWhere(rows, id, MarkSynced(Some(itemId), now));
    var row := FindRow(after, id).value;
    var k :| 0 <= k < |after| && after[k] == row;
    assert rows[k].id == id;
  }

  /** `saveJob`: an `INSERT OR REPLACE` of the listing's row, or nothing when the statement fails. */
  method SaveJob(db: Database, job: Listing, saveFails: bool) returns (ok: bool)
    requires db.Valid()
    modifies db
    ensures db.Valid()
    ensures ok == !saveFails
    ensures ok ==> db.jobs == Upsert(old(db.jobs), RowFromListing(job)) && FindRow(db.jobs, job.id) == Some(RowFromListing(job))
    ensures !ok ==> db.jobs == old(db.jobs)
    ensures db.notifications == old(db.notifications)
  {
    if saveFails {
      return false;
    }
    db.Replace(RowFromListing(job));
    ok := true;
  }

  /** `markJobAsSynced`: sets the flag, the item id and the sync time of the row; answers the number of rows changed. */
  method MarkJobAsSynced(db: Database, id: string, itemId: string, now: string) returns (changes: nat)
    requires db.Valid()
    modifies db
    ensures db.Valid()
    ensures db.jobs == UpdateWhere(old(db.jobs), id, MarkSynced(Some(itemId), now))
    ensures changes == (if HasId(old(db.jobs), id) then 1 else 0)
    ensures db.notifications == old(db.notifications)
  {
    changes := db.Update(id, MarkSynced(Some(itemId), now));
  }

  /** What `saveJobToGitHub` answers. */
  datatype SyncResult =
    | NoService
    | AlreadySynced
    | Attempted(result: CreateResult, calls: seq<FieldCall>)
  {
    /** The `success` field of the answer; a skipped job counts as a success. */
    predicate Success()
    {
      AlreadySynced? || (Attempted? && result.Success())
    }
  }

  /** The job as `saveJobToGitHub` hands it to the GitHub service: the listing itself, not its saved row. */
  function SyncJob(job: Listing): (j: GitHubRules.GitHubJob)
    ensures j.id == job.id && j.title == job.title && j.description == job.description
    ensures j.category == job.category && j.insertedAt == job.insertedAt
    ensures j.budget == (if job.budget.Num? then job.budget.n else 0)
    ensures j.raw.None?
  {
    GitHubRules.FromListing(job)
  }

  /** The jobs table after `saveJobToGitHub` has created an item for a job that was not synced. */
  function AfterCreate(rows: seq<JobRow>, id: string, r: CreateResult, now: string): seq<JobRow>
  {
    if r.Success() then UpdateWhere(rows, id, MarkSynced(Some(r.projectItemId), now)) else rows
  }

  /**
   * `saveJobToGitHub`: no service, or a job already synced, changes
   * nothing; otherwise the item is created and, on success, the row is
   * marked synced with the new item id. The job is a fetched listing
   * when called from `processJobs` and a stored row from the sync route.
   */
  method SaveJobToGitHub(db: Database, svc: Option<ProjectsService>, api: GitHubApi, ops: GitHubRules.DateOps,
                         job: GitHubRules.GitHubJob, now: string) returns (r: SyncResult)
    requires db.Valid()
    modifies db
    ensures db.Valid() && db.notifications == old(db.notifications)
    ensures svc.None? ==> r == NoService && db.jobs == old(db.jobs)
    ensures svc.Some? && IsJobSynced(old(db.jobs), job.id) ==> r == AlreadySynced && db.jobs == old(db.jobs)
    ensures svc.Some? && !IsJobSynced(old(db.jobs), job.id) ==>
              && r.Attempted?
              && r.result == CreateOutcome(api, svc.value.projectNodeId, job)
              && db.jobs == AfterCreate(old(db.jobs), job.id, r.result, now)
  {
    if svc.None? {
      return NoService;
    }
    if IsJobSynced(db.jobs, job.id) {
      return AlreadySynced;
    }
    var result, calls := svc.value.CreateDraftIssue(api, ops, job);
    if result.Success() {
      var _ := MarkJobAsSynced(db, job.id, result.projectItemId, now);
    }
    r := Attempted(result, calls);
  }

  /** One job of the save loop: its row after `saveJob` and, when syncing, after `saveJobToGitHub`. */
  function SaveStep(rows: seq<JobRow>, job: Listing, saveFails: string -> bool, sync: Option<(GitHubApi, Option<string>)>, now: string): seq<JobRow>
  {
    if saveFails(job.id) then rows
    else
      var saved := Upsert(rows, RowFromListing(job));
      if sync.None? then saved
      else AfterCreate(saved, job.id, CreateOutcome(sync.value.0, sync.value.1, SyncJob(job)), now)
  }

  /** The jobs table after the save loop over `jobs`. */
  function SavedRows(rows: seq<JobRow>, jobs: seq<Listing>, saveFails: string -> bool, sync: Option<(GitHubApi, Option<string>)>, now: string): (r: seq<JobRow>)
    ensures jobs == [] ==> r == rows
  {
    if jobs == [] then rows
    else SaveStep(SavedRows(rows, jobs[..|jobs| - 1], saveFails, sync, now), jobs[|jobs| - 1], saveFails, sync, now)
  }
  /** Marking a created item changes no row's id. */
  lemma AfterCreateIds(rows: seq<JobRow>, id: string, r: CreateResult, now: string)
    ensures |AfterCreate(rows, id, r, now)| == |rows|
    ensures forall k :: 0 <= k < |rows| ==> AfterCreate(rows, id, r, now)[k].id == rows[k].id
  {
  }

  /** The rows of an upsert hold the upserted id and every id held before. */
  lemma UpsertIds(rows: seq<JobRow>, row: JobRow, id: string)
    requires HasId(rows, id) || id == row.id
    ensures HasId(Upsert(rows, row), id)
  {
    var u := Upsert(rows, row);
    if id == row.id {
      assert u[|u| - 1].id == id;
    } else {
      var k :| 0 <= k < |rows| && rows[k].id == id;
      assert rows[k] in u;
      var m :| 0 <= m < |u| && u[m] == rows[k];
    }
  }

  /** One step of the save loop keeps every stored id, and stores the job's id unless its save fails. */
  lemma SaveStepIds(rows: seq<JobRow>, job: Listing, saveFails: string -> bool,
                    sync: Option<(GitHubApi, Option<string>)>, now: string, id: string)
    requires HasId(rows, id) || (id == job.id && !saveFails(job.id))
    ensures HasId(SaveStep(rows, job, saveFails, sync, now), id)
  {
    if !saveFails(job.id) {
      var saved := Upsert(rows, RowFromListing(job));
      UpsertIds(rows, RowFromListing(job), id);
      if sync.Some? {
        var c := CreateOutcome(sync.value.0, sync.value.1, SyncJob(job));
        AfterCreateIds(saved, job.id, c, now);
        var k :| 0 <= k < |saved| && saved[k].id == id;
        assert AfterCreate(saved, job.id, c, now)[k].id == id;
      }
    }
  }

  /** The save loop never loses a stored id, and every job whose save went through is stored. */
  lemma {:induction false} SavedRowsIds(rows: seq<JobRow>, jobs: seq<Listing>, saveFails: string -> bool,
                                        sync: Option<(GitHubApi, Option<string>)>, now: string)
    ensures forall id :: HasId(rows, id) ==> HasId(SavedRows(rows, jobs, saveFails, sync, now), id)
    ensures forall k :: 0 <= k < |jobs| && !saveFails(jobs[k].id) ==> HasId(SavedRows(rows, jobs, saveFails, sync, now), jobs[k].id)
  {
    if jobs != [] {
      var init := jobs[..|jobs| - 1];
      var last := jobs[|jobs| - 1];
      SavedRowsIds(rows, init, saveFails, sync, now);
      var before := SavedRows(rows, init, saveFails, sync, now);
      forall id | HasId(rows, id) ensures HasId(SavedRows(rows, jobs, saveFails, sync, now), id) {
        SaveStepIds(before, last, saveFails, sync, now, id);
      }
      forall k | 0 <= k < |jobs| && !saveFails(jobs[k].id)
        ensures HasId(SavedRows(rows, jobs, saveFails, sync, now), jobs[k].id)
      {
        if k < |jobs| - 1 {
          assert jobs[k] == init[k];
        }
        SaveStepIds(before, last, saveFails, sync, now, jobs[k].id);
      }
    }
  }


  /** The number of jobs whose save went through. */
  function SavedCount(jobs: seq<Listing>, saveFails: string -> bool): nat
  {
    if jobs == [] then 0
    else SavedCount(jobs[..|jobs| - 1], saveFails) + (if saveFails(jobs[|jobs| - 1].id) then 0 else 1)
  }

  /** Whether syncing `job` creates its GitHub item. */
  predicate Creates(sync: Option<(GitHubApi, Option<string>)>, job: Listing)
  {
    sync.Some? && CreateOutcome(sync.value.0, sync.value.1, SyncJob(job)).Success()
  }

  /** The number of saved jobs for which the GitHub item was created. */
  function GithubCount(jobs: seq<Listing>, saveFails: string -> bool, sync: Option<(GitHubApi, Option<string>)>): nat
  {
    if jobs == [] then 0
    else
      var last := jobs[|jobs| - 1];
      GithubCount(jobs[..|jobs| - 1], saveFails, sync)
      + (if !saveFails(last.id) && Creates(sync, last) then 1 else 0)
  }

  /** A GitHub item is only ever counted for a job that was saved. */
  lemma {:induction false} GithubCountAtMostSaved(jobs: seq<Listing>, saveFails: string -> bool, sync: Option<(GitHubApi, Option<string>)>)
    ensures GithubCount(jobs, saveFails, sync) <= SavedCount(jobs, saveFails) <= |jobs|
  {
    if jobs != [] {
      GithubCountAtMostSaved(jobs[..|jobs| - 1], saveFails, sync);
    }
  }

  /** The table after the first `i + 1` jobs, in terms of the table after the first `i`. */
  lemma SavedRowsStep(rows: seq<JobRow>, jobs: seq<Listing>, i: nat, saveFails: string -> bool,
                      sync: Option<(GitHubApi, Option<string>)>, now: string)
    requires i < |jobs|
    ensures SavedRows(rows, jobs[..i + 1], saveFails, sync, now) == SaveStep(SavedRows(rows, jobs[..i], saveFails, sync, now), jobs[i], saveFails, sync, now)
  {
    assert jobs[..i + 1][..i] == jobs[..i] && jobs[..i + 1][i] == jobs[i];
  }

  /** The counters over the first `i + 1` jobs, in terms of those over the first `i`. */
  lemma SaveCountsStep(jobs: seq<Listing>, i: nat, saveFails: string -> bool, sync: Option<(GitHubApi, Option<string>)>)
    requires i < |jobs|
    ensures SavedCount(jobs[..i + 1], saveFails) == SavedCount(jobs[..i], saveFails) + (if saveFails(jobs[i].id) then 0 else 1)
    ensures GithubCount(jobs[..i + 1], saveFails, sync)
         == GithubCount(jobs[..i], saveFails, sync) + (if !saveFails(jobs[i].id) && Creates(sync, jobs[i]) then 1 else 0)
  {
    assert jobs[..i + 1][..i] == jobs[..i] && jobs[..i + 1][i] == jobs[i];
  }

  /** The counters of the save loop: saved jobs, created GitHub items, and create requests made. */
  datatype SaveCounts = SaveCounts(saved: nat, github: nat, creates: nat)

  /**
   * The save loop of `processJobs`. A failed save is logged and skipped;
   * because `saveJob` clears the ledger, every saved job is sent to
   * GitHub when syncing, so the create requests equal the saved jobs.
   */
  method SaveJobs(db: Database, svc: Option<ProjectsService>, api: GitHubApi, ops: GitHubRules.DateOps,
                  jobs: seq<Listing>, saveFails: string -> bool, now: string) returns (c: SaveCounts)
    requires db.Valid()
    modifies db
    ensures db.Valid()
    ensures db.jobs == SavedRows(old(db.jobs), jobs, saveFails, SyncOf(svc, api), now)
    ensures c.saved == SavedCount(jobs, saveFails)
    ensures c.github == GithubCount(jobs, saveFails, SyncOf(svc, api))
    ensures c.creates == if svc.Some? then c.saved else 0
  {
    c := SaveCounts(0, 0, 0);
    ghost var sync := SyncOf(svc, api);
    var i := 0;
    while i < |jobs|
      invariant i <= |jobs|
      invariant db.Valid() && SyncOf(svc, api) == sync
      invariant db.jobs == SavedRows(old(db.jobs), jobs[..i], saveFails, sync, now)
      invariant c.saved == SavedCount(jobs[..i], saveFails)
      invariant c.github == GithubCount(jobs[..i], saveFails, sync)
      invariant c.creates == if svc.Some? then c.saved else 0
    {
      c := SaveOne(db, svc, api, ops, jobs, i, saveFails, now, c, old(db.jobs), sync);
      i := i + 1;
    }
    assert jobs[..i] == jobs;
  }

  /**
   * One pass of the save loop, on the job at `i`: `saveJob`, then
   * `saveJobToGitHub` when syncing, with the counters of the first `i`
   * jobs moved on to the first `i + 1`.
   */
  method SaveOne(db: Database, svc: Option<ProjectsService>, api: GitHubApi, ops: GitHubRules.DateOps,
                 jobs: seq<Listing>, i: nat, saveFails: string -> bool, now: string, c: SaveCounts,
                 ghost start: seq<JobRow>, ghost sync: Option<(GitHubApi, Option<string>)>) returns (c': SaveCounts)
    requires db.Valid() && i < |jobs| && sync == SyncOf(svc, api)
    requires db.jobs == SavedRows(start, jobs[..i], saveFails, sync, now)
    requires c.saved == SavedCount(jobs[..i], saveFails)
    requires c.github == GithubCount(jobs[..i], saveFails, sync)
    requires c.creates == if svc.Some? then c.saved else 0
    modifies db
    ensures db.Valid() && SyncOf(svc, api) == sync
    ensures db.jobs == SavedRows(start, jobs[..i + 1], saveFails, sync, now)
    ensures c'.saved == SavedCount(jobs[..i + 1], saveFails)
    ensures c'.github == GithubCount(jobs[..i + 1], saveFails, sync)
    ensures c'.creates == if svc.Some? then c'.saved else 0
  {
    var saved, attempted, created := SaveAndSync(db, svc, api, ops, jobs, i, saveFails, now, start, sync);
    SaveCountsStep(jobs, i, saveFails, sync);
    c' := SaveCounts(c.saved + (if saved then 1 else 0),
                     c.github + (if created then 1 else 0),
                     c.creates + (if attempted then 1 else 0));
  }

  /**
   * The job at `i` is saved unless its save fails, and synced when there
   * is a service; the create request is attempted for every saved job,
   * because the save has just cleared its ledger.
   */
  method SaveAndSync(db: Database, svc: Option<ProjectsService>, api: GitHubApi, ops: GitHubRules.DateOps,
                     jobs: seq<Listing>, i: nat, saveFails: string -> bool, now: string,
                     ghost start: seq<JobRow>, ghost sync: Option<(GitHubApi, Option<string>)>)
      returns (saved: bool, attempted: bool, created: bool)
    requires db.Valid() && i < |jobs| && sync == SyncOf(svc, api)
    requires db.jobs == SavedRows(start, jobs[..i], saveFails, sync, now)
    modifies db
    ensures db.Valid() && SyncOf(svc, api) == sync
    ensures db.jobs == SavedRows(start, jobs[..i + 1], saveFails, sync, now)
    ensures saved == !saveFails(jobs[i].id)
    ensures attempted <==> saved && svc.Some?
    ensures created <==> saved && Creates(sync, jobs[i])
  {
    SavedRowsStep(start, jobs, i, saveFails, sync, now);
    var job := jobs[i];
    ghost var before := db.jobs;
    saved := SaveJob(db, job, saveFails(job.id));
    attempted, created := false, false;
    if saved && svc.Some? {
      ResaveClearsLedger(before, job);
      var gj := SyncJob(job);
      var r := SaveJobToGitHub(db, svc, api, ops, gj, now);
      attempted, created := r.Attempted?, r.Success();
    }
  }

  /** The API and the project node id the save loop syncs with, when there is a service. */
  function SyncOf(svc: Option<ProjectsService>, api: GitHubApi): Option<(GitHubApi, Option<string>)>
    reads if svc.Some? then {svc.value} else {}
  {
    if svc.Some? then Some((api, svc.value.projectNodeId)) else None
  }

  /** What `processJobs` returns (the capped eligible jobs) with its counters. */
  datatype ProcessReport = ProcessReport(jobs: seq<Listing>, fetched: seq<Listing>, counts: SaveCounts)

  /** The jobs `processJobs` processes: the eligible fetched jobs, capped with `slice(0, limit)`. */
  function ToProcess(fetched: seq<Listing>, minBudget: int, limit: int): (r: seq<Listing>)
    ensures r <= FilterJobsByBudget(fetched, minBudget)
    ensures limit >= 0 ==> |r| == Min(limit, |FilterJobsByBudget(fetched, minBudget)|)
  {
    SliceTo(FilterJobsByBudget(fetched, minBudget), limit)
  }

  /** Every processed job was fetched and meets the minimum (when there is one). */
  lemma ToProcessEligible(fetched: seq<Listing>, minBudget: int, limit: int, j: Listing)
    requires j in ToProcess(fetched, minBudget, limit)
    ensures j in fetched
    ensures minBudget != 0 ==> ExtractBudget(j) >= minBudget
  {
    var eligible := FilterJobsByBudget(fetched, minBudget);
    assert j in eligible by {
      var k :| 0 <= k < |ToProcess(fetched, minBudget, limit)| && ToProcess(fetched, minBudget, limit)[k] == j;
      assert eligible[k] == j;
    }
  }

  /**
   * `processJobs`: fetch the categories (the given ones, else the enabled
   * ones), keep the jobs meeting the minimum, cap them at `limit`,
   * initialise the GitHub service when syncing, then save and sync each.
   * The result is the capped list whatever happened to the saves.
   */
  method ProcessJobs(db: Database, cfg: Config, svc: Option<ProjectsService>, server: Params -> HttpReply,
                     api: GitHubApi, ops: GitHubRules.DateOps, limit: int, categories: Option<seq<string>>,
                     saveFails: string -> bool, now: string) returns (report: ProcessReport)
    requires db.Valid()
    modifies db, if svc.Some? then {svc.value} else {}
    ensures db.Valid()
    ensures var ids := if categories.Some? then categories.value else cfg.enabledCategories;
      (ids != [] ==> report.fetched == Collected(server, PageSizeFor(limit, |ids|), ids))
      && (ids == [] ==> report.fetched == [])
    ensures report.jobs == ToProcess(report.fetched, cfg.minBudget, limit)
    ensures report.counts.saved == SavedCount(report.jobs, saveFails)
    ensures cfg.syncOnFetch && svc.Some? ==>
              report.counts.creates == report.counts.saved
              && report.counts.github == GithubCount(report.jobs, saveFails, SyncOf(svc, api))
              && db.jobs == SavedRows(old(db.jobs), report.jobs, saveFails, SyncOf(svc, api), now)
    ensures !(cfg.syncOnFetch && svc.Some?) ==>
              report.counts.creates == 0 && report.counts.github == 0
              && db.jobs == SavedRows(old(db.jobs), report.jobs, saveFails, None, now)
    ensures svc.Some? ==>
              var reply := api.details(svc.value.owner, svc.value.projectNumber);
              if cfg.syncOnFetch && reply.ProjectFound? then
                && svc.value.projectNodeId == Some(reply.id)
                && svc.value.fieldIds == GitHubRules.FieldIdsAfter(old(svc.value.fieldIds), NamedPrefix(reply.nodes))
              else
                svc.value.projectNodeId == old(svc.value.projectNodeId) && svc.value.fieldIds == old(svc.value.fieldIds)
  {
    var ids := if categories.Some? then categories.value else cfg.enabledCategories;
    var fetched: seq<Listing> := [];
    if ids != [] {
      fetched := CollectJobs(server, PageSizeFor(limit, |ids|), ids);
    }
    var jobs := ToProcess(fetched, cfg.minBudget, limit);
    var target: Option<ProjectsService> := None;
    if cfg.syncOnFetch && svc.Some? {
      var _ := svc.value.Initialize(api);
      target := svc;
    }
    var counts := SaveJobs(db, target, api, ops, jobs, saveFails, now);
    if target.None? {
      GithubCountNoSync(jobs, saveFails);
    }
    report := ProcessReport(jobs, fetched, counts);
  }

  lemma {:induction false} GithubCountNoSync(jobs: seq<Listing>, saveFails: string -> bool)
    ensures GithubCount(jobs, saveFails, None) == 0
  {
    if jobs != [] {
      GithubCountNoSync(jobs[..|jobs| - 1], saveFails);
    }
  }

  /** `getUnanalyzedJobs`: the pending rows meeting the minimum, newest first. */
  function UnanalyzedJobs(rows: seq<JobRow>, minBudget: int): (r: seq<JobRow>)
    ensures forall x :: x in r <==> x in rows && x.status == "pending" && x.budget >= minBudget
    ensures SortedBy(ByCreatedDesc, r)
  {
    SelectOrdered(rows, (x: JobRow) => x.status == "pending" && x.budget >= minBudget, ByCreatedDesc)
  }
}
