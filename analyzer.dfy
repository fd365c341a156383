/**
 * The job analyser (src/services/claudeAnalyzer.js): a job's prompt is
 * posted to the messages endpoint, the first content block's text is
 * stored as the row's analysis and the row moves from `pending` to
 * `analyzed`. The endpoint is an oracle from the prompt's fields to its
 * reply; the prompt's template text is not modelled, only the fields it
 * interpolates.
 */
module Analyzer {
  import opened Common
  import opened Store
  import Processor

  /** The message `analyzeJob` throws when no key is configured. */
  const MissingKey := "Claude API key not configured"

  /** The message of the `TypeError` raised when the reply has no content block. */
  const NoContent := "Cannot read properties of undefined (reading 'text')"

  /** The least budget `analyzeAllPendingJobs` considers. */
  const AnalysisMinBudget := 10000

  /** The fields `buildAnalysisPrompt` puts into its template. */
  datatype Prompt = Prompt(title: string, budget: int, description: string)

  /** What the messages endpoint does with a prompt: answers with its content blocks' texts, or fails. */
  datatype Reply = Answered(texts: seq<string>) | RequestFailed(message: string)

  /** The outcome of `analyzeJob`: thrown before any request, or the `{success, analysis | error}` it returns. */
  datatype AnalyzeResult = Thrown(message: string) | Analyzed(analysis: string) | AnalyzeFailed(error: string)

  function PromptOf(job: JobRow): Prompt
  {
    Prompt(job.title, job.budget, job.description)
  }

  /** `analyzeJob` as a value: no key throws; otherwise the first text block is the analysis. */
  function AnalysisOf(apiKey: string, post: Prompt -> Reply, job: JobRow): (r: AnalyzeResult)
    ensures r.Thrown? <==> apiKey == ""
    ensures r.Analyzed? ==> post(PromptOf(job)).Answered? && |post(PromptOf(job)).texts| > 0 && r.analysis == post(PromptOf(job)).texts[0]
  {
    if apiKey == "" then Thrown(MissingKey)
    else
      match post(PromptOf(job))
      case RequestFailed(m) => AnalyzeFailed(m)
      case Answered(texts) => if texts == [] then AnalyzeFailed(NoContent) else Analyzed(texts[0])
  }

  /**
   * Without a key nothing is requested and the call throws; with one the
   * job is analysed exactly when the endpoint answers with at least one
   * content block, and the analysis is the first block's text.
   */
  lemma AnalysisOutcomes(apiKey: string, post: Prompt -> Reply, job: JobRow)
    ensures var r := AnalysisOf(apiKey, post, job);
      && (r.Thrown? <==> apiKey == "")
      && (r.Thrown? ==> r.message == MissingKey)
      && (r.Analyzed? <==> apiKey != "" && post(PromptOf(job)).Answered? && post(PromptOf(job)).texts != [])
      && (r.Analyzed? ==> r.analysis == post(PromptOf(job)).texts[0])
      && (r.AnalyzeFailed? && post(PromptOf(job)).RequestFailed? ==> r.error == post(PromptOf(job)).message)
  {
  }

  /** The table after one `analyzeJob`: only a successful analysis is saved. */
  function AfterAnalysis(rows: seq<JobRow>, id: string, r: AnalyzeResult): (after: seq<JobRow>)
    ensures |after| == |rows|
    ensures !r.Analyzed? ==> after == rows
    ensures forall i :: 0 <= i < |rows| && rows[i].id != id ==> after[i] == rows[i]
    ensures r.Analyzed? ==> forall i :: 0 <= i < |rows| && rows[i].id == id ==>
              after[i].status == "analyzed" && after[i].analysis == Some(r.analysis)
  {
    if r.Analyzed? then UpdateWhere(rows, id, SetAnalysis(r.analysis)) else rows
  }

  /** The prompts posted for `jobs`: one per job when there is a key, none otherwise. */
  function Posted(apiKey: string, jobs: seq<JobRow>): (ps: seq<Prompt>)
    ensures apiKey == "" ==> ps == []
    ensures apiKey != "" ==> |ps| == |jobs| && forall k :: 0 <= k < |jobs| ==> ps[k] == PromptOf(jobs[k])
  {
    if apiKey == "" then [] else seq(|jobs|, k requires 0 <= k < |jobs| => PromptOf(jobs[k]))
  }

  /** The rows `analyzeAllPendingJobs` selects: pending, budget at least 10,000, newest first. */
  function PendingForAnalysis(rows: seq<JobRow>): (r: seq<JobRow>)
    ensures forall x :: x in r <==> x in rows && x.status == "pending" && x.budget >= AnalysisMinBudget
    ensures SortedBy(ByCreatedDesc, r)
  {
    Processor.UnanalyzedJobs(rows, AnalysisMinBudget)
  }

  /** The table after analysing `jobs` in order. */
  function AnalyzedAll(rows: seq<JobRow>, jobs: seq<JobRow>, apiKey: string, post: Prompt -> Reply): seq<JobRow>
  {
    if jobs == [] then rows
    else
      var last := jobs[|jobs| - 1];
      AfterAnalysis(AnalyzedAll(rows, jobs[..|jobs| - 1], apiKey, post), last.id, AnalysisOf(apiKey, post, last))
  }

  /**
   * `getAnalyzedJobs`: the rows whose status is `analyzed`, most recently
   * processed first. `processed_at` is the time a row was last inserted,
   * and `INSERT OR REPLACE` appends, so this is reverse table order.
   */
  function AnalyzedJobs(rows: seq<JobRow>): (r: seq<JobRow>)
    ensures forall x :: x in r <==> x in rows && x.status == "analyzed"
    ensures |r| == Count(rows, IsAnalyzed)
    ensures forall x :: multiset(r)[x] == if x.status == "analyzed" then multiset(rows)[x] else 0
  {
    if rows == [] then []
    else
      var init, last := rows[..|rows| - 1], rows[|rows| - 1];
      assert rows == init + [last];
      CountSnoc(init, last, IsAnalyzed);
      (if last.status == "analyzed" then [last] else []) + AnalyzedJobs(init)
  }

  predicate IsAnalyzed(x: JobRow) { x.status == "analyzed" }

  /** The row stored last is listed first when it is analysed, ahead of all earlier rows. */
  lemma AnalyzedJobsLatestFirst(rows: seq<JobRow>, x: JobRow)
    ensures AnalyzedJobs(rows + [x]) == (if x.status == "analyzed" then [x] else []) + AnalyzedJobs(rows)
  {
    assert (rows + [x])[..|rows|] == rows;
  }

  /** `saveAnalysis` stores the text and moves the row to `analyzed`; other rows are untouched. */
  lemma SaveAnalysisEffect(rows: seq<JobRow>, jobId: string, analysis: string)
    ensures var after := UpdateWhere(rows, jobId, SetAnalysis(analysis));
      forall i :: 0 <= i < |rows| ==>
        if rows[i].id == jobId then after[i] == rows[i].(status := "analyzed", analysis := Some(analysis))
        else after[i] == rows[i]
  {
  }

  /** An analysed job leaves the pending selection and joins `getAnalyzedJobs`. */
  lemma AnalysisLeavesPending(rows: seq<JobRow>, x: JobRow, analysis: string)
    requires x in rows
    ensures var after := UpdateWhere(rows, x.id, SetAnalysis(analysis));
      && (forall y :: y in PendingForAnalysis(after) ==> y.id != x.id)
      && x.(status := "analyzed", analysis := Some(analysis)) in AnalyzedJobs(after)
  {
    LeavesPending(rows, x.id, analysis);
    JoinsAnalyzed(rows, x, analysis);
  }

  /** After saving an analysis no row with the id is pending any more. */
  lemma LeavesPending(rows: seq<JobRow>, id: string, analysis: string)
    ensures forall y :: y in PendingForAnalysis(UpdateWhere(rows, id, SetAnalysis(analysis))) ==> y.id != id
  {
    var after := UpdateWhere(rows, id, SetAnalysis(analysis));
    AnalyzedUnderId(rows, id, analysis);
    forall y | y in PendingForAnalysis(after) ensures y.id != id {
      assert y in after && y.status == "pending";
    }
  }

  /** The analysed row is among the analysed jobs afterwards. */
  lemma JoinsAnalyzed(rows: seq<JobRow>, x: JobRow, analysis: string)
    requires x in rows
    ensures x.(status := "analyzed", analysis := Some(analysis)) in AnalyzedJobs(UpdateWhere(rows, x.id, SetAnalysis(analysis)))
  {
    var after := UpdateWhere(rows, x.id, SetAnalysis(analysis));
    var done := x.(status := "analyzed", analysis := Some(analysis));
    var k :| 0 <= k < |rows| && rows[k] == x;
    assert after[k] == ApplyUpdate(x, SetAnalysis(analysis)) == done;
    assert done in after && done.status == "analyzed";
  }

  /** After saving an analysis every row with the id is `analyzed`. */
  lemma AnalyzedUnderId(rows: seq<JobRow>, id: string, analysis: string)
    ensures forall y :: y in UpdateWhere(rows, id, SetAnalysis(analysis)) && y.id == id ==> y.status == "analyzed"
  {
    var after := UpdateWhere(rows, id, SetAnalysis(analysis));
    forall y | y in after && y.id == id
      ensures y.status == "analyzed"
    {
      var k :| 0 <= k < |after| && after[k] == y;
      var r := rows[k];
      assert after[k] == if r.id == id then ApplyUpdate(r, SetAnalysis(analysis)) else r;
    }
  }

  /** Without a key every analysis throws, so a whole run leaves the table as it was. */
  lemma {:induction false} NoKeyNoChange(rows: seq<JobRow>, jobs: seq<JobRow>, post: Prompt -> Reply)
    ensures AnalyzedAll(rows, jobs, "", post) == rows
  {
    if jobs != [] {
      NoKeyNoChange(rows, jobs[..|jobs| - 1], post);
    }
  }

  class ClaudeAnalyzer {
    const apiKey: string

    constructor (apiKey: string)
      ensures this.apiKey == apiKey
    {
      this.apiKey := apiKey;
    }

    /**
     * `analyzeJob`: without a key it throws before any request; otherwise
     * it posts the prompt once and, on an answer with content, saves the
     * analysis.
     */
    method AnalyzeJob(db: Database, post: Prompt -> Reply, job: JobRow) returns (r: AnalyzeResult, posted: seq<Prompt>)
      requires db.Valid()
      modifies db
      ensures db.Valid() && db.notifications == old(db.notifications)
      ensures r == AnalysisOf(apiKey, post, job)
      ensures posted == Posted(apiKey, [job])
      ensures db.jobs == AfterAnalysis(old(db.jobs), job.id, r)
    {
      if apiKey == "" {
        return Thrown(MissingKey), [];
      }
      posted := [PromptOf(job)];
      var reply := post(PromptOf(job));
      if reply.RequestFailed? {
        return AnalyzeFailed(reply.message), posted;
      }
      if reply.texts == [] {
        return AnalyzeFailed(NoContent), posted;
      }
      var analysis := reply.texts[0];
      var _ := SaveAnalysis(db, job.id, analysis);
      r := Analyzed(analysis);
    }

    /** `saveAnalysis`: the update by id, with the number of rows it changed. */
    method SaveAnalysis(db: Database, jobId: string, analysis: string) returns (changes: nat)
      requires db.Valid()
      modifies db
      ensures db.Valid() && db.notifications == old(db.notifications)
      ensures db.jobs == UpdateWhere(old(db.jobs), jobId, SetAnalysis(analysis))
      ensures changes == if HasId(old(db.jobs), jobId) then 1 else 0
    {
      changes := db.Update(jobId, SetAnalysis(analysis));
    }

    /** One pass of the loop of `analyzeAllPendingJobs`, on the row at `i`. */
    method AnalyzeNext(db: Database, post: Prompt -> Reply, jobs: seq<JobRow>, i: nat, ghost start: seq<JobRow>)
        returns (sent: seq<Prompt>)
      requires db.Valid() && i < |jobs|
      requires db.jobs == AnalyzedAll(start, jobs[..i], apiKey, post)
      modifies db
      ensures db.Valid() && db.notifications == old(db.notifications)
      ensures db.jobs == AnalyzedAll(start, jobs[..i + 1], apiKey, post)
      ensures Posted(apiKey, jobs[..i]) + sent == Posted(apiKey, jobs[..i + 1])
    {
      assert jobs[..i + 1][..i] == jobs[..i] && jobs[..i + 1][i] == jobs[i];
      var _, s := AnalyzeJob(db, post, jobs[i]);
      sent := s;
    }

    /** `getAnalyzedJobs`. */
    method GetAnalyzedJobs(db: Database) returns (rows: seq<JobRow>)
      ensures rows == AnalyzedJobs(db.jobs)
      ensures forall x :: x in rows <==> x in db.jobs && x.status == "analyzed"
    {
      rows := AnalyzedJobs(db.jobs);
    }

    /**
     * `analyzeAllPendingJobs`: every selected row is analysed in turn, a
     * failure or a throw does not stop the loop, and the result is the
     * number of rows selected.
     */
    method AnalyzeAllPendingJobs(db: Database, post: Prompt -> Reply) returns (count: nat, posted: seq<Prompt>)
      requires db.Valid()
      modifies db
      ensures db.Valid() && db.notifications == old(db.notifications)
      ensures count == |PendingForAnalysis(old(db.jobs))|
      ensures posted == Posted(apiKey, PendingForAnalysis(old(db.jobs)))
      ensures db.jobs == AnalyzedAll(old(db.jobs), PendingForAnalysis(old(db.jobs)), apiKey, post)
    {
      var pendingJobs := PendingForAnalysis(db.jobs);
      ghost var start := db.jobs;
      posted := [];
      var i := 0;
      while i < |pendingJobs|
        invariant i <= |pendingJobs|
        invariant db.Valid() && db.notifications == old(db.notifications)
        invariant db.jobs == AnalyzedAll(start, pendingJobs[..i], apiKey, post)
        invariant posted == Posted(apiKey, pendingJobs[..i])
      {
        var sent := AnalyzeNext(db, post, pendingJobs, i, start);
        posted := posted + sent;
        i := i + 1;
      }
      assert pendingJobs[..i] == pendingJobs;
      count := |pendingJobs|;
    }
  }
}
