/**
 * The stateful side of the GitHub Projects sync
 * (src/services/githubProjects.js): the service object with its project
 * node id and field-id table, `initialize`, `createDraftIssue` with its
 * issue branch, and `updateProjectItemFields`.
 *
 * The GitHub API is a parameter (`GitHubApi`): every request becomes a
 * function from its arguments to a reply, with HTTP and GraphQL errors
 * folded into the failure case.
 */
module GitHubService {
  import opened Common
  import opened GitHubRules

  /** The reply of the project-details query; a `None` node is a field none of the query's fragments matches (it has no name). */
  datatype DetailsReply = DetailsError(message: string) | NoProject | ProjectFound(id: string, nodes: seq<Option<FieldNode>>)

  datatype Reply<T> = Failure(message: string) | Success(value: T)

  datatype DraftItem = DraftItem(itemId: string, draftId: string)

  datatype CreatedIssue = CreatedIssue(id: int, number: int, url: string, nodeId: string)

  /** The GitHub API as the service uses it; `None` project ids are the unset `projectNodeId`. */
  datatype GitHubApi = GitHubApi(
    details: (string, nat) -> DetailsReply,
    addDraft: (Option<string>, string) -> Reply<DraftItem>,
    createIssue: (string, seq<string>) -> Reply<CreatedIssue>,
    addItem: (Option<string>, string) -> Reply<string>,
    setField: (Option<string>, string, string, FieldValue) -> bool)

  /** The result objects of `createDraftIssue`; `success` is true exactly for the first two. */
  datatype CreateResult =
    | DraftCreated(projectItemId: string, draftIssueId: string)
    | IssueCreated(projectItemId: string, issueId: int, issueNumber: int, issueUrl: string)
    | CreateFailed(error: string)
  {
    predicate Success() { !CreateFailed? }
  }

  /** One `updateProjectItemField` request: the field, the encoded value and whether it went through. */
  datatype FieldCall = FieldCall(fieldId: string, value: FieldValue, ok: bool)

  /** The names of the leading nodes up to the first nameless one. */
  function NamedPrefix(nodes: seq<Option<FieldNode>>): (r: seq<FieldNode>)
    ensures |r| <= |nodes|
    ensures forall k :: 0 <= k < |r| ==> nodes[k] == Some(r[k])
    ensures |r| == |nodes| || nodes[|r|].None?
  {
    if nodes == [] || nodes[0].None? then []
    else [nodes[0].value] + NamedPrefix(nodes[1..])
  }

  /**
   * The `forEach` over the field nodes: each named node updates the table;
   * a nameless node makes `toLowerCase` throw, which ends the scan.
   */
  method ScanFields(ids: map<Role, string>, nodes: seq<Option<FieldNode>>) returns (r: map<Role, string>, complete: bool)
    ensures r == FieldIdsAfter(ids, NamedPrefix(nodes))
    ensures complete <==> forall k :: 0 <= k < |nodes| ==> nodes[k].Some?
  {
    ghost var named := NamedPrefix(nodes);
    r := ids;
    var i := 0;
    while i < |nodes| && nodes[i].Some?
      invariant i <= |named|
      invariant r == FieldIdsAfter(ids, named[..i])
    {
      FieldIdsAfterPrefix(ids, named, i);
      r := RecordField(r, nodes[i].value);
      i := i + 1;
    }
    assert i == |named|;
    assert named[..i] == named;
    complete := i == |nodes|;
  }

  /** The scan over one more node records that node. */
  lemma FieldIdsAfterPrefix(ids: map<Role, string>, named: seq<FieldNode>, i: nat)
    requires i < |named|
    ensures FieldIdsAfter(ids, named[..i + 1]) == RecordField(FieldIdsAfter(ids, named[..i]), named[i])
  {
    assert named[..i + 1][..i] == named[..i];
  }

  /** The requests `updateProjectItemFields` makes for a list of planned updates, one per update. */
  function FieldCalls(api: GitHubApi, projectId: Option<string>, itemId: string, updates: seq<FieldUpdate>): (r: seq<FieldCall>)
    ensures |r| == |updates|
    ensures forall i :: 0 <= i < |r| ==> r[i].fieldId == updates[i].fieldId && r[i].value == EncodeFieldValue(updates[i].kind, updates[i].value)
    ensures forall i :: 0 <= i < |r| ==> r[i].ok == api.setField(projectId, itemId, r[i].fieldId, r[i].value)
  {
    if updates == [] then []
    else
      var u := updates[0];
      var v := EncodeFieldValue(u.kind, u.value);
      [FieldCall(u.fieldId, v, api.setField(projectId, itemId, u.fieldId, v))] + FieldCalls(api, projectId, itemId, updates[1..])
  }

  /**
   * What `createDraftIssue` answers, given the API's replies, the route
   * taken, the item title and the issue labels.
   */
  function CreateVia(api: GitHubApi, projectId: Option<string>, toIssue: bool, title: string, labels: seq<string>): (r: CreateResult)
    ensures r.IssueCreated? ==> toIssue && api.createIssue(title, labels).Success?
    ensures r.DraftCreated? ==> !toIssue && api.addDraft(projectId, title).Success?
    ensures toIssue && api.createIssue(title, labels).Failure? ==> r == CreateFailed(api.createIssue(title, labels).message)
  {
    if toIssue then
      match api.createIssue(title, labels)
      case Failure(m) => CreateFailed(m)
      case Success(issue) =>
        match api.addItem(projectId, issue.nodeId)
        case Failure(m) => CreateFailed(m)
        case Success(item) => IssueCreated(item, issue.id, issue.number, issue.url)
    else
      match api.addDraft(projectId, title)
      case Failure(m) => CreateFailed(m)
      case Success(d) => DraftCreated(d.itemId, d.draftId)
  }

  /** What `createDraftIssue` answers for a job. */
  function CreateOutcome(api: GitHubApi, projectId: Option<string>, job: GitHubJob): (r: CreateResult)
    ensures r.IssueCreated? ==> job.budget > 10000
    ensures r.DraftCreated? ==> job.budget <= 10000
  {
    CreateVia(api, projectId, RoutesToIssue(job), FormatJobTitle(job), Labels(job))
  }

  /** Each route succeeds exactly when every request on it did. */
  lemma CreateViaRouting(api: GitHubApi, projectId: Option<string>, toIssue: bool, title: string, labels: seq<string>)
    ensures var r := CreateVia(api, projectId, toIssue, title, labels);
      && (r.DraftCreated? ==> !toIssue && api.addDraft(projectId, title) == Success(DraftItem(r.projectItemId, r.draftIssueId)))
      && (r.IssueCreated? ==> toIssue)
      && (toIssue ==>
            var issue := api.createIssue(title, labels);
            !r.DraftCreated? && (r.Success() <==> (issue.Success? && api.addItem(projectId, issue.value.nodeId).Success?)))
      && (!toIssue ==> !r.IssueCreated? && (r.Success() <==> api.addDraft(projectId, title).Success?))
  {
  }

  /**
   * The routing of `createDraftIssue`: budgets above 10,000 become an
   * issue (created with the title and labels, then added as an item),
   * the others a draft item; the result succeeds exactly when every
   * request on its path did.
   */
  lemma CreateOutcomeRouting(api: GitHubApi, projectId: Option<string>, job: GitHubJob)
    ensures var r := CreateOutcome(api, projectId, job);
      && (r.DraftCreated? ==> !RoutesToIssue(job) && api.addDraft(projectId, FormatJobTitle(job)) == Success(DraftItem(r.projectItemId, r.draftIssueId)))
      && (r.IssueCreated? ==> RoutesToIssue(job))
      && (RoutesToIssue(job) ==>
            var issue := api.createIssue(FormatJobTitle(job), Labels(job));
            !r.DraftCreated? && (r.Success() <==> (issue.Success? && api.addItem(projectId, issue.value.nodeId).Success?)))
      && (!RoutesToIssue(job) ==> !r.IssueCreated? && (r.Success() <==> api.addDraft(projectId, FormatJobTitle(job)).Success?))
  {
    CreateViaRouting(api, projectId, RoutesToIssue(job), FormatJobTitle(job), Labels(job));
  }

  class ProjectsService {
    const owner: string
    const projectNumber: nat
    var projectNodeId: Option<string>
    var fieldIds: map<Role, string>

    /** The state right after construction: no project node id and no field ids yet. */
    constructor (ref: ProjectRef)
      ensures owner == ref.owner && projectNumber == ref.number
      ensures projectNodeId == None && fieldIds == map[]
    {
      owner := ref.owner;
      projectNumber := ref.number;
      projectNodeId := None;
      fieldIds := map[];
    }

    /**
     * `initialize` with `getProjectDetails`: records the project node id and
     * scans the field nodes. It answers true only when the whole scan ran; a
     * nameless node leaves the node id and the fields before it recorded.
     * The table is never reset, so ids from an earlier call persist.
     */
    method Initialize(api: GitHubApi) returns (ok: bool)
      modifies this
      ensures var reply := api.details(owner, projectNumber);
        && (!reply.ProjectFound? ==> !ok && projectNodeId == old(projectNodeId) && fieldIds == old(fieldIds))
        && (reply.ProjectFound? ==>
              && projectNodeId == Some(reply.id)
              && fieldIds == FieldIdsAfter(old(fieldIds), NamedPrefix(reply.nodes))
              && (ok <==> forall k :: 0 <= k < |reply.nodes| ==> reply.nodes[k].Some?))
    {
      var reply := api.details(owner, projectNumber);
      if !reply.ProjectFound? {
        return false;
      }
      projectNodeId := Some(reply.id);
      var ids, complete := ScanFields(fieldIds, reply.nodes);
      fieldIds := ids;
      ok := complete;
    }

    /**
     * `updateProjectItemFields`: one request per planned update, in plan
     * order; a failed request is logged and the next one is still made.
     */
    method UpdateProjectItemFields(api: GitHubApi, ops: DateOps, itemId: string, job: GitHubJob) returns (calls: seq<FieldCall>)
      ensures calls == FieldCalls(api, projectNodeId, itemId, PlannedUpdates(fieldIds, ops, job))
    {
      calls := SendFieldUpdates(api, projectNodeId, itemId, PlannedUpdates(fieldIds, ops, job));
    }

    /**
     * `createDraftIssue`: budgets above 10,000 go to `createGitHubIssue`
     * (a repository issue labelled with the category and tags, then added
     * to the project), the others become draft items. Once an item exists
     * its fields are updated; every failure becomes a failed result.
     */
    method CreateDraftIssue(api: GitHubApi, ops: DateOps, job: GitHubJob) returns (r: CreateResult, calls: seq<FieldCall>)
      ensures r == CreateOutcome(api, projectNodeId, job)
      ensures r.Success() ==> calls == FieldCalls(api, projectNodeId, r.projectItemId, PlannedUpdates(fieldIds, ops, job))
      ensures !r.Success() ==> calls == []
    {
      var title := FormatJobTitle(job);
      calls := [];
      if RoutesToIssue(job) {
        var issue := api.createIssue(title, Labels(job));
        if issue.Failure? {
          return CreateFailed(issue.message), [];
        }
        var item := api.addItem(projectNodeId, issue.value.nodeId);
        if item.Failure? {
          return CreateFailed(item.message), [];
        }
        calls := UpdateProjectItemFields(api, ops, item.value, job);
        r := IssueCreated(item.value, issue.value.id, issue.value.number, issue.value.url);
      } else {
        var draft := api.addDraft(projectNodeId, title);
        if draft.Failure? {
          return CreateFailed(draft.message), [];
        }
        calls := UpdateProjectItemFields(api, ops, draft.value.itemId, job);
        r := DraftCreated(draft.value.itemId, draft.value.draftId);
      }
    }
  }

  /** The request loop of `updateProjectItemFields`: every update is sent, whatever happened to the previous ones. */
  method SendFieldUpdates(api: GitHubApi, projectId: Option<string>, itemId: string, updates: seq<FieldUpdate>) returns (calls: seq<FieldCall>)
    ensures calls == FieldCalls(api, projectId, itemId, updates)
  {
    calls := [];
    var i := 0;
    while i < |updates|
      invariant i <= |updates|
      invariant calls == FieldCalls(api, projectId, itemId, updates[..i])
    {
      var u := updates[i];
      var v := EncodeFieldValue(u.kind, u.value);
      var ok := api.setField(projectId, itemId, u.fieldId, v);
      FieldCallsPrefix(api, projectId, itemId, updates, i);
      calls := calls + [FieldCall(u.fieldId, v, ok)];
      i := i + 1;
    }
    assert updates[..i] == updates;
  }

  /** The requests for one more planned update: that update's request follows. */
  lemma FieldCallsPrefix(api: GitHubApi, projectId: Option<string>, itemId: string, updates: seq<FieldUpdate>, i: nat)
    requires i < |updates|
    ensures var u := updates[i];
      FieldCalls(api, projectId, itemId, updates[..i + 1])
      == FieldCalls(api, projectId, itemId, updates[..i]) + [FieldCall(u.fieldId, EncodeFieldValue(u.kind, u.value),
                                                                       api.setField(projectId, itemId, u.fieldId, EncodeFieldValue(u.kind, u.value)))]
  {
    assert updates[..i + 1] == updates[..i] + [updates[i]];
    FieldCallsSnoc(api, projectId, itemId, updates[..i], updates[i]);
  }

  lemma {:induction false} FieldCallsSnoc(api: GitHubApi, projectId: Option<string>, itemId: string, updates: seq<FieldUpdate>, u: FieldUpdate)
    ensures FieldCalls(api, projectId, itemId, updates + [u])
         == FieldCalls(api, projectId, itemId, updates) + [FieldCall(u.fieldId, EncodeFieldValue(u.kind, u.value),
                                                                       api.setField(projectId, itemId, u.fieldId, EncodeFieldValue(u.kind, u.value)))]
  {
    var a := FieldCalls(api, projectId, itemId, updates + [u]);
    var b := FieldCalls(api, projectId, itemId, updates) + [FieldCall(u.fieldId, EncodeFieldValue(u.kind, u.value),
                                                               api.setField(projectId, itemId, u.fieldId, EncodeFieldValue(u.kind, u.value)))];
    assert |a| == |b|;
    forall i | 0 <= i < |a| ensures a[i] == b[i] {
      assert (updates + [u])[i] == if i < |updates| then updates[i] else u;
    }
  }

  /** The project node id a fresh service for `ref` holds once `initialize` has run. */
  function InitializedNodeId(api: GitHubApi, ref: ProjectRef): Option<string>
  {
    var reply := api.details(ref.owner, ref.number);
    if reply.ProjectFound? then Some(reply.id) else None
  }

  /** The constructor: a service for the URL's owner and project number, or `None` where it throws. */
  method NewProjectsService(url: string) returns (svc: Option<ProjectsService>)
    ensures svc.None? <==> ParseProjectUrl(url).None?
    ensures svc.Some? ==> fresh(svc.value) && svc.value.owner == ParseProjectUrl(url).value.owner
                          && svc.value.projectNumber == ParseProjectUrl(url).value.number
                          && svc.value.projectNodeId.None? && svc.value.fieldIds == map[]
  {
    var ref := ParseProjectUrl(url);
    if ref.None? {
      return None;
    }
    var s := new ProjectsService(ref.value);
    return Some(s);
  }
}
