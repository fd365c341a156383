/**
 * The maintenance script that empties the GitHub project
 * (scripts/clearGitHubProject.js): it builds and initialises the projects
 * service, pages through every project item with a cursor, then deletes
 * the items one by one and reports how many deletions went through.
 *
 * The two GraphQL requests of the script are parameters: `list` answers
 * the items query for an owner, a project number and a cursor, and
 * `delete` answers the delete mutation for a project node id and an item
 * id. A failed request (HTTP or GraphQL error, or a reply without the
 * expected objects) is the failure case of the reply.
 */
module ClearProject {
  import opened Common
  import GitHubRules
  import opened GitHubService

  /** The message the script throws when `initialize` answers false. */
  const InitFailedMessage := "Failed to initialize GitHub service"

  /** The message the service's constructor throws for a URL it cannot parse. */
  const InvalidUrlMessage := "Invalid GitHub project URL format"

  /** A node of the items query; only its id is used. */
  datatype ProjectItem = ProjectItem(id: string)

  /** One page of the items query: its nodes, `hasNextPage` and `endCursor` (`None` for a null cursor). */
  datatype PageReply = PageFailed(message: string) | Page(nodes: seq<ProjectItem>, more: bool, endCursor: Option<string>)
  {
    /** A reply after which the paging loop stops: a throw, or a page without a next page. */
    predicate Last() { PageFailed? || !more }
  }

  /** The reply to the delete mutation: its `deletedItemId`, or a failure. */
  datatype DeleteReply = DeleteFailed(message: string) | DeleteAnswer(deletedItemId: Option<string>)

  datatype ClearApi = ClearApi(
    github: GitHubApi,
    list: (string, nat, Option<string>) -> PageReply,
    delete: (Option<string>, string) -> DeleteReply)

  /** What `getAllProjectItems` ends with; `Unfinished` is a run still paging when the request budget is spent. */
  datatype Listing = Listed(items: seq<ProjectItem>) | ListFailed(message: string) | Unfinished

  /**
   * How a run of the script ends: the caught error that exits with status 1,
   * the early return on an empty project, the summary of the deletions, or
   * a listing still paging when the request budget is spent.
   */
  datatype ClearOutcome = Exited(message: string) | AlreadyEmpty | Cleared(deleted: nat, total: nat) | StillPaging

  // ---------------------------------------------------------------------------
  // Paging

  /**
   * `cursors` are the `after` values of successive requests that follow the
   * pages: the first is null and each next one is the `endCursor` of a page
   * that had a next page.
   */
  predicate Linked(list: (string, nat, Option<string>) -> PageReply, owner: string, number: nat, cursors: seq<Option<string>>)
  {
    && (cursors != [] ==> cursors[0] == None)
    && forall k :: 0 <= k < |cursors| - 1 ==>
         list(owner, number, cursors[k]).Page? && list(owner, number, cursors[k]).more
         && cursors[k + 1] == list(owner, number, cursors[k]).endCursor
  }

  /**
   * The whole run of the paging loop within a budget of `fuel` requests:
   * linked, the first request made whenever the budget allows one, and
   * stopped only at a last reply or when the budget is spent.
   */
  predicate CursorChain(list: (string, nat, Option<string>) -> PageReply, owner: string, number: nat, fuel: nat,
                        cursors: seq<Option<string>>)
  {
    && Linked(list, owner, number, cursors)
    && |cursors| <= fuel
    && (fuel > 0 ==> cursors != [])
    && (cursors != [] && !list(owner, number, cursors[|cursors| - 1]).Last() ==> |cursors| == fuel)
  }

  /** The nodes of the pages answered to `cursors`, page after page. */
  function PagesNodes(list: (string, nat, Option<string>) -> PageReply, owner: string, number: nat,
                      cursors: seq<Option<string>>): seq<ProjectItem>
  {
    if cursors == [] then []
    else
      var reply := list(owner, number, cursors[|cursors| - 1]);
      PagesNodes(list, owner, number, cursors[..|cursors| - 1]) + (if reply.Page? then reply.nodes else [])
  }

  /** The listing a run of the paging loop produces, read off its last reply. */
  function ListingOf(list: (string, nat, Option<string>) -> PageReply, owner: string, number: nat,
                     cursors: seq<Option<string>>): (r: Listing)
    ensures r.Listed? ==> r.items == PagesNodes(list, owner, number, cursors)
    ensures r.ListFailed? ==> cursors != [] && list(owner, number, cursors[|cursors| - 1]) == PageFailed(r.message)
    ensures cursors == [] ==> r.Unfinished?
    ensures cursors != [] ==> var last := list(owner, number, cursors[|cursors| - 1]);
      && (r.Listed? <==> last.Page? && !last.more)
      && (r.ListFailed? <==> last.PageFailed?)
  {
    if cursors == [] then Unfinished
    else
      match list(owner, number, cursors[|cursors| - 1])
      case PageFailed(m) => ListFailed(m)
      case Page(_, more, _) => if more then Unfinished else Listed(PagesNodes(list, owner, number, cursors))
  }

  /** A request with the cursor the last reply announced extends a linked run by one page. */
  lemma LinkedSnoc(list: (string, nat, Option<string>) -> PageReply, owner: string, number: nat,
                   cursors: seq<Option<string>>, cursor: Option<string>)
    requires Linked(list, owner, number, cursors)
    requires cursors == [] ==> cursor == None
    requires cursors != [] ==> var reply := list(owner, number, cursors[|cursors| - 1]);
      reply.Page? && reply.more && cursor == reply.endCursor
    ensures Linked(list, owner, number, cursors + [cursor])
    ensures var reply := list(owner, number, cursor);
      PagesNodes(list, owner, number, cursors + [cursor])
      == PagesNodes(list, owner, number, cursors) + (if reply.Page? then reply.nodes else [])
  {
    var next := cursors + [cursor];
    assert next[..|cursors|] == cursors;
    forall k | 0 <= k < |next| - 1
      ensures list(owner, number, next[k]).Page? && list(owner, number, next[k]).more
      ensures next[k + 1] == list(owner, number, next[k]).endCursor
    {
      assert next[k] == cursors[k];
    }
  }

  /** The paging loop is deterministic: there is only one run within a given budget. */
  lemma CursorChainUnique(list: (string, nat, Option<string>) -> PageReply, owner: string, number: nat, fuel: nat,
                          a: seq<Option<string>>, b: seq<Option<string>>)
    requires CursorChain(list, owner, number, fuel, a) && CursorChain(list, owner, number, fuel, b)
    ensures a == b
  {
    SameLinks(list, owner, number, a, b);
    if |a| < |b| {
      ShortChain(list, owner, number, fuel, a, b);
    } else if |b| < |a| {
      ShortChain(list, owner, number, fuel, b, a);
    }
  }

  /** Two linked runs agree wherever both are defined. */
  lemma SameLinks(list: (string, nat, Option<string>) -> PageReply, owner: string, number: nat,
                  a: seq<Option<string>>, b: seq<Option<string>>)
    requires Linked(list, owner, number, a) && Linked(list, owner, number, b)
    ensures forall k :: 0 <= k < |a| && k < |b| ==> a[k] == b[k]
  {
    forall k | 0 <= k < |a| && k < |b|
      ensures a[k] == b[k]
    {
      SameLinkAt(list, owner, number, a, b, k);
    }
  }

  lemma {:induction false} SameLinkAt(list: (string, nat, Option<string>) -> PageReply, owner: string, number: nat,
                                      a: seq<Option<string>>, b: seq<Option<string>>, k: nat)
    requires Linked(list, owner, number, a) && Linked(list, owner, number, b)
    requires k < |a| && k < |b|
    ensures a[k] == b[k]
    decreases k
  {
    if k > 0 {
      SameLinkAt(list, owner, number, a, b, k - 1);
    }
  }

  /** A complete run cannot be a proper prefix of another complete run. */
  lemma ShortChain(list: (string, nat, Option<string>) -> PageReply, owner: string, number: nat, fuel: nat,
                   a: seq<Option<string>>, b: seq<Option<string>>)
    requires CursorChain(list, owner, number, fuel, a) && CursorChain(list, owner, number, fuel, b)
    requires forall k :: 0 <= k < |a| && k < |b| ==> a[k] == b[k]
    ensures |b| <= |a|
  {
  }

  /** A first page without a next page is the whole listing, after a single request with a null cursor. */
  lemma SinglePage(list: (string, nat, Option<string>) -> PageReply, owner: string, number: nat, fuel: nat)
    requires fuel > 0 && list(owner, number, None).Page? && !list(owner, number, None).more
    ensures CursorChain(list, owner, number, fuel, [None])
    ensures ListingOf(list, owner, number, [None]) == Listed(list(owner, number, None).nodes)
  {
    var c: seq<Option<string>> := [None];
    var nodes := list(owner, number, None).nodes;
    assert c[..0] == [] && [] + nodes == nodes;
    assert PagesNodes(list, owner, number, c) == nodes;
  }

  /**
   * `getAllProjectItems` within a budget of `fuel` requests: starting from
   * a null cursor it requests page after page, appends each page's nodes,
   * and stops after a page without a next page; a failed request escapes.
   */
  method GetAllProjectItems(list: (string, nat, Option<string>) -> PageReply, owner: string, number: nat, fuel: nat)
      returns (r: Listing, cursors: seq<Option<string>>)
    ensures CursorChain(list, owner, number, fuel, cursors)
    ensures r == ListingOf(list, owner, number, cursors)
  {
    var items: seq<ProjectItem> := [];
    var more := true;
    var cursor: Option<string> := None;
    cursors := [];
    while more && |cursors| < fuel
      invariant |cursors| <= fuel
      invariant Linked(list, owner, number, cursors)
      invariant cursors == [] ==> more && cursor == None
      invariant cursors != [] ==> var reply := list(owner, number, cursors[|cursors| - 1]);
        reply.Page? && more == reply.more && cursor == reply.endCursor
      invariant items == PagesNodes(list, owner, number, cursors)
      decreases fuel - |cursors|
    {
      var reply := list(owner, number, cursor);
      var next := cursors + [cursor];
      LinkedSnoc(list, owner, number, cursors, cursor);
      cursors := next;
      if reply.PageFailed? {
        return ListFailed(reply.message), cursors;
      }
      items := items + reply.nodes;
      more := reply.more;
      cursor := reply.endCursor;
    }
    r := if more then Unfinished else Listed(items);
  }

  // ---------------------------------------------------------------------------
  // Deleting

  /** `deleteProjectItem` succeeds exactly when the reply names the item it was asked to delete. */
  predicate Removed(delete: (Option<string>, string) -> DeleteReply, projectId: Option<string>, itemId: string)
  {
    delete(projectId, itemId) == DeleteAnswer(Some(itemId))
  }

  /** `deleteProjectItem`: a failed request is caught and answers false. */
  method DeleteProjectItem(delete: (Option<string>, string) -> DeleteReply, projectId: Option<string>, itemId: string)
      returns (ok: bool)
    ensures ok <==> Removed(delete, projectId, itemId)
    ensures delete(projectId, itemId).DeleteFailed? ==> !ok
  {
    var reply := delete(projectId, itemId);
    if reply.DeleteFailed? {
      return false;
    }
    ok := reply.deletedItemId == Some(itemId);
  }

  /** The number of `items` whose deletion goes through. */
  function DeletedCount(delete: (Option<string>, string) -> DeleteReply, projectId: Option<string>, items: seq<ProjectItem>): (n: nat)
    ensures n <= |items|
  {
    if items == [] then 0
    else
      DeletedCount(delete, projectId, items[..|items| - 1]) + (if Removed(delete, projectId, items[|items| - 1].id) then 1 else 0)
  }

  /** The deleted count is the number of items whose deletion goes through, wherever they stand. */
  lemma {:induction false} DeletedCountCounts(delete: (Option<string>, string) -> DeleteReply, projectId: Option<string>,
                                              items: seq<ProjectItem>)
    ensures DeletedCount(delete, projectId, items) == Count(items, (x: ProjectItem) => Removed(delete, projectId, x.id))
  {
    if items != [] {
      var init := items[..|items| - 1];
      assert items == init + [items[|items| - 1]];
      DeletedCountCounts(delete, projectId, init);
      CountSnoc(init, items[|items| - 1], (x: ProjectItem) => Removed(delete, projectId, x.id));
    }
  }

  /** Every item counts as deleted exactly when every deletion goes through. */
  lemma {:induction false} AllDeleted(delete: (Option<string>, string) -> DeleteReply, projectId: Option<string>,
                                      items: seq<ProjectItem>)
    ensures DeletedCount(delete, projectId, items) == |items| <==> forall k :: 0 <= k < |items| ==> Removed(delete, projectId, items[k].id)
  {
    if items != [] {
      var init := items[..|items| - 1];
      AllDeleted(delete, projectId, init);
      assert forall k :: 0 <= k < |init| ==> init[k] == items[k];
    }
  }

  /** The ids of `items`, in order. */
  function ItemIds(items: seq<ProjectItem>): (ids: seq<string>)
    ensures |ids| == |items| && forall k :: 0 <= k < |items| ==> ids[k] == items[k].id
  {
    seq(|items|, k requires 0 <= k < |items| => items[k].id)
  }

  /** The deletion loop: one request per item, in order, whatever the earlier ones answered. */
  method DeleteAll(delete: (Option<string>, string) -> DeleteReply, projectId: Option<string>, items: seq<ProjectItem>)
      returns (deleted: nat, requested: seq<string>)
    ensures requested == ItemIds(items)
    ensures deleted == DeletedCount(delete, projectId, items)
  {
    deleted := 0;
    requested := [];
    var i := 0;
    while i < |items|
      invariant i <= |items|
      invariant requested == ItemIds(items[..i])
      invariant deleted == DeletedCount(delete, projectId, items[..i])
    {
      assert items[..i + 1][..i] == items[..i];
      var ok := DeleteProjectItem(delete, projectId, items[i].id);
      if ok {
        deleted := deleted + 1;
      }
      requested := requested + [items[i].id];
      i := i + 1;
    }
    assert items[..i] == items;
  }

  // ---------------------------------------------------------------------------
  // The script

  /** Whether `initialize` answers true for the project of `ref`. */
  predicate InitOk(api: GitHubApi, ref: GitHubRules.ProjectRef)
  {
    var reply := api.details(ref.owner, ref.number);
    reply.ProjectFound? && forall k :: 0 <= k < |reply.nodes| ==> reply.nodes[k].Some?
  }

  /** The outcome of the script once the listing is known. */
  function Settle(listing: Listing, deleted: nat): ClearOutcome
  {
    match listing
    case ListFailed(m) => Exited(m)
    case Unfinished => StillPaging
    case Listed(items) => if items == [] then AlreadyEmpty else Cleared(deleted, |items|)
  }

  /**
   * `clearGitHubProject` with a budget of `fuel` page requests: a bad URL
   * or a failed initialisation exits before any request; a failed page
   * exits before any deletion; an empty project returns; otherwise every
   * listed item is deleted in order against the project's node id.
   */
  method ClearGitHubProject(api: ClearApi, url: string, fuel: nat)
      returns (out: ClearOutcome, cursors: seq<Option<string>>, deletes: seq<string>)
    ensures GitHubRules.ParseProjectUrl(url).None? ==> out == Exited(InvalidUrlMessage) && cursors == [] && deletes == []
    ensures GitHubRules.ParseProjectUrl(url).Some? && !InitOk(api.github, GitHubRules.ParseProjectUrl(url).value) ==>
              out == Exited(InitFailedMessage) && cursors == [] && deletes == []
    ensures GitHubRules.ParseProjectUrl(url).Some? && InitOk(api.github, GitHubRules.ParseProjectUrl(url).value) ==>
              var ref := GitHubRules.ParseProjectUrl(url).value;
              var listing := ListingOf(api.list, ref.owner, ref.number, cursors);
              var projectId := Some(api.github.details(ref.owner, ref.number).id);
              && CursorChain(api.list, ref.owner, ref.number, fuel, cursors)
              && (listing.Listed? ==> deletes == ItemIds(listing.items))
              && (!listing.Listed? ==> deletes == [])
              && out == Settle(listing, if listing.Listed? then DeletedCount(api.delete, projectId, listing.items) else 0)
  {
    cursors, deletes := [], [];
    var svc := NewProjectsService(url);
    if svc.None? {
      return Exited(InvalidUrlMessage), cursors, deletes;
    }
    var service := svc.value;
    var initialized := service.Initialize(api.github);
    if !initialized {
      return Exited(InitFailedMessage), cursors, deletes;
    }
    var listing;
    listing, cursors := GetAllProjectItems(api.list, service.owner, service.projectNumber, fuel);
    if !listing.Listed? || listing.items == [] {
      return Settle(listing, 0), cursors, deletes;
    }
    var deleted;
    deleted, deletes := DeleteAll(api.delete, service.projectNodeId, listing.items);
    out := Cleared(deleted, |listing.items|);
  }
}
