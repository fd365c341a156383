/**
 * The source client of the job board (src/api/fastwork.js): the four
 * category partitions, the query parameters of `GET /jobs`, the
 * never-throwing result shape, and the per-category aggregation.
 * The HTTP transport is a parameter: `server` answers a parameter map.
 */
module Fastwork {
  import opened Common
  import opened Text

  /** A category partition of the job board. */
  datatype Category = Category(id: string, name: string, nameEn: string)

  const ApplicationDevelopment := Category("c82d3ff0-c1c1-4b39-b9e3-124e513eb66c", "พัฒนาแอปพลิเคชัน", "Application Development")
  const WebDevelopment := Category("4c7ee9da-5509-4ff1-b7c2-df81fb2ef06c", "พัฒนาเว็บไซต์", "Web Development")
  const ItSolutions := Category("2a0001e2-d5d9-4fb8-92da-f4a805c47044", "ไอทีโซลูชั่น", "IT Solutions")
  const IotWork := Category("9f240bc1-fde2-4217-a5f5-f6fc02ba3f54", "งาน IoT", "IoT Work")

  /** `Object.values(JOB_CATEGORIES)`, in declaration order. */
  const JobCategories: seq<Category> := [ApplicationDevelopment, WebDevelopment, ItSolutions, IotWork]

  const DefaultTagId := ApplicationDevelopment.id
  const UnknownCategory := "Unknown Category"
  const JobUrlPrefix := "https://jobboard.fastwork.co/jobs/"

  function CategoryIds(cats: seq<Category>): (ids: seq<string>)
    ensures |ids| == |cats|
    ensures forall i :: 0 <= i < |cats| ==> ids[i] == cats[i].id
  {
    if cats == [] then [] else [cats[0].id] + CategoryIds(cats[1..])
  }

  /**
   * A listing as the board returns it, plus the two fields the client code
   * adds (`category`, `tag_id`; empty until added). Text fields use "" for
   * a missing value; the numeric budget fields keep their JavaScript type.
   */
  datatype Listing = Listing(
    id: string,
    title: string,
    name: string,
    description: string,
    budget: JsValue,
    budgetMin: JsValue,
    price: JsValue,
    budgetText: string,
    createdAt: int,
    insertedAt: string,
    deadlineAt: string,
    expiredAt: string,
    category: string,
    tagId: string)

  /** `FastworkAPI.getCategoryName`: the English name of the first category with that id. */
  function GetCategoryName(tagId: string): (name: string)
    ensures (forall c :: c in JobCategories ==> c.id != tagId) ==> name == UnknownCategory
  {
    FirstNameEn(JobCategories, tagId)
  }

  /** The `find` over the categories: the first one whose id matches. */
  function FirstNameEn(cats: seq<Category>, tagId: string): (name: string)
    ensures (forall c :: c in cats ==> c.id != tagId) ==> name == UnknownCategory
    ensures forall i :: 0 <= i < |cats| && cats[i].id == tagId && (forall j :: 0 <= j < i ==> cats[j].id != tagId)
              ==> name == cats[i].nameEn
  {
    if cats == [] then UnknownCategory
    else if cats[0].id == tagId then cats[0].nameEn
    else
      var rest := FirstNameEn(cats[1..], tagId);
      assert forall i :: 1 <= i < |cats| ==> cats[i] == cats[1..][i - 1];
      rest
  }

  /** The four category ids are pairwise distinct (they differ in their first character). */
  lemma CategoryIdsDistinct()
    ensures NoDuplicates(CategoryIds(JobCategories))
  {
    var ids := CategoryIds(JobCategories);
    assert ids[0][0] == 'c' && ids[1][0] == '4' && ids[2][0] == '2' && ids[3][0] == '9';
  }

  /** Every configured category is named by its English name, and never as unknown. */
  lemma GetCategoryNameOfEach(i: nat)
    requires i < |JobCategories|
    ensures GetCategoryName(JobCategories[i].id) == JobCategories[i].nameEn
    ensures GetCategoryName(JobCategories[i].id) != UnknownCategory
  {
    CategoryIdsDistinct();
    var ids := CategoryIds(JobCategories);
    assert forall j :: 0 <= j < i ==> JobCategories[j].id == ids[j] != ids[i] == JobCategories[i].id;
    assert JobCategories[i].nameEn[0] != UnknownCategory[0] || |JobCategories[i].nameEn| != |UnknownCategory|;
  }

  /** `FastworkAPI.generateJobUrl`. */
  function GenerateJobUrl(jobId: string): (url: string)
    ensures |url| == |JobUrlPrefix| + |jobId|
    ensures url[..|JobUrlPrefix|] == JobUrlPrefix
  {
    JobUrlPrefix + jobId
  }

  /** Inverse of `GenerateJobUrl`: the id is what follows the fixed prefix. */
  function JobIdOfUrl(url: string): Option<string>
  {
    if |url| >= |JobUrlPrefix| && url[..|JobUrlPrefix|] == JobUrlPrefix
    then Some(url[|JobUrlPrefix|..]) else None
  }

  lemma JobUrlRoundTrip(jobId: string)
    ensures JobIdOfUrl(GenerateJobUrl(jobId)) == Some(jobId)
  {
    var url := GenerateJobUrl(jobId);
    assert url[|JobUrlPrefix|..] == jobId;
  }

  /** The `tagIds` option: an array, or a single value that is wrapped. */
  datatype TagIds = TagList(ids: seq<string>) | OneTag(id: string)

  /** The options of `fetchJobs`; `None` is an option left undefined. */
  datatype FetchOptions = FetchOptions(
    page: Option<int>,
    pageSize: Option<int>,
    tagIds: Option<TagIds>,
    orderBy: Option<string>,
    orderDirection: Option<string>)

  const NoOptions := FetchOptions(None, None, None, None, None)

  function PageOf(o: FetchOptions): int { if o.page.Some? then o.page.value else 1 }
  function PageSizeOf(o: FetchOptions): int { if o.pageSize.Some? then o.pageSize.value else 20 }
  function OrderByOf(o: FetchOptions): string { if o.orderBy.Some? then o.orderBy.value else "inserted_at" }
  function DirectionOf(o: FetchOptions): string { if o.orderDirection.Some? then o.orderDirection.value else "desc" }

  /** `Array.isArray(tagIds) ? tagIds : [tagIds]`, after the default. */
  function TagIdList(o: FetchOptions): seq<string>
  {
    if o.tagIds.None? then [DefaultTagId]
    else match o.tagIds.value
      case TagList(ids) => ids
      case OneTag(id) => [id]
  }

  /** The keys of the query string of `GET /jobs`. */
  datatype ParamKey = Page | PageSize | OrderBy | OrderDirections | FilterField(i: nat) | FilterValue(i: nat)

  datatype ParamValue = PInt(n: int) | PStr(s: string)

  type Params = map<ParamKey, ParamValue>

  /** The name under which a key is sent. */
  function KeyName(k: ParamKey): string
  {
    match k
    case Page => "page"
    case PageSize => "page_size"
    case OrderBy => "order_by[]"
    case OrderDirections => "order_directions[]"
    case FilterField(i) => "filters[" + NatToString(i) + "][field]"
    case FilterValue(i) => "filters[" + NatToString(i) + "][value]"
  }

  /** The parameters `fetchJobs` sends for the given options. */
  function QueryParams(o: FetchOptions): (ps: Params)
    ensures ps.Keys == ParamKeys(|TagIdList(o)|)
  {
    ParamsUpToKeys(o, |TagIdList(o)|);
    ParamsUpTo(o, |TagIdList(o)|)
  }

  /** The fixed parameters followed by the filter pairs of the first `n` tag ids. */
  function ParamsUpTo(o: FetchOptions, n: nat): Params
    requires n <= |TagIdList(o)|
  {
    if n == 0 then
      map[Page := PInt(PageOf(o)), PageSize := PInt(PageSizeOf(o)),
          OrderBy := PStr(OrderByOf(o)), OrderDirections := PStr(DirectionOf(o))]
    else ParamsUpTo(o, n - 1)[FilterField(n - 1) := PStr("tag_id")][FilterValue(n - 1) := PStr(TagIdList(o)[n - 1])]
  }

  /** The keys sent with `n` tag ids. */
  function ParamKeys(n: nat): (ks: set<ParamKey>)
    ensures forall k :: k in ks <==>
              k.Page? || k.PageSize? || k.OrderBy? || k.OrderDirections?
              || (k.FilterField? && k.i < n) || (k.FilterValue? && k.i < n)
  {
    if n == 0 then {Page, PageSize, OrderBy, OrderDirections}
    else ParamKeys(n - 1) + {FilterField(n - 1), FilterValue(n - 1)}
  }

  /** The query carries the four fixed keys and one field/value pair per tag id, and nothing else. */
  lemma {:induction false} ParamsUpToKeys(o: FetchOptions, n: nat)
    requires n <= |TagIdList(o)|
    ensures ParamsUpTo(o, n).Keys == ParamKeys(n)
  {
    if n > 0 {
      ParamsUpToKeys(o, n - 1);
    }
  }

  /** The fixed keys carry the option values or their defaults. */
  lemma {:induction false} ParamsUpToFixed(o: FetchOptions, n: nat)
    requires n <= |TagIdList(o)|
    ensures Page in ParamsUpTo(o, n) && ParamsUpTo(o, n)[Page] == PInt(PageOf(o))
    ensures PageSize in ParamsUpTo(o, n) && ParamsUpTo(o, n)[PageSize] == PInt(PageSizeOf(o))
    ensures OrderBy in ParamsUpTo(o, n) && ParamsUpTo(o, n)[OrderBy] == PStr(OrderByOf(o))
    ensures OrderDirections in ParamsUpTo(o, n) && ParamsUpTo(o, n)[OrderDirections] == PStr(DirectionOf(o))
  {
    if n > 0 {
      ParamsUpToFixed(o, n - 1);
    }
  }

  /** Filter pair `i` selects field `tag_id` with the `i`-th tag id. */
  lemma {:induction false} ParamsUpToFilters(o: FetchOptions, n: nat, i: nat)
    requires i < n <= |TagIdList(o)|
    ensures FilterField(i) in ParamsUpTo(o, n) && ParamsUpTo(o, n)[FilterField(i)] == PStr("tag_id")
    ensures FilterValue(i) in ParamsUpTo(o, n) && ParamsUpTo(o, n)[FilterValue(i)] == PStr(TagIdList(o)[i])
  {
    if i < n - 1 {
      ParamsUpToFilters(o, n - 1, i);
    }
  }

  /** The loop of `fetchJobs` that fills the parameter object. */
  method BuildParams(o: FetchOptions) returns (params: Params)
    ensures params == QueryParams(o)
  {
    params := map[Page := PInt(PageOf(o)), PageSize := PInt(PageSizeOf(o)),
                  OrderBy := PStr(OrderByOf(o)), OrderDirections := PStr(DirectionOf(o))];
    var t := TagIdList(o);
    var i := 0;
    while i < |t|
      invariant 0 <= i <= |t|
      invariant params == ParamsUpTo(o, i)
    {
      params := params[FilterField(i) := PStr("tag_id")][FilterValue(i) := PStr(t[i])];
      i := i + 1;
    }
    assert i == |t|;
  }

  /** The query of the options: the fixed keys with their values and one filter pair per tag id, and no other key. */
  predicate QueryLayout(o: FetchOptions, params: Params)
  {
    && params.Keys == ParamKeys(|TagIdList(o)|)
    && params[Page] == PInt(PageOf(o)) && params[PageSize] == PInt(PageSizeOf(o))
    && params[OrderBy] == PStr(OrderByOf(o)) && params[OrderDirections] == PStr(DirectionOf(o))
    && forall i :: 0 <= i < |TagIdList(o)| ==>
         params[FilterField(i)] == PStr("tag_id") && params[FilterValue(i)] == PStr(TagIdList(o)[i])
  }

  /** The query built for the options has the layout the API expects. */
  lemma QueryParamsLayout(o: FetchOptions)
    ensures QueryLayout(o, QueryParams(o))
  {
    var t := TagIdList(o);
    ParamsUpToKeys(o, |t|);
    ParamsUpToFixed(o, |t|);
    forall j | 0 <= j < |t|
      ensures QueryParams(o)[FilterField(j)] == PStr("tag_id") && QueryParams(o)[FilterValue(j)] == PStr(t[j])
    {
      ParamsUpToFilters(o, |t|, j);
    }
  }

  /** What the HTTP layer gives back: a thrown error, or a body whose `data` may be missing. */
  datatype HttpReply = Failed(message: string) | Replied(data: Option<seq<Listing>>, meta: Option<map<string, int>>)

  /** The `{ jobs, pagination, success, error }` result of `fetchJobs`. */
  datatype FetchResult = FetchResult(jobs: seq<Listing>, pagination: map<string, int>, success: bool, error: Option<string>)

  /** The result `fetchJobs` returns for these options against this server. */
  function FetchOutcome(o: FetchOptions, server: Params -> HttpReply): (r: FetchResult)
    ensures r.success <==> server(QueryParams(o)).Replied? && server(QueryParams(o)).data.Some?
    ensures r.success ==> r.jobs == server(QueryParams(o)).data.value
    ensures !r.success ==> r.jobs == []
  {
    match server(QueryParams(o))
    case Failed(msg) => FetchResult([], map[], false, Some(msg))
    case Replied(data, meta) =>
      if data.Some? then FetchResult(data.value, if meta.Some? then meta.value else map[], true, None)
      else FetchResult([], map[], false, None)
  }

  /** `FastworkAPI.fetchJobs`: never throws; success exactly when the body carries `data`. */
  method FetchJobs(o: FetchOptions, server: Params -> HttpReply) returns (r: FetchResult)
    ensures r == FetchOutcome(o, server)
    ensures r.success <==> server(QueryParams(o)).Replied? && server(QueryParams(o)).data.Some?
    ensures r.success ==> r.jobs == server(QueryParams(o)).data.value && r.error.None?
    ensures !r.success ==> r.jobs == [] && r.pagination == map[]
    ensures server(QueryParams(o)).Failed? ==> r.error == Some(server(QueryParams(o)).message)
  {
    var params := BuildParams(o);
    var reply := server(params);
    match reply
    case Failed(msg) =>
      r := FetchResult([], map[], false, Some(msg));
    case Replied(data, meta) =>
      if data.Some? {
        r := FetchResult(data.value, if meta.Some? then meta.value else map[], true, None);
      } else {
        r := FetchResult([], map[], false, None);
      }
  }

  /** `jobs.map(job => ({ ...job, category: name }))`. */
  function WithCategory(jobs: seq<Listing>, name: string): (r: seq<Listing>)
    ensures |r| == |jobs|
    ensures forall i :: 0 <= i < |jobs| ==> r[i] == jobs[i].(category := name)
  {
    if jobs == [] then [] else [jobs[0].(category := name)] + WithCategory(jobs[1..], name)
  }

  /** The options `fetchAllCategories` passes for one category. */
  function ForCategory(o: FetchOptions, tagId: string): FetchOptions
  {
    o.(tagIds := Some(TagList([tagId])))
  }

  /** The jobs one category contributes: its tagged jobs, or nothing when its fetch failed. */
  function CategoryContribution(o: FetchOptions, server: Params -> HttpReply, c: Category): seq<Listing>
  {
    var res := FetchOutcome(ForCategory(o, c.id), server);
    if res.success then WithCategory(res.jobs, GetCategoryName(c.id)) else []
  }

  /** The concatenated contributions of the given categories, in order. */
  function AllCategoryJobs(o: FetchOptions, server: Params -> HttpReply, cats: seq<Category>): (r: seq<Listing>)
    ensures forall j :: j in r ==> exists k :: 0 <= k < |cats| && j.category == GetCategoryName(cats[k].id)
  {
    if cats == [] then []
    else AllCategoryJobs(o, server, cats[..|cats| - 1]) + CategoryContribution(o, server, cats[|cats| - 1])
  }

  /** The contributions of the first `i + 1` categories, in terms of those of the first `i`. */
  lemma AllCategoryJobsStep(o: FetchOptions, server: Params -> HttpReply, cats: seq<Category>, i: nat)
    requires i < |cats|
    ensures AllCategoryJobs(o, server, cats[..i + 1]) == AllCategoryJobs(o, server, cats[..i]) + CategoryContribution(o, server, cats[i])
  {
    assert cats[..i + 1][..i] == cats[..i];
  }

  datatype AllCategoriesResult = AllCategoriesResult(jobs: seq<Listing>, success: bool, categoriesCount: nat)

  /**
   * `FastworkAPI.fetchAllCategories`: fetches the four categories in
   * declaration order, skips the failed ones, and always reports success.
   */
  method FetchAllCategories(o: FetchOptions, server: Params -> HttpReply) returns (r: AllCategoriesResult)
    ensures r.success && r.categoriesCount == 4
    ensures r.jobs == AllCategoryJobs(o, server, JobCategories)
  {
    var allJobs: seq<Listing> := [];
    var i := 0;
    while i < |JobCategories|
      invariant 0 <= i <= |JobCategories|
      invariant allJobs == AllCategoryJobs(o, server, JobCategories[..i])
    {
      var c := JobCategories[i];
      var name := GetCategoryName(c.id);
      var result := FetchJobs(ForCategory(o, c.id), server);
      if result.success {
        allJobs := allJobs + WithCategory(result.jobs, name);
      }
      AllCategoryJobsStep(o, server, JobCategories, i);
      i := i + 1;
    }
    assert JobCategories[..i] == JobCategories;
    r := AllCategoriesResult(allJobs, true, |JobCategories|);
  }

  /**
   * Aggregation tolerates partial failure: every job of the result comes
   * from a category whose fetch succeeded and carries that category's name,
   * and a category whose fetch failed contributes nothing.
   */
  lemma {:induction false} AllCategoryJobsFromSuccesses(o: FetchOptions, server: Params -> HttpReply, cats: seq<Category>, j: Listing)
    requires j in AllCategoryJobs(o, server, cats)
    ensures exists c :: c in cats && FetchOutcome(ForCategory(o, c.id), server).success && j.category == GetCategoryName(c.id)
  {
    if cats != [] {
      var init, last := cats[..|cats| - 1], cats[|cats| - 1];
      if j in AllCategoryJobs(o, server, init) {
        AllCategoryJobsFromSuccesses(o, server, init, j);
        var c :| c in init && FetchOutcome(ForCategory(o, c.id), server).success && j.category == GetCategoryName(c.id);
        assert c in cats;
      } else {
        assert j in CategoryContribution(o, server, last);
        assert last in cats;
      }
    }
  }

  /** The number of jobs gathered is the sum over the categories whose fetch succeeded. */
  lemma {:induction false} AllCategoryJobsLength(o: FetchOptions, server: Params -> HttpReply, cats: seq<Category>)
    ensures |AllCategoryJobs(o, server, cats)| == SuccessfulJobCount(o, server, cats)
  {
    if cats != [] {
      AllCategoryJobsLength(o, server, cats[..|cats| - 1]);
    }
  }

  function SuccessfulJobCount(o: FetchOptions, server: Params -> HttpReply, cats: seq<Category>): nat
  {
    if cats == [] then 0
    else
      var res := FetchOutcome(ForCategory(o, cats[|cats| - 1].id), server);
      SuccessfulJobCount(o, server, cats[..|cats| - 1]) + (if res.success then |res.jobs| else 0)
  }
}
