/**
 * The pure classification and routing rules of the GitHub Projects sync
 * (src/services/githubProjects.js): size buckets, tags, labels, the item
 * title, the draft/issue routing, the project-URL parse, the field-name
 * roles, the planned field updates and the typed value encoding.
 *
 * Every rule tests the budget for truthiness or uses `budget || 0`, so a
 * missing budget and a budget of 0 behave the same; `budget` here is the
 * numeric budget with 0 standing for both.
 */
module GitHubRules {
  import opened Common
  import opened Text
  import Fastwork
  import Store
  import Budget

  /** Dates as the deadline/expiry columns and `inserted_at` carry them. */
  datatype RawDates = RawDates(deadlineAt: string, expiredAt: string)

  /** The fields of a job the sync reads: a fetched listing or a stored row. */
  datatype GitHubJob = GitHubJob(
    id: string,
    title: string,
    description: string,
    budget: int,
    category: string,
    insertedAt: string,
    raw: Option<RawDates>)

  /**
   * A fetched listing as `processJobs` hands it over: its own `budget`
   * field (a number or nothing) and no `raw_data`.
   */
  function FromListing(l: Fastwork.Listing): (j: GitHubJob)
    ensures j.raw.None? && j.id == l.id
    ensures j.budget == if l.budget.Num? then l.budget.n else 0
  {
    GitHubJob(l.id, l.title, l.description, if l.budget.Num? then l.budget.n else 0,
              l.category, l.insertedAt, None)
  }

  /** A stored row as the sync route hands it over: the derived budget and the saved `raw_data`. */
  function FromRow(r: Store.JobRow): (j: GitHubJob)
    ensures j.raw == Some(RawDates(r.raw.deadlineAt, r.raw.expiredAt)) && j.id == r.id
    ensures j.budget == r.budget
  {
    GitHubJob(r.id, r.title, r.description, r.budget, r.category, r.insertedAt,
              Some(RawDates(r.raw.deadlineAt, r.raw.expiredAt)))
  }

  /** The size buckets of the `Size` single-select field. */
  datatype Size = XS | S | M | L | XL

  function SizeLabel(z: Size): string
  {
    match z
    case XS => "XS"
    case S => "S"
    case M => "M"
    case L => "L"
    case XL => "XL"
  }

  function SizeRank(z: Size): nat
  {
    match z
    case XS => 0
    case S => 1
    case M => 2
    case L => 3
    case XL => 4
  }

  /** `calculateSize`: half-open budget ranges; no budget and negative budgets are XS. */
  function CalculateSize(budget: int): (z: Size)
    ensures z == XS <==> budget < 5000
    ensures z == S <==> 5000 <= budget < 15000
    ensures z == M <==> 15000 <= budget < 30000
    ensures z == L <==> 30000 <= budget < 60000
    ensures z == XL <==> 60000 <= budget
  {
    if budget == 0 then XS
    else if budget < 5000 then XS
    else if budget < 15000 then S
    else if budget < 30000 then M
    else if budget < 60000 then L
    else XL
  }

  /** A larger budget never gets a smaller size. */
  lemma SizeMonotone(a: int, b: int)
    requires a <= b
    ensures SizeRank(CalculateSize(a)) <= SizeRank(CalculateSize(b))
  {
  }

  /** The budget tier tag `generateTags` starts with, if any. */
  function BudgetTier(budget: int): (t: Option<string>)
    ensures t == Some("no-budget") <==> budget == 0
    ensures t == Some("high-budget") <==> budget >= 50000
    ensures t == Some("medium-budget") <==> 20000 <= budget < 50000
    ensures t == Some("low-budget") <==> 0 < budget < 20000
    ensures t.None? <==> budget < 0
  {
    if budget != 0 then
      if budget >= 50000 then Some("high-budget")
      else if budget >= 20000 then Some("medium-budget")
      else if budget > 0 then Some("low-budget")
      else None
    else Some("no-budget")
  }

  /** The tier tag and the size bucket agree: each tier spans a fixed range of sizes. */
  lemma TierMatchesSize(budget: int)
    ensures BudgetTier(budget) == Some("high-budget") ==> CalculateSize(budget) in {L, XL}
    ensures BudgetTier(budget) == Some("medium-budget") ==> CalculateSize(budget) in {M, L}
    ensures BudgetTier(budget) == Some("low-budget") ==> CalculateSize(budget) in {XS, S, M}
    ensures BudgetTier(budget) == Some("no-budget") ==> CalculateSize(budget) == XS
  {
  }

  predicate IsSlugChar(c: char)
  {
    ('a' <= c <= 'z') || ('0' <= c <= '9') || c == '-'
  }

  /** `.replace(/\s+/g, '-')`: each maximal run of whitespace becomes one hyphen. */
  function HyphenateSpaces(s: string): (r: string)
    ensures |r| <= |s|
    ensures forall c :: c in r && c != '-' ==> c in s && !IsJsSpace(c)
    ensures (forall i :: 0 <= i < |s| ==> !IsJsSpace(s[i])) ==> r == s
    decreases |s|
  {
    if s == [] then []
    else if IsJsSpace(s[0]) then "-" + HyphenateSpaces(DropSpaces(s[1..]))
    else [s[0]] + HyphenateSpaces(s[1..])
  }

  /** The suffix of `s` after its leading whitespace. */
  function DropSpaces(s: string): (r: string)
    ensures |r| <= |s|
    ensures r == [] || !IsJsSpace(r[0])
    ensures forall c :: c in r ==> c in s
  {
    if s != [] && IsJsSpace(s[0]) then DropSpaces(s[1..]) else s
  }

  /** `.replace(/[^a-z0-9-]/g, '')`. */
  function KeepSlugChars(s: string): (r: string)
    ensures forall i :: 0 <= i < |r| ==> IsSlugChar(r[i])
    ensures (forall i :: 0 <= i < |s| ==> IsSlugChar(s[i])) ==> r == s
    ensures forall c :: c in r ==> c in s
  {
    if s == [] then []
    else (if IsSlugChar(s[0]) then [s[0]] else []) + KeepSlugChars(s[1..])
  }

  /** The category tag: lower-cased, whitespace runs hyphenated, anything outside `[a-z0-9-]` dropped. */
  function Slugify(category: string): (r: string)
    ensures forall i :: 0 <= i < |r| ==> IsSlugChar(r[i])
  {
    KeepSlugChars(HyphenateSpaces(JsLower(category)))
  }

  lemma {:induction false} JsLowerOfSlug(s: string)
    requires forall i :: 0 <= i < |s| ==> IsSlugChar(s[i])
    ensures JsLower(s) == s
  {
    if s != [] {
      JsLowerOfSlug(s[1..]);
    }
  }

  /** Slugging is idempotent: a category tag is its own slug. */
  lemma SlugifyIdempotent(category: string)
    ensures Slugify(Slugify(category)) == Slugify(category)
  {
    var t := Slugify(category);
    JsLowerOfSlug(t);
    assert forall i :: 0 <= i < |t| ==> !IsJsSpace(t[i]);
  }

  /** The content keywords, in the order their tags are added. */
  datatype Keyword = Urgent | Remote | FullTime | PartTime

  const KeywordOrder: seq<Keyword> := [Urgent, Remote, FullTime, PartTime]

  function KeywordTag(k: Keyword): string
  {
    match k
    case Urgent => "urgent"
    case Remote => "remote"
    case FullTime => "full-time"
    case PartTime => "part-time"
  }

  /** The lower-cased `title + ' ' + description` the keywords are searched in. */
  function Content(job: GitHubJob): string
  {
    JsLower(job.title) + " " + JsLower(job.description)
  }

  predicate KeywordMatches(k: Keyword, content: string)
  {
    match k
    case Urgent => Contains(content, "urgent") || Contains(content, "ด่วน")
    case Remote => Contains(content, "remote") || Contains(content, "wfh") || Contains(content, "work from home")
    case FullTime => Contains(content, "full time") || Contains(content, "full-time")
    case PartTime => Contains(content, "part time") || Contains(content, "part-time")
  }

  /** The content tags: the matching keywords' tags, in keyword order. */
  function ContentTags(content: string): (r: seq<string>)
    ensures |r| <= 4
  {
    (if KeywordMatches(Urgent, content) then ["urgent"] else [])
    + (if KeywordMatches(Remote, content) then ["remote"] else [])
    + (if KeywordMatches(FullTime, content) then ["full-time"] else [])
    + (if KeywordMatches(PartTime, content) then ["part-time"] else [])
  }

  /** A keyword's tag is among the content tags exactly when the content mentions the keyword. */
  lemma ContentTagsMatch(content: string)
    ensures forall k :: k in KeywordOrder ==> (KeywordTag(k) in ContentTags(content) <==> KeywordMatches(k, content))
  {
  }

  /** The tier tag, absent for a negative budget. */
  function TierTags(budget: int): (r: seq<string>)
    ensures |r| <= 1
  {
    if BudgetTier(budget).Some? then [BudgetTier(budget).value] else []
  }

  /** The category tag, absent for an empty category. */
  function CategoryTags(category: string): (r: seq<string>)
    ensures |r| <= 1
  {
    if category != "" then [Slugify(category)] else []
  }

  /** `generateTags`: budget tier, category slug, content keywords, in that order. */
  function GenerateTags(job: GitHubJob): (tags: seq<string>)
    ensures |tags| <= 6
  {
    TierTags(job.budget) + CategoryTags(job.category) + ContentTags(Content(job))
  }

  /** No tier tag reads like a keyword tag. */
  lemma TierTagNotKeyword(budget: int, k: Keyword)
    ensures KeywordTag(k) !in TierTags(budget)
  {
  }

  /**
   * The tag list starts with the tier tag (absent for a negative budget),
   * then the category tag.
   */
  lemma GenerateTagsLayout(job: GitHubJob)
    ensures job.budget >= 0 ==> |GenerateTags(job)| >= 1 && GenerateTags(job)[0] == BudgetTier(job.budget).value
    ensures job.budget >= 0 && job.category != "" ==> |GenerateTags(job)| >= 2 && GenerateTags(job)[1] == Slugify(job.category)
    ensures job.budget < 0 && job.category != "" ==> |GenerateTags(job)| >= 1 && GenerateTags(job)[0] == Slugify(job.category)
  {
    var tier, cat := TierTags(job.budget), CategoryTags(job.category);
    assert GenerateTags(job) == tier + cat + ContentTags(Content(job));
  }

  /**
   * The tag list carries the tag of every keyword the content mentions;
   * a keyword tag without a match can only be the category tag itself.
   */
  lemma GenerateTagsKeywords(job: GitHubJob)
    ensures forall k :: k in KeywordOrder && KeywordMatches(k, Content(job)) ==> KeywordTag(k) in GenerateTags(job)
    ensures forall k :: k in KeywordOrder && KeywordTag(k) in GenerateTags(job) && !KeywordMatches(k, Content(job)) ==>
              job.category != "" && Slugify(job.category) == KeywordTag(k)
  {
    var tier, cat, content := TierTags(job.budget), CategoryTags(job.category), ContentTags(Content(job));
    ContentTagsMatch(Content(job));
    assert GenerateTags(job) == tier + cat + content;
    forall k | k in KeywordOrder && KeywordTag(k) in GenerateTags(job) && !KeywordMatches(k, Content(job))
      ensures job.category != "" && Slugify(job.category) == KeywordTag(k)
    {
      TierTagNotKeyword(job.budget, k);
      assert KeywordTag(k) !in content;
    }
  }

  /** The digits of a natural number grouped by thousands with commas, as `toLocaleString()` does in English locales. */
  function GroupDigits(ds: string): (r: string)
    ensures |r| >= |ds|
    decreases |ds|
  {
    if |ds| <= 3 then ds
    else GroupDigits(ds[..|ds| - 3]) + "," + ds[|ds| - 3..]
  }

  /** `n.toLocaleString()` for an integral number. */
  function LocaleString(n: int): (r: string)
    ensures n < 0 ==> |r| > 0 && r[0] == '-'
    ensures RemoveCommas(if n < 0 then r[1..] else r) == NatToString(if n < 0 then -n else n)
  {
    GroupDigitsUngroup(NatToString(if n < 0 then -n else n));
    if n < 0 then "-" + GroupDigits(NatToString(-n)) else GroupDigits(NatToString(n))
  }

  /** Dropping the grouping commas gives back the plain digits. */
  lemma {:induction false} GroupDigitsUngroup(ds: string)
    requires AllDigits(ds)
    ensures RemoveCommas(GroupDigits(ds)) == ds
    decreases |ds|
  {
    if |ds| <= 3 {
      DigitsWithoutComma(ds);
      RemoveCommasNone(ds);
    } else {
      var head, tail := ds[..|ds| - 3], ds[|ds| - 3..];
      var g := GroupDigits(head);
      assert RemoveCommas(g + ",") == head by {
        DigitsSplit(ds, |ds| - 3);
        GroupDigitsUngroup(head);
        RemoveCommasAppend(g, ",");
        assert RemoveCommas(",") == "";
      }
      assert RemoveCommas(tail) == tail by {
        DigitsSplit(ds, |ds| - 3);
        DigitsWithoutComma(tail);
        RemoveCommasNone(tail);
      }
      assert GroupDigits(ds) == g + "," + tail;
      RemoveCommasAppend(g + ",", tail);
      assert head + tail == ds;
    }
  }

  /** A run of digits holds no comma. */
  lemma DigitsWithoutComma(ds: string)
    requires AllDigits(ds)
    ensures ',' !in ds
  {
    forall i | 0 <= i < |ds| ensures ds[i] != ',' { assert IsDigit(ds[i]); }
  }

  /** Both parts of a run of digits are runs of digits. */
  lemma DigitsSplit(ds: string, k: nat)
    requires AllDigits(ds) && k <= |ds|
    ensures AllDigits(ds[..k]) && AllDigits(ds[k..])
  {
    assert forall i :: 0 <= i < |ds| - k ==> ds[k..][i] == ds[k + i];
  }

  /** The grouped rendering of a non-negative amount reads back as that amount once its commas are removed. */
  lemma LocaleStringReadsBack(n: nat)
    ensures AllDigits(RemoveCommas(LocaleString(n)))
    ensures DigitsValue(RemoveCommas(LocaleString(n))) == n
  {
    GroupDigitsUngroup(NatToString(n));
  }

  /** `formatJobTitle`: a `[<amount> THB] ` prefix when there is a budget, then the job title. */
  function FormatJobTitle(job: GitHubJob): (t: string)
    ensures job.budget == 0 ==> t == job.title
    ensures job.budget != 0 ==> t == "[" + LocaleString(job.budget) + " THB] " + job.title
  {
    (if job.budget != 0 then "[" + LocaleString(job.budget) + " THB] " else "") + job.title
  }

  /** The title always ends with the job's own title, and a budgeted title reads back its amount. */
  lemma FormatJobTitleParts(job: GitHubJob)
    ensures job.title <= FormatJobTitle(job)[|FormatJobTitle(job)| - |job.title|..]
    ensures job.budget > 0 ==>
      var t := FormatJobTitle(job);
      var amount := t[1..|t| - |job.title| - 6];
      AllDigits(RemoveCommas(amount)) && DigitsValue(RemoveCommas(amount)) == job.budget
  {
    var t := FormatJobTitle(job);
    if job.budget > 0 {
      var p := "[" + LocaleString(job.budget) + " THB] ";
      assert t == p + job.title;
      assert t[1..|t| - |job.title| - 6] == LocaleString(job.budget);
      LocaleStringReadsBack(job.budget);
    }
    assert t[|t| - |job.title|..] == job.title;
  }

  /** The draft-or-issue routing of `createDraftIssue`: budgets above 10,000 become repository issues. */
  predicate RoutesToIssue(job: GitHubJob)
    ensures RoutesToIssue(job) ==> CalculateSize(job.budget) != XS
    ensures CalculateSize(job.budget) in {M, L, XL} ==> RoutesToIssue(job)
  {
    job.budget > 10000
  }

  /** `[category, ...tags].filter(Boolean)`: the issue labels. */
  function Labels(job: GitHubJob): (r: seq<string>)
    ensures |r| <= 1 + |GenerateTags(job)|
  {
    Filter([job.category] + GenerateTags(job), (x: string) => x != "")
  }

  /** The labels are the category and the tags, without empty ones, the category first. */
  lemma LabelsMembers(job: GitHubJob)
    ensures forall x :: x in Labels(job) <==> x != "" && (x == job.category || x in GenerateTags(job))
    ensures job.category != "" ==> |Labels(job)| >= 1 && Labels(job)[0] == job.category
  {
  }

  /** The `type` argument of `updateProjectItemField`. */
  datatype FieldType = DateType | NumberType | SingleSelectType | TextType | OtherType(name: string)

  /** The GraphQL `ProjectV2FieldValue` sent for a field. */
  datatype FieldValue = DateValue(date: string) | NumberValue(number: string) | OptionValue(optionId: string) | TextValue(text: string)

  function Payload(v: FieldValue): string
  {
    match v
    case DateValue(d) => d
    case NumberValue(n) => n
    case OptionValue(o) => o
    case TextValue(t) => t
  }

  /** The value encoding: the value goes into the member named by the type; unknown types are text. */
  function EncodeFieldValue(kind: FieldType, value: string): (v: FieldValue)
    ensures Payload(v) == value
    ensures v.DateValue? <==> kind == DateType
    ensures v.NumberValue? <==> kind == NumberType
    ensures v.OptionValue? <==> kind == SingleSelectType
    ensures v.TextValue? <==> kind.TextType? || kind.OtherType?
  {
    match kind
    case DateType => DateValue(value)
    case NumberType => NumberValue(value)
    case SingleSelectType => OptionValue(value)
    case _ => TextValue(value)
  }

  /** The project fields the service recognises by name. */
  datatype Role = BudgetField | CategoryField | TagsField | StatusField | SizeField | StartDateField | EndDateField

  /** The role of a field, from its lower-cased name; the first rule that matches decides. */
  function FieldRole(name: string): (r: Option<Role>)
    ensures var l := JsLower(name);
      var budget, category := Contains(l, "budget"), Contains(l, "category");
      var tags, status, size := Contains(l, "tag") || Contains(l, "label"), Contains(l, "status"), Contains(l, "size");
      var dated := Contains(l, "date") || Contains(l, "time");
      var start, end := Contains(l, "start") && dated, (Contains(l, "end") && dated) || Contains(l, "deadline");
      && (r == Some(BudgetField) <==> budget)
      && (r == Some(CategoryField) <==> !budget && category)
      && (r == Some(TagsField) <==> !budget && !category && tags)
      && (r == Some(StatusField) <==> !budget && !category && !tags && status)
      && (r == Some(SizeField) <==> !budget && !category && !tags && !status && size)
      && (r == Some(StartDateField) <==> !budget && !category && !tags && !status && !size && start)
      && (r == Some(EndDateField) <==> !budget && !category && !tags && !status && !size && !start && end)
      && (r.None? <==> !budget && !category && !tags && !status && !size && !start && !end)
  {
    var l := JsLower(name);
    if Contains(l, "budget") then Some(BudgetField)
    else if Contains(l, "category") then Some(CategoryField)
    else if Contains(l, "tag") || Contains(l, "label") then Some(TagsField)
    else if Contains(l, "status") then Some(StatusField)
    else if Contains(l, "size") then Some(SizeField)
    else if Contains(l, "start") && (Contains(l, "date") || Contains(l, "time")) then Some(StartDateField)
    else if Contains(l, "end") && (Contains(l, "date") || Contains(l, "time")) then Some(EndDateField)
    else if Contains(l, "deadline") then Some(EndDateField)
    else None
  }

  /** A field node of the project as the details query returns it. */
  datatype FieldNode = FieldNode(id: string, name: string)

  /** The effect of one field node on the field-id table. */
  function RecordField(ids: map<Role, string>, node: FieldNode): (r: map<Role, string>)
  {
    match FieldRole(node.name)
    case Some(role) => ids[role := node.id]
    case None => ids
  }

  /** The field-id table after scanning `nodes` in order: a later field of the same role overwrites an earlier one. */
  function FieldIdsAfter(ids: map<Role, string>, nodes: seq<FieldNode>): (r: map<Role, string>)
    ensures forall role :: role in r <==> role in ids || exists k :: 0 <= k < |nodes| && FieldRole(nodes[k].name) == Some(role)
  {
    if nodes == [] then ids
    else
      var r := RecordField(FieldIdsAfter(ids, nodes[..|nodes| - 1]), nodes[|nodes| - 1]);
      assert forall role, k :: 0 <= k < |nodes| - 1 && FieldRole(nodes[..|nodes| - 1][k].name) == Some(role) ==>
        FieldRole(nodes[k].name) == Some(role);
      r
  }

  /**
   * The id recorded for a role is that of the last field with the role;
   * a role no field has keeps the id it had before the scan.
   */
  lemma {:induction false} FieldIdsLastWins(ids: map<Role, string>, nodes: seq<FieldNode>, role: Role, k: int)
    requires -1 <= k < |nodes|
    requires k >= 0 ==> FieldRole(nodes[k].name) == Some(role)
    requires forall j :: k < j < |nodes| ==> FieldRole(nodes[j].name) != Some(role)
    ensures k >= 0 ==> role in FieldIdsAfter(ids, nodes) && FieldIdsAfter(ids, nodes)[role] == nodes[k].id
    ensures k < 0 && role in ids ==> role in FieldIdsAfter(ids, nodes) && FieldIdsAfter(ids, nodes)[role] == ids[role]
    ensures k < 0 && role !in ids ==> role !in FieldIdsAfter(ids, nodes)
  {
    if nodes != [] {
      var init, last := nodes[..|nodes| - 1], nodes[|nodes| - 1];
      var before := FieldIdsAfter(ids, init);
      assert FieldIdsAfter(ids, nodes) == RecordField(before, last);
      if k == |nodes| - 1 {
        RecordFieldSets(before, last, role);
      } else {
        forall j | k < j < |init| ensures FieldRole(init[j].name) != Some(role) {
          assert init[j] == nodes[j];
        }
        assert k >= 0 ==> init[k] == nodes[k];
        FieldIdsLastWins(ids, init, role, k);
        RecordFieldKeeps(before, last, role);
      }
    }
  }

  /** A node of the role records its id under the role. */
  lemma RecordFieldSets(ids: map<Role, string>, node: FieldNode, role: Role)
    requires FieldRole(node.name) == Some(role)
    ensures role in RecordField(ids, node) && RecordField(ids, node)[role] == node.id
  {
  }

  /** A node of another role, or of none, leaves the entry of the role as it was. */
  lemma RecordFieldKeeps(ids: map<Role, string>, node: FieldNode, role: Role)
    requires FieldRole(node.name) != Some(role)
    ensures role in RecordField(ids, node) <==> role in ids
    ensures role in ids ==> RecordField(ids, node)[role] == ids[role]
  {
  }

  /** A field of the role was found (`this.fieldIds.<role>` is truthy). */
  predicate KnownField(ids: map<Role, string>, role: Role)
  {
    role in ids && ids[role] != ""
  }

  /** Date handling the model leaves to the platform: `new Date(s)` then `toISOString()`, and the same after adding 30 days. */
  datatype DateOps = DateOps(
    isoDay: string -> Option<string>,
    plus30Days: string -> Option<string>)

  /** `formatDateForGitHub`: no date for a missing or unparsable string. */
  function FormatDate(ops: DateOps, s: string): (r: Option<string>)
    ensures s == "" ==> r.None?
    ensures s != "" ==> r == ops.isoDay(s)
  {
    if s == "" then None else ops.isoDay(s)
  }

  /**
   * `extractEndDate`: the deadline of the saved listing, else its expiry,
   * else 30 days after insertion; a present but unparsable deadline gives
   * no date rather than falling back.
   */
  function ExtractEndDate(ops: DateOps, job: GitHubJob): (r: Option<string>)
    ensures job.raw.Some? && job.raw.value.deadlineAt != "" ==> r == ops.isoDay(job.raw.value.deadlineAt)
    ensures job.raw.Some? && job.raw.value.deadlineAt == "" && job.raw.value.expiredAt != "" ==>
      r == ops.isoDay(job.raw.value.expiredAt)
    ensures (job.raw.None? || (job.raw.value.deadlineAt == "" && job.raw.value.expiredAt == "")) && job.insertedAt == "" ==>
      r.None?
  {
    if job.raw.Some? && job.raw.value.deadlineAt != "" then FormatDate(ops, job.raw.value.deadlineAt)
    else if job.raw.Some? && job.raw.value.expiredAt != "" then FormatDate(ops, job.raw.value.expiredAt)
    else if job.insertedAt != "" then
      match ops.plus30Days(job.insertedAt)
      case Some(iso) => FormatDate(ops, iso)
      case None => None
    else None
  }

  /** Precedence of the end-date sources, and the fallback a fetched listing (which has no saved raw data) always takes. */
  lemma ExtractEndDateSources(ops: DateOps, job: GitHubJob)
    ensures job.raw.Some? && job.raw.value.deadlineAt != "" ==> ExtractEndDate(ops, job) == ops.isoDay(job.raw.value.deadlineAt)
    ensures job.raw.Some? && job.raw.value.deadlineAt == "" && job.raw.value.expiredAt != "" ==>
      ExtractEndDate(ops, job) == ops.isoDay(job.raw.value.expiredAt)
    ensures (job.raw.None? || (job.raw.value.deadlineAt == "" && job.raw.value.expiredAt == "")) ==>
      (ExtractEndDate(ops, job).Some? <==>
        job.insertedAt != "" && ops.plus30Days(job.insertedAt).Some? && ops.plus30Days(job.insertedAt).value != ""
        && ops.isoDay(ops.plus30Days(job.insertedAt).value).Some?)
  {
  }

  /** One planned field update of `updateProjectItemFields`. */
  datatype FieldUpdate = FieldUpdate(role: Role, fieldId: string, value: string, kind: FieldType)

  /** Position of a role in the order the updates are planned. */
  function PlanRank(role: Role): nat
  {
    match role
    case BudgetField => 0
    case CategoryField => 1
    case SizeField => 2
    case StartDateField => 3
    case EndDateField => 4
    case TagsField => 5
    case StatusField => 6
  }

  /** What `updateProjectItemFields` derives from a job before choosing its updates. */
  datatype FieldData = FieldData(budget: int, category: string, start: Option<string>, end: Option<string>, tags: seq<string>)

  function FieldDataOf(ops: DateOps, job: GitHubJob): FieldData
  {
    FieldData(job.budget, job.category, FormatDate(ops, job.insertedAt), ExtractEndDate(ops, job), GenerateTags(job))
  }

  /** The value and type a role's update would carry, if the job has data for it. */
  function Candidate(d: FieldData, role: Role): Option<(string, FieldType)>
  {
    match role
    case BudgetField => if d.budget != 0 then Some((IntToString(d.budget) + " THB", TextType)) else None
    case CategoryField => if d.category != "" then Some((d.category, TextType)) else None
    case SizeField => if d.budget != 0 then Some((SizeLabel(CalculateSize(d.budget)), SingleSelectType)) else None
    case StartDateField => if d.start.Some? && d.start.value != "" then Some((d.start.value, DateType)) else None
    case EndDateField => if d.end.Some? && d.end.value != "" then Some((d.end.value, DateType)) else None
    case TagsField => if |d.tags| > 0 then Some((Join(d.tags, ", "), TextType)) else None
    case StatusField => None
  }

  /** The roles `updateProjectItemFields` considers, in its order; the status field is never written. */
  const PlanOrder: seq<Role> := [BudgetField, CategoryField, SizeField, StartDateField, EndDateField, TagsField]

  predicate Planned(ids: map<Role, string>, d: FieldData, role: Role)
  {
    KnownField(ids, role) && Candidate(d, role).Some?
  }

  /** Consecutive roles of `roles` have increasing ranks. */
  predicate RankIncreasing(roles: seq<Role>)
  {
    forall i :: 0 < i < |roles| ==> PlanRank(roles[i - 1]) < PlanRank(roles[i])
  }

  /** The update `role` contributes when it is planned. */
  predicate UpdateFits(ids: map<Role, string>, d: FieldData, u: FieldUpdate)
  {
    Planned(ids, d, u.role) && u.fieldId == ids[u.role] && (u.value, u.kind) == Candidate(d, u.role).value
  }

  /** The updates for `roles`, in their order, skipping unknown fields and roles without data. */
  function PlanFor(ids: map<Role, string>, d: FieldData, roles: seq<Role>): (r: seq<FieldUpdate>)
    requires RankIncreasing(roles)
    ensures forall i :: 0 <= i < |r| ==> r[i].role in roles && UpdateFits(ids, d, r[i])
    ensures forall i :: 0 <= i < |r| ==> |roles| > 0 && PlanRank(roles[0]) <= PlanRank(r[i].role)
    ensures forall i, j :: 0 <= i < j < |r| ==> PlanRank(r[i].role) < PlanRank(r[j].role)
  {
    if roles == [] then []
    else
      var rest := PlanFor(ids, d, roles[1..]);
      var role := roles[0];
      if Planned(ids, d, role) then
        var c := Candidate(d, role).value;
        [FieldUpdate(role, ids[role], c.0, c.1)] + rest
      else rest
  }

  /** Some update of `r` writes the field of `role`. */
  predicate HasRole(r: seq<FieldUpdate>, role: Role)
  {
    exists u :: u in r && u.role == role
  }

  /** Every role of `roles` that is planned gets its update. */
  lemma {:induction false} PlanForComplete(ids: map<Role, string>, d: FieldData, roles: seq<Role>, role: Role)
    requires RankIncreasing(roles)
    requires role in roles && Planned(ids, d, role)
    ensures HasRole(PlanFor(ids, d, roles), role)
  {
    var r := PlanFor(ids, d, roles);
    if roles[0] == role {
      assert r[0].role == role;
    } else {
      assert role in roles[1..];
      PlanForComplete(ids, d, roles[1..], role);
      var u :| u in PlanFor(ids, d, roles[1..]) && u.role == role;
      assert u in r;
    }
  }

  /** The updates planned from derived field data: the roles of `PlanOrder` that are planned, in that order. */
  function PlanOf(ids: map<Role, string>, d: FieldData): (r: seq<FieldUpdate>)
    ensures forall i :: 0 <= i < |r| ==> r[i].role != StatusField && UpdateFits(ids, d, r[i])
    ensures forall i, j :: 0 <= i < j < |r| ==> PlanRank(r[i].role) < PlanRank(r[j].role)
  {
    PlanFor(ids, d, PlanOrder)
  }

  /** An update `PlanOf` plans is for a planned role other than the status field. */
  lemma PlanOfSound(ids: map<Role, string>, d: FieldData, role: Role)
    requires HasRole(PlanOf(ids, d), role)
    ensures role != StatusField && Planned(ids, d, role)
  {
    var r := PlanOf(ids, d);
    var u :| u in r && u.role == role;
    var i :| 0 <= i < |r| && r[i] == u;
    assert UpdateFits(ids, d, r[i]) && r[i].role != StatusField;
  }

  /** A role gets an update from `PlanOf` exactly when it is not the status field and it is planned. */
  lemma PlanOfRole(ids: map<Role, string>, d: FieldData, role: Role)
    ensures HasRole(PlanOf(ids, d), role) <==> role != StatusField && Planned(ids, d, role)
  {
    if role != StatusField && Planned(ids, d, role) {
      assert role in PlanOrder;
      PlanForComplete(ids, d, PlanOrder, role);
    }
    if HasRole(PlanOf(ids, d), role) {
      PlanOfSound(ids, d, role);
    }
  }

  /**
   * The updates `updateProjectItemFields` plans for an item: one per
   * known field the job has data for, in the order budget, category,
   * size, start date, end date, tags, and never the status field.
   */
  function PlannedUpdates(ids: map<Role, string>, ops: DateOps, job: GitHubJob): (r: seq<FieldUpdate>)
    ensures forall i :: 0 <= i < |r| ==> r[i].role != StatusField && r[i].role in ids && r[i].fieldId == ids[r[i].role]
    ensures forall i, j :: 0 <= i < j < |r| ==> PlanRank(r[i].role) < PlanRank(r[j].role)
  {
    PlanOf(ids, FieldDataOf(ops, job))
  }

  /** Which update `PlanOf` plans for each role, in terms of the derived field data. */
  lemma PlanOfPresence(ids: map<Role, string>, d: FieldData)
    ensures var r := PlanOf(ids, d);
      && (HasRole(r, BudgetField) <==> KnownField(ids, BudgetField) && d.budget != 0)
      && (HasRole(r, CategoryField) <==> KnownField(ids, CategoryField) && d.category != "")
      && (HasRole(r, SizeField) <==> KnownField(ids, SizeField) && d.budget != 0)
      && (HasRole(r, StartDateField) <==> KnownField(ids, StartDateField) && d.start.Some? && d.start.value != "")
      && (HasRole(r, EndDateField) <==> KnownField(ids, EndDateField) && d.end.Some? && d.end.value != "")
      && (HasRole(r, TagsField) <==> KnownField(ids, TagsField) && |d.tags| > 0)
  {
    PlanOfRole(ids, d, BudgetField);
    PlanOfRole(ids, d, CategoryField);
    PlanOfRole(ids, d, SizeField);
    PlanOfRole(ids, d, StartDateField);
    PlanOfRole(ids, d, EndDateField);
    PlanOfRole(ids, d, TagsField);
  }

  /** Which update is planned for each role, in terms of the job and the field table. */
  lemma PlannedUpdatesPresence(ids: map<Role, string>, ops: DateOps, job: GitHubJob)
    ensures var r := PlannedUpdates(ids, ops, job);
      && (HasRole(r, BudgetField) <==> KnownField(ids, BudgetField) && job.budget != 0)
      && (HasRole(r, CategoryField) <==> KnownField(ids, CategoryField) && job.category != "")
      && (HasRole(r, SizeField) <==> KnownField(ids, SizeField) && job.budget != 0)
      && (HasRole(r, StartDateField) <==>
            KnownField(ids, StartDateField) && job.insertedAt != "" && ops.isoDay(job.insertedAt).Some? && ops.isoDay(job.insertedAt).value != "")
      && (HasRole(r, EndDateField) <==>
            KnownField(ids, EndDateField) && ExtractEndDate(ops, job).Some? && ExtractEndDate(ops, job).value != "")
      && (HasRole(r, TagsField) <==> KnownField(ids, TagsField) && |GenerateTags(job)| > 0)
  {
    var d := FieldDataOf(ops, job);
    assert d.start == FormatDate(ops, job.insertedAt) && d.end == ExtractEndDate(ops, job) && d.tags == GenerateTags(job);
    PlanOfPresence(ids, d);
  }

  /** The value sent in an update: the plain budget with ` THB`, the size label as the option id, the dates, the tags joined by `, `. */
  lemma PlannedUpdateValue(ids: map<Role, string>, ops: DateOps, job: GitHubJob, u: FieldUpdate)
    requires u in PlannedUpdates(ids, ops, job)
    ensures u.fieldId == ids[u.role] && u.role != StatusField
    ensures u.role == BudgetField ==> u.value == IntToString(job.budget) + " THB" && u.kind == TextType
    ensures u.role == CategoryField ==> u.value == job.category && u.kind == TextType
    ensures u.role == SizeField ==> u.value == SizeLabel(CalculateSize(job.budget)) && u.kind == SingleSelectType
    ensures u.role == StartDateField ==> Some(u.value) == FormatDate(ops, job.insertedAt) && u.kind == DateType
    ensures u.role == EndDateField ==> Some(u.value) == ExtractEndDate(ops, job) && u.kind == DateType
    ensures u.role == TagsField ==> u.value == Join(GenerateTags(job), ", ") && u.kind == TextType
  {
    var d := FieldDataOf(ops, job);
    var r := PlanOf(ids, d);
    var i :| 0 <= i < |r| && r[i] == u;
    assert UpdateFits(ids, d, r[i]);
    var c := Candidate(d, u.role);
    assert c.Some? && (u.value, u.kind) == c.value;
    match u.role {
      case BudgetField =>
      case CategoryField =>
      case SizeField =>
      case StartDateField => assert d.start == FormatDate(ops, job.insertedAt);
      case EndDateField => assert d.end == ExtractEndDate(ops, job);
      case TagsField => assert d.tags == GenerateTags(job);
      case StatusField =>
    }
  }

  /** The owner and project number in a GitHub Projects URL. */
  datatype ProjectRef = ProjectRef(owner: string, number: nat)

  const UrlScheme := "https://"
  const UsersPrefix := "github.com/users/"
  const ProjectsInfix := "/projects/"

  /** The length of the run of non-slash characters of `s` starting at `i`. */
  function NonSlashRun(s: string, i: nat): (r: nat)
    requires i <= |s|
    ensures i + r <= |s|
    ensures i + r == |s| || s[i + r] == '/'
    decreases |s| - i
  {
    if i < |s| && s[i] != '/' then 1 + NonSlashRun(s, i + 1) else 0
  }

  /** The run holds no slash. */
  lemma {:induction false} NonSlashRunChars(s: string, i: nat)
    requires i <= |s|
    ensures forall k :: i <= k < i + NonSlashRun(s, i) ==> s[k] != '/'
    decreases |s| - i
  {
    if i < |s| && s[i] != '/' {
      NonSlashRunChars(s, i + 1);
    }
  }

  lemma {:induction false} NonSlashRunExact(s: string, i: nat, a: nat)
    requires i <= a <= |s|
    requires forall k :: i <= k < a ==> s[k] != '/'
    requires a == |s| || s[a] == '/'
    ensures NonSlashRun(s, i) == a - i
    decreases a - i
  {
    if i < a {
      NonSlashRunExact(s, i + 1, a);
    }
  }

  /** The text `w` occurs in `s` at `at`, character by character. */
  predicate CharsAt(s: string, at: nat, w: string)
  {
    at + |w| <= |s| && forall k :: 0 <= k < |w| ==> s[at + k] == w[k]
  }

  /** A slice equal to `w` is an occurrence of `w`. */
  lemma CharsAtSlice(s: string, at: nat, w: string)
    requires at + |w| <= |s| && s[at..at + |w|] == w
    ensures CharsAt(s, at, w)
  {
    forall k | 0 <= k < |w| ensures s[at + k] == w[k] {
      assert s[at + k] == s[at..at + |w|][k];
    }
  }

  /**
   * The URL pattern `github.com/users/([^/]+)/projects/(\d+)` at position
   * `i`: when it matches, the lengths of the owner segment and of the
   * number it captures.
   */
  function MatchLengthsAt(s: string, i: nat): (r: Option<(nat, nat)>)
    requires i <= |s|
    ensures r.Some? ==> 0 < r.value.0 && 0 < r.value.1 && i + |UsersPrefix| + r.value.0 + |ProjectsInfix| + r.value.1 <= |s|
  {
    if !CharsAt(s, i, UsersPrefix) then None
    else
      var o := i + |UsersPrefix|;
      var n := NonSlashRun(s, o);
      if n == 0 || !CharsAt(s, o + n, ProjectsInfix) then None
      else
        var m := DigitRun(s, o + n + |ProjectsInfix|);
        if m == 0 then None else Some((n, m))
  }

  /** The digits a match at `i` with lengths `n` and `m` captures as the number. */
  function NumberDigits(s: string, i: nat, n: nat, m: nat): string
    requires i + |UsersPrefix| + n + |ProjectsInfix| + m <= |s|
  {
    var d := i + |UsersPrefix| + n + |ProjectsInfix|;
    s[d..d + m]
  }

  /** The owner and the number captured by a match at `i` with the given lengths. */
  function RefOfMatch(s: string, i: nat, n: nat, m: nat): ProjectRef
    requires i + |UsersPrefix| + n + |ProjectsInfix| + m <= |s|
    requires AllDigits(NumberDigits(s, i, n, m))
  {
    var o := i + |UsersPrefix|;
    ProjectRef(s[o..o + n], DigitsValue(NumberDigits(s, i, n, m)))
  }

  /** A match captures a non-empty owner segment without `/` and a run of digits. */
  lemma MatchCaptures(s: string, i: nat)
    requires i <= |s| && MatchLengthsAt(s, i).Some?
    ensures var (n, m) := MatchLengthsAt(s, i).value;
      && AllDigits(NumberDigits(s, i, n, m))
      && s[i + |UsersPrefix|..i + |UsersPrefix| + n] != []
      && '/' !in s[i + |UsersPrefix|..i + |UsersPrefix| + n]
  {
    var o := i + |UsersPrefix|;
    var (n, m) := MatchLengthsAt(s, i).value;
    var d := o + n + |ProjectsInfix|;
    NonSlashRunChars(s, o);
    var owner := s[o..o + n];
    var digits := s[d..d + m];
    forall k | 0 <= k < |owner| ensures owner[k] != '/' {
      assert owner[k] == s[o + k];
    }
    forall k | 0 <= k < |digits| ensures IsDigit(digits[k]) {
      assert digits[k] == s[d + k];
    }
  }

  /** `MatchLengthsAt` at every position of `s`. */
  function LengthsAt(s: string): nat -> Option<(nat, nat)>
  {
    (k: nat) => if k <= |s| then MatchLengthsAt(s, k) else None
  }

  /** The leftmost match of the URL pattern at or after `start`: where it starts and what it spans. */
  function FirstProjectRef(s: string, start: nat): (r: Option<(nat, (nat, nat))>)
    requires start <= |s|
    ensures r.Some? ==> start <= r.value.0 <= |s| && MatchLengthsAt(s, r.value.0) == Some(r.value.1)
  {
    FirstSome(LengthsAt(s), start, |s|)
  }

  /** No match starts before the one `FirstProjectRef` reports, and none at all when it reports none. */
  lemma FirstProjectRefLeftmost(s: string, start: nat)
    requires start <= |s|
    ensures var r := FirstProjectRef(s, start);
      && (r.Some? ==> forall k :: start <= k < r.value.0 ==> MatchLengthsAt(s, k).None?)
      && (r.None? ==> forall k :: start <= k <= |s| ==> MatchLengthsAt(s, k).None?)
  {
    FirstSomeLeftmost(LengthsAt(s), start, |s|);
    forall k | start <= k <= |s|
      ensures LengthsAt(s)(k) == MatchLengthsAt(s, k)
    {
    }
  }

  /** The constructor's URL parse: `None` where it throws `Invalid GitHub project URL format`. */
  function ParseProjectUrl(url: string): (r: Option<ProjectRef>)
    ensures r.Some? ==> r.value.owner != [] && '/' !in r.value.owner
  {
    var f := FirstProjectRef(url, 0);
    if f.None? then None
    else
      var (i, (n, m)) := f.value;
      MatchCaptures(url, i);
      Some(RefOfMatch(url, i, n, m))
  }

  /** The URL pattern matches no earlier than just after the scheme. */
  lemma NoMatchInScheme(s: string)
    requires UrlScheme <= s
    ensures forall j :: 0 <= j < |UrlScheme| ==> MatchLengthsAt(s, j).None?
  {
    forall j | 0 <= j < |UrlScheme| ensures !CharsAt(s, j, UsersPrefix) {
      assert s[j] == UrlScheme[j];
      assert s[j + 0] != UsersPrefix[0];
    }
  }

  lemma SliceParts<T>(s: seq<T>, i: nat, a: seq<T>, b: seq<T>, c: seq<T>, d: seq<T>)
    requires i <= |s| && s[i..] == a + b + c + d
    ensures |s| == i + |a| + |b| + |c| + |d|
    ensures s[i..i + |a|] == a
    ensures s[i + |a|..i + |a| + |b|] == b
    ensures s[i + |a| + |b|..i + |a| + |b| + |c|] == c
    ensures s[i + |a| + |b| + |c|..] == d
  {
    var t := s[i..];
    assert t[..|a|] == a;
    assert t[|a|..|a| + |b|] == b;
    assert t[|a| + |b|..|a| + |b| + |c|] == c;
    assert t[|a| + |b| + |c|..] == d;
  }

  /**
   * The pattern matches at `i` when an owner segment and a digit run follow
   * `github.com/users/` and `/projects/`, and it captures them.
   */
  lemma MatchAtParts(s: string, i: nat, owner: string, digits: string)
    requires owner != [] && '/' !in owner && digits != [] && AllDigits(digits)
    requires i <= |s| && s[i..] == UsersPrefix + owner + ProjectsInfix + digits
    ensures MatchLengthsAt(s, i) == Some((|owner|, |digits|))
    ensures |s| == i + |UsersPrefix| + |owner| + |ProjectsInfix| + |digits|
    ensures s[i + |UsersPrefix|..i + |UsersPrefix| + |owner|] == owner
    ensures s[i + |UsersPrefix| + |owner| + |ProjectsInfix|..] == digits
  {
    SliceParts(s, i, UsersPrefix, owner, ProjectsInfix, digits);
    var o := i + |UsersPrefix|;
    var e := o + |owner|;
    CharsAtSlice(s, i, UsersPrefix);
    CharsAtSlice(s, e, ProjectsInfix);
    MatchAtRuns(s, i, owner, digits);
  }

  /** What a match on the parts of a built URL captures. */
  lemma RefOfParts(s: string, i: nat, owner: string, digits: string)
    requires AllDigits(digits)
    requires |s| == i + |UsersPrefix| + |owner| + |ProjectsInfix| + |digits|
    requires s[i + |UsersPrefix|..i + |UsersPrefix| + |owner|] == owner
    requires s[i + |UsersPrefix| + |owner| + |ProjectsInfix|..] == digits
    ensures NumberDigits(s, i, |owner|, |digits|) == digits
    ensures RefOfMatch(s, i, |owner|, |digits|) == ProjectRef(owner, DigitsValue(digits))
  {
  }

  /** `MatchAtParts` with the prefix and the infix given as occurrences. */
  lemma MatchAtRuns(s: string, i: nat, owner: string, digits: string)
    requires owner != [] && '/' !in owner && digits != [] && AllDigits(digits)
    requires i + |UsersPrefix| + |owner| + |ProjectsInfix| + |digits| == |s|
    requires CharsAt(s, i, UsersPrefix)
    requires s[i + |UsersPrefix|..i + |UsersPrefix| + |owner|] == owner
    requires CharsAt(s, i + |UsersPrefix| + |owner|, ProjectsInfix)
    requires s[i + |UsersPrefix| + |owner| + |ProjectsInfix|..] == digits
    ensures MatchLengthsAt(s, i) == Some((|owner|, |digits|))
  {
    var o := i + |UsersPrefix|;
    var d := o + |owner| + |ProjectsInfix|;
    assert s[o + |owner| + 0] == ProjectsInfix[0];
    OwnerRun(s, o, owner);
    TrailingDigitsRun(s, d, digits);
  }

  /** The non-slash run at `o` is exactly an owner segment followed by `/`. */
  lemma OwnerRun(s: string, o: nat, owner: string)
    requires o + |owner| < |s| && s[o..o + |owner|] == owner && '/' !in owner && s[o + |owner|] == '/'
    ensures NonSlashRun(s, o) == |owner|
  {
    forall k | o <= k < o + |owner| ensures s[k] != '/' {
      assert s[k] == s[o..o + |owner|][k - o];
    }
    NonSlashRunExact(s, o, o + |owner|);
  }

  /** The digit run at `d` covers digits that end the string. */
  lemma TrailingDigitsRun(s: string, d: nat, digits: string)
    requires d <= |s| && s[d..] == digits && AllDigits(digits)
    ensures DigitRun(s, d) == |digits|
  {
    assert Budget.DigitsIn(s, d, |s|) by {
      forall k | d <= k < |s| ensures IsDigit(s[k]) { assert s[k] == s[d..][k - d]; }
    }
    Budget.DigitRunExact(s, d, |s|);
  }

  /**
   * A project URL built from an owner and a number parses back to them:
   * the owner is the path segment after `users/`, the number the digits
   * after `projects/`.
   */
  lemma ParseProjectUrlRoundTrip(owner: string, n: nat)
    requires owner != [] && '/' !in owner
    ensures ParseProjectUrl(UrlScheme + UsersPrefix + owner + ProjectsInfix + NatToString(n)) == Some(ProjectRef(owner, n))
  {
    var s := UrlScheme + UsersPrefix + owner + ProjectsInfix + NatToString(n);
    ParseBuiltUrl(s, UrlScheme, owner, NatToString(n));
  }

  lemma ParseBuiltUrl(s: string, scheme: string, owner: string, digits: string)
    requires scheme == UrlScheme && owner != [] && '/' !in owner && digits != [] && AllDigits(digits)
    requires s == scheme + UsersPrefix + owner + ProjectsInfix + digits
    ensures ParseProjectUrl(s) == Some(ProjectRef(owner, DigitsValue(digits)))
  {
    var rest := UsersPrefix + owner + ProjectsInfix + digits;
    var i := |scheme|;
    assert UrlScheme <= s && s[i..] == rest by {
      assert s == scheme + rest;
    }
    assert forall k :: 0 <= k < i ==> LengthsAt(s)(k).None? by {
      NoMatchInScheme(s);
    }
    assert LengthsAt(s)(i) == Some((|owner|, |digits|)) && RefOfMatch(s, i, |owner|, |digits|) == ProjectRef(owner, DigitsValue(digits)) by {
      MatchAtParts(s, i, owner, digits);
      RefOfParts(s, i, owner, digits);
    }
    FirstSomeAt(LengthsAt(s), 0, |s|, i);
  }
}
