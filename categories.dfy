/**
 * The category configuration and its manager (src/config/categories.js):
 * an ordered list of enabled category ids used as a set, the list of all
 * categories, and a shallow top-level merge of configuration updates.
 */
module Categories {
  import opened Common
  import opened Fastwork

  datatype CategoriesConfig = CategoriesConfig(enabled: seq<string>, all: seq<Category>)
  datatype Processing = Processing(minBudget: int, maxJobsPerRun: int, pageSize: int)
  datatype Analysis = Analysis(enabled: bool, batchSize: int, delayBetweenRequests: int)
  datatype Channel = Channel(enabled: bool, formatStyle: string)
  datatype Notifications = Notifications(facebook: Channel, telegram: Channel)

  /** The configuration object with its four top-level keys. */
  datatype Config = Config(categories: CategoriesConfig, processing: Processing, analysis: Analysis, notifications: Notifications)

  /** The argument of `updateConfig`: the top-level keys it carries. */
  datatype ConfigPatch = ConfigPatch(
    categories: Option<CategoriesConfig>,
    processing: Option<Processing>,
    analysis: Option<Analysis>,
    notifications: Option<Notifications>)

  const EmptyPatch := ConfigPatch(None, None, None, None)

  /** `DEFAULT_CONFIG`: application and web development enabled, minimum 10,000, five jobs per run. */
  const DefaultConfig := Config(
    CategoriesConfig([ApplicationDevelopment.id, WebDevelopment.id], JobCategories),
    Processing(10000, 5, 20),
    Analysis(true, 5, 1000),
    Notifications(Channel(true, "markdown"), Channel(true, "markdown")))

  /** One entry of `getFormattedCategoriesList`. */
  datatype FormattedCategory = FormattedCategory(id: string, name: string, nameTh: string, enabled: bool)

  /** `{ ...config, ...patch }`: each key the patch carries replaces the old one, the others are kept. */
  function Merge(c: Config, p: ConfigPatch): (r: Config)
    ensures p.categories.Some? ==> r.categories == p.categories.value
    ensures p.categories.None? ==> r.categories == c.categories
    ensures p.processing.Some? ==> r.processing == p.processing.value
    ensures p.processing.None? ==> r.processing == c.processing
    ensures p.analysis.Some? ==> r.analysis == p.analysis.value
    ensures p.analysis.None? ==> r.analysis == c.analysis
    ensures p.notifications.Some? ==> r.notifications == p.notifications.value
    ensures p.notifications.None? ==> r.notifications == c.notifications
  {
    Config(
      if p.categories.Some? then p.categories.value else c.categories,
      if p.processing.Some? then p.processing.value else c.processing,
      if p.analysis.Some? then p.analysis.value else c.analysis,
      if p.notifications.Some? then p.notifications.value else c.notifications)
  }

  /** Two successive updates are one update whose later keys win. */
  function Then(p: ConfigPatch, q: ConfigPatch): ConfigPatch
  {
    ConfigPatch(
      if q.categories.Some? then q.categories else p.categories,
      if q.processing.Some? then q.processing else p.processing,
      if q.analysis.Some? then q.analysis else p.analysis,
      if q.notifications.Some? then q.notifications else p.notifications)
  }

  /** Merging is idempotent, the empty update changes nothing, and successive updates compose. */
  lemma MergeLaws(c: Config, p: ConfigPatch, q: ConfigPatch)
    ensures Merge(c, EmptyPatch) == c
    ensures Merge(Merge(c, p), p) == Merge(c, p)
    ensures Merge(Merge(c, p), q) == Merge(c, Then(p, q))
  {
  }

  /** The enabled list after `enableCategory`: the id is appended unless already present. */
  function Enabled(s: seq<string>, id: string): (r: seq<string>)
    ensures id in r
    ensures forall x :: x in r <==> x in s || x == id
    ensures s <= r && |r| <= |s| + 1
    ensures NoDuplicates(s) ==> NoDuplicates(r)
  {
    if id in s then s else s + [id]
  }

  /** The enabled list after `disableCategory`: every occurrence of the id is removed, the rest keep their order. */
  function Disabled(s: seq<string>, id: string): (r: seq<string>)
    ensures id !in r
    ensures forall x :: x in r <==> x in s && x != id
    ensures forall x :: x != id ==> multiset(r)[x] == multiset(s)[x]
  {
    var r := Filter(s, (x: string) => x != id);
    forall x | x != id
      ensures multiset(r)[x] == multiset(s)[x]
    {
      FilterMultiset(s, (y: string) => y != id, x);
    }
    r
  }

  /** Disabling distributes over concatenation, so the remaining ids keep their relative order. */
  lemma DisabledAppend(a: seq<string>, b: seq<string>, id: string)
    ensures Disabled(a + b, id) == Disabled(a, id) + Disabled(b, id)
  {
    FilterAppend(a, b, (x: string) => x != id);
  }

  /** A single id is dropped exactly when it is the one disabled. */
  lemma DisabledSingle(x: string, id: string)
    ensures Disabled([x], id) == if x == id then [] else [x]
  {
    assert [x][1..] == [];
  }

  /** Enabling twice is enabling once. */
  lemma EnableIdempotent(s: seq<string>, id: string)
    ensures Enabled(Enabled(s, id), id) == Enabled(s, id)
  {
  }

  /** Disabling undoes enabling: the list is as if the id had only been disabled. */
  lemma DisableAfterEnable(s: seq<string>, id: string)
    ensures Disabled(Enabled(s, id), id) == Disabled(s, id)
  {
    if id !in s {
      FilterAppend(s, [id], (x: string) => x != id);
    }
  }

  /** `getCategoryInfo`: the first category with the id, or nothing. */
  function CategoryInfo(all: seq<Category>, id: string): (r: Option<Category>)
    ensures r.None? <==> forall k :: 0 <= k < |all| ==> all[k].id != id
    ensures r.Some? ==> exists k :: 0 <= k < |all| && all[k] == r.value && r.value.id == id
                                     && forall j :: 0 <= j < k ==> all[j].id != id
  {
    if all == [] then None
    else if all[0].id == id then Some(all[0])
    else
      var r := CategoryInfo(all[1..], id);
      if r.Some? then
        var k :| 0 <= k < |all[1..]| && all[1..][k] == r.value && r.value.id == id && forall j :: 0 <= j < k ==> all[1..][j].id != id;
        assert all[k + 1] == r.value;
        r
      else r
  }

  /** `getFormattedCategoriesList`: one entry per category, in order, flagged when enabled. */
  function Formatted(all: seq<Category>, enabled: seq<string>): (r: seq<FormattedCategory>)
    ensures |r| == |all|
    ensures forall i :: 0 <= i < |r| ==>
              && r[i].id == all[i].id && r[i].name == all[i].nameEn && r[i].nameTh == all[i].name
              && (r[i].enabled <==> all[i].id in enabled)
  {
    if all == [] then []
    else [FormattedCategory(all[0].id, all[0].nameEn, all[0].name, all[0].id in enabled)] + Formatted(all[1..], enabled)
  }

  class CategoryManager {
    var config: Config

    constructor (config: Config)
      ensures this.config == config
    {
      this.config := config;
    }

    predicate IsCategoryEnabled(id: string)
      reads this
    {
      id in config.categories.enabled
    }

    function GetCategoryInfo(id: string): (r: Option<Category>)
      reads this
      ensures r.Some? ==> r.value in config.categories.all && r.value.id == id
      ensures r.None? <==> forall c :: c in config.categories.all ==> c.id != id
    {
      CategoryInfo(config.categories.all, id)
    }

    function GetFormattedCategoriesList(): (r: seq<FormattedCategory>)
      reads this
      ensures |r| == |config.categories.all|
      ensures forall i :: 0 <= i < |r| ==> r[i].id == config.categories.all[i].id && (r[i].enabled <==> IsCategoryEnabled(r[i].id))
    {
      Formatted(config.categories.all, config.categories.enabled)
    }

    /** `enableCategory`: appends the id unless it is already enabled; nothing else changes. */
    method EnableCategory(id: string)
      modifies this
      ensures config == old(config).(categories := old(config.categories).(enabled := Enabled(old(config.categories.enabled), id)))
      ensures IsCategoryEnabled(id)
    {
      if id !in config.categories.enabled {
        config := config.(categories := config.categories.(enabled := config.categories.enabled + [id]));
      }
    }

    /** `disableCategory`: drops the id from the enabled list; nothing else changes. */
    method DisableCategory(id: string)
      modifies this
      ensures config == old(config).(categories := old(config.categories).(enabled := Disabled(old(config.categories.enabled), id)))
      ensures !IsCategoryEnabled(id)
    {
      config := config.(categories := config.categories.(enabled := Disabled(config.categories.enabled, id)));
    }

    /** `updateConfig`: a shallow merge of the update into the configuration. */
    method UpdateConfig(p: ConfigPatch)
      modifies this
      ensures config == Merge(old(config), p)
    {
      config := Merge(config, p);
    }
  }
}
