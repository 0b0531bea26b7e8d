/**
 * The crawler runner that ties the crawl manager into the main program: its
 * settings, one crawl pass (content fetch for new items, keyword filtering
 * written into the items, the per-source item lists it keeps in memory), the
 * set of seqs it reports as new, the display list and the RSS conversion.
 */
module CrawlerRunner {
  import opened Common
  import opened CrawlerBase
  import opened KeywordFilter
  import opened CrawlManager
  import CrawlStore
  import ThsCrawler

  // ------------------------------------------------------------------ settings

  /** The runner's settings, as its constructor reads them from the configuration. */
  datatype Settings = Settings(
    enabled: bool,
    pollInterval: Json,
    contentEnabled: bool,
    contentAsync: bool,
    maxItems: Json,
    maxDays: Json,
    maxDisplayItems: int,
    filterEnabled: bool,
    showFilterTag: bool)

  /** `d.get(k, {})` where the value must be a dict for the next `.get`; None when it is not. */
  function Section(d: map<string, Json>, k: string): (r: Option<map<string, Json>>)
    ensures k !in d ==> r == Some(map[])
    ensures k in d && d[k].JObj? ==> r == Some(d[k].fields)
  {
    match Get(d, k, JObj(map[]))
    case JObj(m) => Some(m)
    case _ => None
  }

  /**
   * The settings read from the configuration: the `CRAWLER_CUSTOM` section
   * and its `FULL_CONTENT`, `STORAGE` and `FILTER` sub-sections. None when a
   * section is not a dict, or when `MAX_DISPLAY_ITEMS` is not an integer.
   */
  function SettingsOf(config: map<string, Json>): (r: Option<Settings>)
    ensures "CRAWLER_CUSTOM" in config && !config["CRAWLER_CUSTOM"].JObj? ==> r.None?
    ensures "CRAWLER_CUSTOM" !in config ==> r.Some? && r.value.maxDisplayItems == 100
  {
    var c := Section(config, "CRAWLER_CUSTOM");
    if c.None? then None
    else
      var fc := Section(c.value, "FULL_CONTENT");
      var st := Section(c.value, "STORAGE");
      var fi := Section(c.value, "FILTER");
      if fc.None? || st.None? || fi.None? then None
      else
        match Get(st.value, "MAX_DISPLAY_ITEMS", JInt(100))
        case JInt(shown) =>
          Some(Settings(
            Truthy(Get(c.value, "ENABLED", JBool(true))),
            Get(c.value, "POLL_INTERVAL", JInt(10)),
            Truthy(Get(fc.value, "ENABLED", JBool(true))),
            Truthy(Get(fc.value, "ASYNC_MODE", JBool(true))),
            Get(st.value, "MAX_ITEMS", JInt(10000)),
            Get(st.value, "MAX_DAYS", JInt(30)),
            shown,
            Truthy(Get(fi.value, "ENABLED", JBool(true))),
            Truthy(Get(fi.value, "SHOW_TAG", JBool(true)))))
        case _ => None
  }

  /**
   * An empty configuration enables crawling, content fetching (in the
   * background), filtering and filter tags, polls every 10 seconds, keeps
   * 10000 items for 30 days and shows 100.
   */
  lemma SettingsDefaults()
    ensures SettingsOf(map[]) == Some(Settings(true, JInt(10), true, true, JInt(10000), JInt(30), 100, true, true))
  {
  }

  /** A present key is read as given: the crawler switch is the truthiness of `ENABLED`. */
  lemma SettingsEnabledKey(config: map<string, Json>, c: map<string, Json>)
    requires "CRAWLER_CUSTOM" in config && config["CRAWLER_CUSTOM"] == JObj(c)
    requires SettingsOf(config).Some?
    ensures SettingsOf(config).value.enabled == ("ENABLED" !in c || Truthy(c["ENABLED"]))
  {
  }

  /** The source registered when the configuration lists none. */
  const DefaultSource: map<string, Json> :=
    map["id" := JStr("ths-realtime"), "name" := JStr("同花顺7x24"), "type" := JStr("ths"), "enabled" := JBool(true)]

  /** One configured source: raises unless a dict; skipped when disabled or not of type "ths". */
  function SourceEntry(e: Json): Option<Option<map<string, Json>>> {
    if !e.JObj? then None
    else if !Truthy(Get(e.fields, "enabled", JBool(true))) then Some(None)
    else if Get(e.fields, "type", JStr("ths")) == JStr("ths") then Some(Some(e.fields))
    else Some(None)
  }

  predicate RegistersSource(m: map<string, Json>) {
    Truthy(Get(m, "enabled", JBool(true))) && Get(m, "type", JStr("ths")) == JStr("ths")
  }

  /**
   * `_register_crawlers`: the configured sources that get a crawler, in
   * order; an empty (falsy) list stands for the default source. None when
   * iterating the list or reading an entry raises.
   */
  function RegisteredSources(sources: Json): Option<seq<map<string, Json>>> {
    var entries := if !Truthy(sources) then Some([JObj(DefaultSource)]) else DictEntries(sources);
    if entries.None? then None else TryCollect(entries.value, SourceEntry)
  }

  /** No sources at all (an empty or missing list) registers the default source alone. */
  lemma RegisteredDefault(sources: Json)
    requires !Truthy(sources)
    ensures RegisteredSources(sources) == Some([DefaultSource])
  {
    var one: seq<map<string, Json>> := [DefaultSource];
    var xs := [JObj(DefaultSource)];
    assert xs[..0] == [];
    assert [] + one == one;
    assert TryCollect(xs, SourceEntry) == CollectStep(TryCollect(xs[..0], SourceEntry), SourceEntry(xs[0]));
  }

  /** Every registered source is enabled and of type "ths", and every such entry of the list is registered. */
  lemma RegisteredSourcesSpec(sources: Json)
    ensures RegisteredSources(sources).Some? ==> forall m :: m in RegisteredSources(sources).value ==> RegistersSource(m)
    ensures RegisteredSources(sources).Some? && sources.JList? ==>
              forall k :: 0 <= k < |sources.elems| && sources.elems[k].JObj? && RegistersSource(sources.elems[k].fields) ==>
                sources.elems[k].fields in RegisteredSources(sources).value
  {
    var entries := if !Truthy(sources) then Some([JObj(DefaultSource)]) else DictEntries(sources);
    if RegisteredSources(sources).Some? {
      forall m | m in RegisteredSources(sources).value ensures RegistersSource(m) {
        TryCollectSound(entries.value, SourceEntry, m);
      }
      if sources.JList? {
        forall k | 0 <= k < |sources.elems| && sources.elems[k].JObj? && RegistersSource(sources.elems[k].fields)
          ensures sources.elems[k].fields in RegisteredSources(sources).value
        {
          assert Truthy(sources);
          assert entries.value == sources.elems;
          assert SourceEntry(sources.elems[k]) == Some(Some(sources.elems[k].fields));
          TryCollectComplete(entries.value, SourceEntry, k);
        }
      }
    }
  }

  /** The crawler registered for a "ths" source. */
  function ThsSource(): Crawler {
    BaseCrawler(ThsCrawler.SourceId, ThsCrawler.SourceName)
  }

  // ---------------------------------------------------------------- filtering

  /** What `_apply_filter` does to a source's items (or what is done instead when filtering is off). */
  datatype FilterPlan =
    | Untouched
    | ClearAll
    | Screen(groups: seq<WordGroup>, globalFilters: seq<string>)

  /**
   * Filtering off, or a keyword file that configures nothing, clears every
   * item's filter flag and keywords; a file that cannot be read raises, and
   * the exception is caught, leaving the items as they are.
   */
  function PlanOf(filterEnabled: bool, file: KeywordFile): FilterPlan {
    if !filterEnabled then ClearAll
    else match file
      case FileUnreadable => Untouched
      case FileMissing => ClearAll
      case FileLines(lines) =>
        var st := ParseLines(lines);
        if st.groups == [] && st.filterWords == [] && st.globalFilters == [] then ClearAll
        else Screen(st.groups, st.globalFilters)
  }

  /** The item marked as passing, with no keywords; its filter reason is left as it was. */
  function Cleared(it: NewsItem): NewsItem {
    it.(filteredOut := false, matchedKeywords := [])
  }

  function ApplyOne(plan: FilterPlan, it: NewsItem, search: RegexSearch): NewsItem {
    match plan
    case Untouched => it
    case ClearAll => Cleared(it)
    case Screen(groups, globalFilters) => WithOutcome(it, FilterNewsItem(it, groups, globalFilters, search))
  }

  function Apply(plan: FilterPlan, items: seq<NewsItem>, search: RegexSearch): seq<NewsItem> {
    seq(|items|, i requires 0 <= i < |items| => ApplyOne(plan, items[i], search))
  }

  /**
   * With filtering off, or nothing configured, every item passes with no
   * keywords; a screened item is marked filtered out exactly when the filter
   * rejects it. The seq, title and url never change.
   */
  lemma ApplySpec(filterEnabled: bool, file: KeywordFile, items: seq<NewsItem>, search: RegexSearch)
    ensures var r := Apply(PlanOf(filterEnabled, file), items, search);
            && |r| == |items|
            && (forall i :: 0 <= i < |r| ==>
                  r[i].seqNo == items[i].seqNo && r[i].title == items[i].title && r[i].url == items[i].url)
            && (!filterEnabled || file.FileMissing? ==> forall i :: 0 <= i < |r| ==> !r[i].filteredOut && r[i].matchedKeywords == [])
            && (filterEnabled && file.FileUnreadable? ==> r == items)
            && (filterEnabled && file.FileLines? ==>
                  var st := ParseLines(file.lines);
                  forall i :: 0 <= i < |r| ==>
                    if st.groups == [] && st.filterWords == [] && st.globalFilters == []
                    then !r[i].filteredOut && r[i].matchedKeywords == []
                    else r[i].filteredOut == !FilterNewsItem(items[i], st.groups, st.globalFilters, search).passed)
  {
  }

  /** Clearing every item of an array in place (the no-filter branches of `crawl_once` and `_apply_filter`). */
  method ClearItems(items: array<NewsItem>)
    modifies items
    ensures forall i :: 0 <= i < items.Length ==> items[i] == Cleared(old(items[i]))
  {
    var i := 0;
    while i < items.Length
      invariant 0 <= i <= items.Length
      invariant forall j :: 0 <= j < i ==> items[j] == Cleared(old(items[j]))
      invariant forall j :: i <= j < items.Length ==> items[j] == old(items[j])
    {
      items[i] := Cleared(items[i]);
      i := i + 1;
    }
  }

  // ---------------------------------------------------------------- crawl pass

  /** Items handed to the manager's content fetch: in the background (`async`) or waited for. */
  datatype ContentJob = ContentJob(sourceId: string, items: seq<NewsItem>, async: bool)

  /** The arguments every registered filter callback receives. */
  datatype FilterCall = FilterCall(sourceId: string, passed: seq<NewsItem>, filtered: seq<NewsItem>)

  /** Everything one crawl pass of the runner reads besides its own state. */
  datatype Ctx = Ctx(
    settings: Settings,
    crawled: map<string, CrawlResult>,
    crawlers: map<string, Crawler>,
    plan: FilterPlan,
    search: RegexSearch,
    fetch: NewsItem -> ContentOutcome,
    now: string,
    callbacks: bool)

  predicate NotFetched(it: NewsItem) {
    !it.contentFetched
  }

  /** Content is requested for a result with new items, and only for its items not fetched yet. */
  predicate Dispatches(s: Settings, res: CrawlResult) {
    s.contentEnabled && res.newCount > 0 && KeepIf(res.items, NotFetched) != []
  }

  /** The items after the content fetch when it is waited for and the source's crawler supports it. */
  function Prepared(c: Ctx, sid: string, res: CrawlResult): seq<NewsItem> {
    if Dispatches(c.settings, res) && !c.settings.contentAsync && sid in c.crawlers && c.crawlers[sid].supportsFullContent
    then seq(|res.items|, i requires 0 <= i < |res.items| => ContentStep(res.items[i], c.fetch(res.items[i]), c.now))
    else res.items
  }

  /** A successful source's items at the end of the pass. */
  function ItemsAfter(c: Ctx, sid: string, res: CrawlResult): seq<NewsItem> {
    Apply(c.plan, Prepared(c, sid, res), c.search)
  }

  /** A result at the end of the pass: only a successful one has its items changed. */
  function Processed(c: Ctx, sid: string, res: CrawlResult): CrawlResult {
    if res.status == Success then res.(items := ItemsAfter(c, sid, res)) else res
  }

  function JobOf(c: Ctx, sid: string, res: CrawlResult): seq<ContentJob> {
    if res.status == Success && Dispatches(c.settings, res)
    then [ContentJob(sid, KeepIf(res.items, NotFetched), c.settings.contentAsync)]
    else []
  }

  function CallOf(c: Ctx, sid: string, res: CrawlResult): seq<FilterCall> {
    if res.status == Success && c.plan.Screen? && c.callbacks
    then var items := ItemsAfter(c, sid, res);
         [FilterCall(sid, KeepIf(items, IsKept), KeepIf(items, IsDropped))]
    else []
  }

  /** The runner's state while its pass goes through the results. */
  datatype Round = Round(
    results: map<string, CrawlResult>,
    lastItems: map<string, seq<NewsItem>>,
    itemOrder: seq<string>,
    jobs: seq<ContentJob>,
    calls: seq<FilterCall>)

  /** One iteration of the loop of `crawl_once`; failed results are only reported. */
  function Visit(p: Round, c: Ctx, sid: string): Round
    requires sid in c.crawled
  {
    var res := c.crawled[sid];
    if res.status != Success then p
    else
      var items := ItemsAfter(c, sid, res);
      Round(p.results[sid := res.(items := items)],
            p.lastItems[sid := items],
            if sid in p.lastItems then p.itemOrder else p.itemOrder + [sid],
            p.jobs + JobOf(c, sid, res),
            p.calls + CallOf(c, sid, res))
  }

  function VisitAll(p: Round, c: Ctx, sids: seq<string>): Round
    requires forall i :: 0 <= i < |sids| ==> sids[i] in c.crawled
    decreases |sids|
  {
    if sids == [] then p
    else Visit(VisitAll(p, c, sids[..|sids| - 1]), c, sids[|sids| - 1])
  }

  /** Every result visited ends up processed; the others are as they were. */
  lemma {:induction false} VisitAllResults(p: Round, c: Ctx, sids: seq<string>)
    requires forall i :: 0 <= i < |sids| ==> sids[i] in c.crawled
    requires p.results == c.crawled
    ensures VisitAll(p, c, sids).results.Keys == c.crawled.Keys
    ensures forall k :: k in c.crawled ==>
              VisitAll(p, c, sids).results[k] == if k in sids then Processed(c, k, c.crawled[k]) else c.crawled[k]
    decreases |sids|
  {
    if sids != [] {
      var pre := sids[..|sids| - 1];
      var last := sids[|sids| - 1];
      VisitAllResults(p, c, pre);
      assert forall k :: k in sids <==> k in pre || k == last by {
        assert sids == pre + [last];
      }
      var q := VisitAll(p, c, pre);
      assert VisitAll(p, c, sids) == Visit(q, c, last);
    }
  }

  /** One visit keeps the kept lists and their order consistent, appending a new source at the end. */
  lemma VisitOrder(q: Round, c: Ctx, sid: string)
    requires sid in c.crawled
    requires NoDups(q.itemOrder) && (set x | x in q.itemOrder) == q.lastItems.Keys
    ensures var r := Visit(q, c, sid);
            && NoDups(r.itemOrder) && (set x | x in r.itemOrder) == r.lastItems.Keys
            && |q.itemOrder| <= |r.itemOrder| && r.itemOrder[..|q.itemOrder|] == q.itemOrder
  {
    if c.crawled[sid].status == Success && sid !in q.lastItems {
      assert (q.itemOrder + [sid])[..|q.itemOrder|] == q.itemOrder;
      assert (set x | x in q.itemOrder + [sid]) == (set x | x in q.itemOrder) + {sid};
    }
  }

  /**
   * The sources kept before keep their places in the order, each source
   * appears once, and the order lists exactly the kept sources.
   */
  lemma {:induction false} VisitAllOrder(p: Round, c: Ctx, sids: seq<string>)
    requires forall i :: 0 <= i < |sids| ==> sids[i] in c.crawled
    requires NoDups(p.itemOrder) && (set x | x in p.itemOrder) == p.lastItems.Keys
    ensures var r := VisitAll(p, c, sids);
            && NoDups(r.itemOrder) && (set x | x in r.itemOrder) == r.lastItems.Keys
            && |p.itemOrder| <= |r.itemOrder| && r.itemOrder[..|p.itemOrder|] == p.itemOrder
    decreases |sids|
  {
    if sids != [] {
      var pre := sids[..|sids| - 1];
      VisitAllOrder(p, c, pre);
      var q := VisitAll(p, c, pre);
      VisitOrder(q, c, sids[|sids| - 1]);
      var r := VisitAll(p, c, sids);
      assert r.itemOrder[..|p.itemOrder|] == r.itemOrder[..|q.itemOrder|][..|p.itemOrder|];
    }
  }

  /** `r` keeps the items of the successful results of `sids` and, for every other source, what `p` kept. */
  ghost predicate ItemsKept(p: Round, r: Round, c: Ctx, sids: seq<string>)
    requires forall i :: 0 <= i < |sids| ==> sids[i] in c.crawled
  {
    && (forall k :: k in r.lastItems <==> k in p.lastItems || (k in sids && c.crawled[k].status == Success))
    && (forall k :: k in r.lastItems ==>
          r.lastItems[k] == if k in sids && c.crawled[k].status == Success
                            then ItemsAfter(c, k, c.crawled[k]) else p.lastItems[k])
  }

  /** Every successful result visited gets its items into the kept lists; the other lists stay. */
  lemma {:induction false} VisitAllItems(p: Round, c: Ctx, sids: seq<string>)
    requires forall i :: 0 <= i < |sids| ==> sids[i] in c.crawled
    ensures ItemsKept(p, VisitAll(p, c, sids), c, sids)
    decreases |sids|
  {
    if sids != [] {
      var pre := sids[..|sids| - 1];
      VisitAllItems(p, c, pre);
      VisitItemsStep(p, VisitAll(p, c, pre), c, pre, sids[|sids| - 1]);
      assert sids == pre + [sids[|sids| - 1]];
    }
  }

  /** The step of `VisitAllItems`: visiting one more source keeps the invariant. */
  lemma VisitItemsStep(p: Round, q: Round, c: Ctx, pre: seq<string>, last: string)
    requires forall i :: 0 <= i < |pre| ==> pre[i] in c.crawled
    requires last in c.crawled && ItemsKept(p, q, c, pre)
    ensures ItemsKept(p, Visit(q, c, last), c, pre + [last])
  {
    assert forall k :: k in pre + [last] <==> k in pre || k == last;
  }

  /**
   * The jobs and filter calls `r` holds beyond those of `p`: every job comes
   * from a successful source of `sids` that dispatches, and asks for exactly
   * its items not fetched yet; no job without content fetching, no filter
   * call without screening and callbacks.
   */
  ghost predicate JobsFrom(p: Round, c: Ctx, sids: seq<string>, r: Round) {
    && |r.jobs| >= |p.jobs| && r.jobs[..|p.jobs|] == p.jobs
    && (forall j :: |p.jobs| <= j < |r.jobs| ==> JobFrom(c, sids, r.jobs[j]))
    && (!c.settings.contentEnabled ==> r.jobs == p.jobs)
    && (!c.plan.Screen? || !c.callbacks ==> r.calls == p.calls)
  }

  /** A job for a successful source of `sids` that dispatches, asking for exactly its items not fetched yet. */
  predicate JobFrom(c: Ctx, sids: seq<string>, job: ContentJob) {
    var sid := job.sourceId;
    && sid in sids && sid in c.crawled && c.crawled[sid].status == Success && Dispatches(c.settings, c.crawled[sid])
    && job.items == KeepIf(c.crawled[sid].items, NotFetched)
  }

  /** A job from some sources is a job from more sources. */
  lemma JobFromWiden(c: Ctx, pre: seq<string>, last: string, job: ContentJob)
    requires JobFrom(c, pre, job)
    ensures JobFrom(c, pre + [last], job)
  {
    assert job.sourceId in pre + [last];
  }

  /** The job one source adds is a job from it. */
  lemma JobOfFrom(c: Ctx, pre: seq<string>, last: string, job: ContentJob)
    requires last in c.crawled && job in JobOf(c, last, c.crawled[last])
    ensures JobFrom(c, pre + [last], job)
  {
    assert last in pre + [last];
  }

  /** Visiting one more source adds its job and its filter call, if any. */
  lemma VisitAdds(q: Round, c: Ctx, last: string)
    requires last in c.crawled
    ensures Visit(q, c, last).jobs == q.jobs + JobOf(c, last, c.crawled[last])
    ensures Visit(q, c, last).calls == q.calls + CallOf(c, last, c.crawled[last])
  {
    if c.crawled[last].status != Success {
      assert JobOf(c, last, c.crawled[last]) == [] && CallOf(c, last, c.crawled[last]) == [];
    }
  }

  /** Adding one more source's job and filter call keeps the jobs accounted for. */
  lemma VisitJobsStep(p: Round, c: Ctx, pre: seq<string>, last: string, q: Round, r: Round)
    requires last in c.crawled && JobsFrom(p, c, pre, q)
    requires r.jobs == q.jobs + JobOf(c, last, c.crawled[last])
    requires r.calls == q.calls + CallOf(c, last, c.crawled[last])
    ensures JobsFrom(p, c, pre + [last], r)
  {
    assert r.jobs[..|q.jobs|] == q.jobs;
    assert r.jobs[..|p.jobs|] == q.jobs[..|p.jobs|];
    forall j | |p.jobs| <= j < |r.jobs|
      ensures JobFrom(c, pre + [last], r.jobs[j])
    {
      if j < |q.jobs| {
        assert r.jobs[j] == q.jobs[j];
        JobFromWiden(c, pre, last, q.jobs[j]);
      } else {
        assert r.jobs[j] in JobOf(c, last, c.crawled[last]);
        JobOfFrom(c, pre, last, r.jobs[j]);
      }
    }
  }

  /** Every job and filter call of the pass comes from a successful source it visited. */
  lemma {:induction false} VisitAllJobs(p: Round, c: Ctx, sids: seq<string>)
    requires forall i :: 0 <= i < |sids| ==> sids[i] in c.crawled
    ensures JobsFrom(p, c, sids, VisitAll(p, c, sids))
    decreases |sids|
  {
    if sids != [] {
      var pre := sids[..|sids| - 1];
      VisitAllJobs(p, c, pre);
      var q := VisitAll(p, c, pre);
      VisitAdds(q, c, sids[|sids| - 1]);
      VisitJobsStep(p, c, pre, sids[|sids| - 1], q, Visit(q, c, sids[|sids| - 1]));
      assert sids == pre + [sids[|sids| - 1]];
    }
  }

  /**
   * What a crawl pass leaves, when it visits every crawled result starting
   * from the crawl's own results: every result is processed (a successful
   * one's items content-fetched and filtered, a failed one as it was); each
   * successful source's kept list is its processed items, the other kept
   * lists stay; the kept sources keep their places in the order.
   */
  lemma CrawlPassSpec(c: Ctx, order: seq<string>, lastItems: map<string, seq<NewsItem>>, itemOrder: seq<string>)
    requires (set x | x in order) == c.crawled.Keys
    requires NoDups(itemOrder) && (set x | x in itemOrder) == lastItems.Keys
    ensures forall j :: 0 <= j < |order| ==> order[j] in c.crawled
    ensures var q := VisitAll(Round(c.crawled, lastItems, itemOrder, [], []), c, order);
            && q.results.Keys == c.crawled.Keys
            && (forall k :: k in q.results ==> q.results[k] == Processed(c, k, c.crawled[k]))
            && (forall k :: k in q.lastItems <==> k in lastItems || (k in q.results && q.results[k].status == Success))
            && (forall k :: k in q.lastItems ==>
                  q.lastItems[k] == if k in q.results && q.results[k].status == Success then q.results[k].items
                                    else lastItems[k])
            && NoDups(q.itemOrder) && (set x | x in q.itemOrder) == q.lastItems.Keys
            && |itemOrder| <= |q.itemOrder| && q.itemOrder[..|itemOrder|] == itemOrder
  {
    assert forall j :: 0 <= j < |order| ==> order[j] in c.crawled by {
      assert forall j :: 0 <= j < |order| ==> order[j] in (set x | x in order);
    }
    assert forall k :: k in c.crawled ==> k in order by {
      assert forall k :: k in c.crawled ==> k in (set x | x in order);
    }
    var p0 := Round(c.crawled, lastItems, itemOrder, [], []);
    VisitAllResults(p0, c, order);
    VisitAllOrder(p0, c, order);
    VisitAllItems(p0, c, order);
    KeptAsResults(p0, VisitAll(p0, c, order), c, order);
  }

  /** Once every source is visited, the kept lists read off the processed results. */
  lemma KeptAsResults(p: Round, q: Round, c: Ctx, order: seq<string>)
    requires forall j :: 0 <= j < |order| ==> order[j] in c.crawled
    requires forall k :: k in c.crawled ==> k in order
    requires q.results.Keys == c.crawled.Keys
    requires forall k :: k in q.results ==> q.results[k] == Processed(c, k, c.crawled[k])
    requires ItemsKept(p, q, c, order)
    ensures forall k :: k in q.lastItems <==> k in p.lastItems || (k in q.results && q.results[k].status == Success)
    ensures forall k :: k in q.lastItems ==>
              q.lastItems[k] == if k in q.results && q.results[k].status == Success then q.results[k].items
                                else p.lastItems[k]
  {
    forall k ensures (k in order && c.crawled[k].status == Success) <==> (k in q.results && q.results[k].status == Success) {
      if k in q.results {
        assert q.results[k] == Processed(c, k, c.crawled[k]);
      }
    }
  }

  // -------------------------------------------------------------- the runner

  /** What the runner shows for one item: the item, whether it is new, and its filter tag. */
  datatype DisplayEntry = DisplayEntry(item: NewsItem, isNew: bool, filterTag: string)

  /** The entry `get_items_for_display` builds for `it`. */
  function EntryOf(it: NewsItem, newSeqs: set<string>, showTag: bool): DisplayEntry {
    DisplayEntry(it, it.seqNo in newSeqs, if showTag then FilterTag(it) else "")
  }

  /** The entry's dictionary: the item's dictionary form plus `is_new` and `filter_tag`. */
  function EntryDict(e: DisplayEntry): map<string, Json> {
    ItemToDict(e.item)["is_new" := JBool(e.isNew)]["filter_tag" := JStr(e.filterTag)]
  }

  /** The two display keys are not among the item's own keys. */
  lemma DisplayKeysFresh()
    ensures "is_new" !in ItemKeys() && "filter_tag" !in ItemKeys()
  {
  }

  /** The dictionary has the item's seventeen keys, unchanged, and the two display keys. */
  lemma EntryDictSpec(e: DisplayEntry)
    ensures var d := EntryDict(e);
            && d.Keys == ItemKeys() + {"is_new", "filter_tag"}
            && d["is_new"] == JBool(e.isNew) && d["filter_tag"] == JStr(e.filterTag)
            && forall k :: k in ItemToDict(e.item) ==> d[k] == ItemToDict(e.item)[k]
  {
    DisplayKeysFresh();
    TwoKeysAdded(ItemToDict(e.item), "is_new", JBool(e.isNew), "filter_tag", JStr(e.filterTag));
  }

  /** Adding two new keys to a map keeps its old entries and has exactly the old keys and the new ones. */
  lemma TwoKeysAdded(m: map<string, Json>, a: string, va: Json, b: string, vb: Json)
    requires a !in m && b !in m && a != b
    ensures var d := m[a := va][b := vb];
            && d.Keys == m.Keys + {a, b} && d[a] == va && d[b] == vb
            && forall k :: k in m ==> d[k] == m[k]
  {
  }

  /** `_get_filter_tag` */
  function FilterTag(it: NewsItem): string {
    if it.filteredOut then "🚫 " + it.filterReason
    else if it.matchedKeywords != [] then "✓ " + Join(it.matchedKeywords, ", ")
    else ""
  }

  /**
   * The tag names the reason of a filtered-out item, lists the keywords of
   * a matched one, and is empty exactly for a passing item without keywords.
   */
  lemma FilterTagSpec(it: NewsItem)
    ensures FilterTag(it) == "" <==> !it.filteredOut && it.matchedKeywords == []
    ensures it.filteredOut <==> StartsWith(FilterTag(it), "🚫 ")
    ensures it.filteredOut ==> FilterTag(it)[|"🚫 "|..] == it.filterReason
    ensures !it.filteredOut && it.matchedKeywords != [] ==>
              StartsWith(FilterTag(it), "✓ ") && FilterTag(it)[|"✓ "|..] == Join(it.matchedKeywords, ", ")
  {
  }

  /** The seqs of the first `newCount` items of each successful result of `keys`. */
  function NewSeqs(results: map<string, CrawlResult>, keys: seq<string>): (s: set<string>)
    ensures forall q :: q in s <==>
              exists i :: 0 <= i < |keys| && keys[i] in results && results[keys[i]].status == Success
                          && q in SeqSet(Take(results[keys[i]].items, results[keys[i]].newCount))
    decreases |keys|
  {
    if keys == [] then {}
    else
      var pre := keys[..|keys| - 1];
      var k := keys[|keys| - 1];
      var s := NewSeqs(results, pre);
      assert forall i :: 0 <= i < |pre| ==> keys[i] == pre[i];
      if k in results && results[k].status == Success then s + SeqSet(Take(results[k].items, results[k].newCount))
      else s
  }

  /** The items of `keys`' lists, concatenated in order. */
  function Concat(lists: map<string, seq<NewsItem>>, keys: seq<string>): (r: seq<NewsItem>)
    requires forall i :: 0 <= i < |keys| ==> keys[i] in lists
    decreases |keys|
  {
    if keys == [] then [] else Concat(lists, keys[..|keys| - 1]) + lists[keys[|keys| - 1]]
  }

  /** Every item of every kept list is in the concatenation. */
  lemma {:induction false} ConcatHas(lists: map<string, seq<NewsItem>>, keys: seq<string>, i: int, j: int)
    requires forall x :: 0 <= x < |keys| ==> keys[x] in lists
    requires 0 <= i < |keys| && 0 <= j < |lists[keys[i]]|
    ensures lists[keys[i]][j] in Concat(lists, keys)
    decreases |keys|
  {
    var pre := keys[..|keys| - 1];
    if i < |keys| - 1 {
      assert keys[i] == pre[i];
      ConcatHas(lists, pre, i, j);
    }
  }

  /** `get_items_for_display`'s selection: the limit, the candidate items, then the filter and the cut. */
  function Shown(candidates: seq<NewsItem>, includeFiltered: bool, limit: int): seq<NewsItem> {
    Take(if includeFiltered then candidates else KeepIf(candidates, IsKept), limit)
  }

  /** Without filtered items requested, none is shown; never more than a non-negative limit. */
  lemma ShownSpec(candidates: seq<NewsItem>, includeFiltered: bool, limit: int)
    ensures var r := Shown(candidates, includeFiltered, limit);
            && (!includeFiltered ==> forall i :: 0 <= i < |r| ==> !r[i].filteredOut)
            && (limit >= 0 ==> |r| <= limit)
            && (includeFiltered && 0 <= limit ==> r == candidates[..if limit <= |candidates| then limit else |candidates|])
            && (forall i :: 0 <= i < |r| ==> r[i] in candidates)
  {
    var kept := KeepIf(candidates, IsKept);
    var r := Shown(candidates, includeFiltered, limit);
    if !includeFiltered {
      forall i | 0 <= i < |r| ensures !r[i].filteredOut {
        assert r[i] in kept;
      }
    }
  }

  /** `convert_to_rss_format`'s summary as written: the conditional covers the whole `or`. */
  function RssSummaryAsWritten(it: NewsItem): string {
    if it.fullContent != "" then (if it.summary != "" then it.summary else Take(it.fullContent, 200)) else ""
  }

  /** The summary goes missing for an item that has one but no full content. */
  lemma RssSummaryAsWrittenDropsSummary()
    ensures var it := NewNewsItem("1", "t").(summary := "s");
            RssSummaryAsWritten(it) == "" && it.summary != ""
  {
  }

  /** The summary as evidently intended: the item's own summary, else the first 200 characters of its content. */
  function RssSummary(it: NewsItem): (s: string)
    ensures it.summary != "" ==> s == it.summary
    ensures it.summary == "" ==> s == it.fullContent[..if |it.fullContent| <= 200 then |it.fullContent| else 200]
    ensures |s| <= if it.summary != "" then |it.summary| else 200
  {
    if it.summary != "" then it.summary else Take(it.fullContent, 200)
  }

  /** The two readings agree whenever the item has full content. */
  lemma RssSummaryAgrees(it: NewsItem)
    ensures it.fullContent != "" ==> RssSummaryAsWritten(it) == RssSummary(it)
    ensures it.fullContent == "" ==> RssSummaryAsWritten(it) == "" && RssSummary(it) == it.summary
  {
  }

  /** The twelve keys of an RSS-style entry. */
  const RssKeys: set<string> := {"title", "feed_id", "feed_name", "url", "published_at", "summary", "author",
                                 "full_content", "matched_keywords", "filtered_out", "filter_reason", "extra"}

  /** One RSS-style entry: the item's title, url, time, content and filter fields under the fixed feed. */
  function RssEntry(it: NewsItem): (d: map<string, Json>)
    ensures "summary" in d && d["summary"] == JStr(RssSummary(it))
  {
    map[
      "title" := JStr(it.title),
      "feed_id" := JStr("ths-realtime"),
      "feed_name" := JStr("同花顺7x24"),
      "url" := JStr(it.url),
      "published_at" := JStr(it.publishedAt),
      "summary" := JStr(RssSummary(it)),
      "author" := JStr(it.source),
      "full_content" := JStr(it.fullContent),
      "matched_keywords" := JList(StrList(it.matchedKeywords)),
      "filtered_out" := JBool(it.filteredOut),
      "filter_reason" := JStr(it.filterReason),
      "extra" := JObj(it.extra)
    ]
  }

  /** Every entry has the same twelve keys, the fixed feed, the source as author, and the item's own fields. */
  lemma RssEntrySpec(it: NewsItem)
    ensures var d := RssEntry(it);
            && d.Keys == RssKeys
            && d["feed_id"] == JStr(ThsCrawler.SourceId) && d["feed_name"] == JStr(ThsCrawler.SourceName)
            && d["author"] == JStr(it.source) && d["title"] == JStr(it.title) && d["url"] == JStr(it.url)
            && d["filtered_out"] == JBool(it.filteredOut)
  {
  }

  /** `convert_to_rss_format`: one entry per item, in order. */
  method ConvertToRss(items: seq<NewsItem>) returns (r: seq<map<string, Json>>)
    ensures |r| == |items|
    ensures forall i :: 0 <= i < |items| ==> r[i] == RssEntry(items[i])
  {
    r := [];
    var i := 0;
    while i < |items|
      invariant 0 <= i <= |items| && |r| == i
      invariant forall j :: 0 <= j < i ==> r[j] == RssEntry(items[j])
    {
      r := r + [RssEntry(items[i])];
      i := i + 1;
    }
  }

  /** The runner's state after its pass over the crawled results. */
  function PassOf(crawled: CrawlPass, crawlers: map<string, Crawler>, order: seq<string>, settings: Settings,
                  file: KeywordFile, search: RegexSearch, fetch: NewsItem -> ContentOutcome, now: string,
                  callbacks: bool, lastItems: map<string, seq<NewsItem>>, itemOrder: seq<string>): Round
    requires forall j :: 0 <= j < |order| ==> order[j] in crawled.results
  {
    var c := Ctx(settings, crawled.results, crawlers, PlanOf(settings.filterEnabled, file), search, fetch, now, callbacks);
    VisitAll(Round(crawled.results, lastItems, itemOrder, [], []), c, order)
  }

  /** The part of the manager's state the runner's pass writes: its raw-item table and its error log. */
  datatype Stored = Stored(rows: CrawlStore.Store, errorLog: seq<ErrorLogEntry>)

  /** The pass waits for this source's content: a successful result with content to request, fetched in the foreground by a crawler that can. */
  predicate Waits(c: Ctx, sid: string, res: CrawlResult) {
    && res.status == Success && Dispatches(c.settings, res) && !c.settings.contentAsync
    && sid in c.crawlers && c.crawlers[sid].supportsFullContent
  }

  /** The table and log after one source's content request: rows rewritten and exceptions logged only when the pass waits. */
  function StoredAfter(s: Stored, c: Ctx, sid: string, res: CrawlResult, hasDb: bool, maxErrorLog: int): Stored {
    if Waits(c, sid, res)
    then Stored(ContentRows(s.rows, sid, res.items, c.fetch, c.now, hasDb),
                AppendCapped(s.errorLog, ContentErrors(sid, res.items, c.fetch, c.now), maxErrorLog))
    else s
  }

  /** The table and log after the pass has visited `sids` in order. */
  function StoredAll(s: Stored, c: Ctx, sids: seq<string>, hasDb: bool, maxErrorLog: int): Stored
    requires forall i :: 0 <= i < |sids| ==> sids[i] in c.crawled
    decreases |sids|
  {
    if sids == [] then s
    else
      var n := |sids|;
      StoredAfter(StoredAll(s, c, sids[..n - 1], hasDb, maxErrorLog), c, sids[n - 1], c.crawled[sids[n - 1]], hasDb, maxErrorLog)
  }

  /** The manager's table and log after the runner's pass over a crawl, starting from those the crawl left. */
  function StoredOf(crawled: CrawlPass, crawlers: map<string, Crawler>, order: seq<string>, settings: Settings,
                    file: KeywordFile, search: RegexSearch, fetch: NewsItem -> ContentOutcome, now: string,
                    callbacks: bool, hasDb: bool, maxErrorLog: int): Stored
    requires forall j :: 0 <= j < |order| ==> order[j] in crawled.results
  {
    var c := Ctx(settings, crawled.results, crawlers, PlanOf(settings.filterEnabled, file), search, fetch, now, callbacks);
    StoredAll(Stored(crawled.rows, crawled.errorLog), c, order, hasDb, maxErrorLog)
  }

  /** With content fetching off or in the background, the pass leaves the table and the log as they were. */
  lemma {:induction false} StoredAllKeeps(s: Stored, c: Ctx, sids: seq<string>, hasDb: bool, maxErrorLog: int)
    requires forall i :: 0 <= i < |sids| ==> sids[i] in c.crawled
    requires !c.settings.contentEnabled || c.settings.contentAsync
    ensures StoredAll(s, c, sids, hasDb, maxErrorLog) == s
    decreases |sids|
  {
    if sids != [] {
      StoredAllKeeps(s, c, sids[..|sids| - 1], hasDb, maxErrorLog);
    }
  }

  /** Failed results and sources without new items or without full-content support leave the table and log alone. */
  lemma {:induction false} StoredAllSkips(s: Stored, c: Ctx, sids: seq<string>, hasDb: bool, maxErrorLog: int)
    requires forall i :: 0 <= i < |sids| ==> sids[i] in c.crawled
    requires forall i :: 0 <= i < |sids| ==> !Waits(c, sids[i], c.crawled[sids[i]])
    ensures StoredAll(s, c, sids, hasDb, maxErrorLog) == s
    decreases |sids|
  {
    if sids != [] {
      StoredAllSkips(s, c, sids[..|sids| - 1], hasDb, maxErrorLog);
    }
  }

  class Runner {
    const settings: Settings
    const manager: CrawlerManager
    /** `_last_results`: the results of the last pass, with the items as the pass left them. */
    var lastResults: map<string, CrawlResult>
    /** The key order of `lastResults` (the manager's registration order at that pass). */
    var resultOrder: seq<string>
    /** `_last_items`: each successful source's items from its latest successful pass. */
    var lastItems: map<string, seq<NewsItem>>
    /** The key order of `lastItems` (first insertion order). */
    var itemOrder: seq<string>
    /** How many filter callbacks are registered. */
    var filterCallbacks: nat

    ghost predicate Valid()
      reads this, manager
    {
      && manager.Valid()
      && NoDups(itemOrder) && (set x | x in itemOrder) == lastItems.Keys
      && (set x | x in resultOrder) == lastResults.Keys
    }

    /**
     * The runner with a fresh manager (with a database whose table is
     * `table`) holding the crawler of the registered sources: the "ths"
     * crawler when any source is registered, none otherwise. `settings` is
     * `SettingsOf` of the configuration and `registered` the
     * `RegisteredSources` of its source list, as `NewRunner` passes them.
     */
    constructor (settings: Settings, registered: seq<map<string, Json>>, table: CrawlStore.Store)
      ensures Valid() && fresh(manager)
      ensures this.settings == settings
      ensures manager.crawlers == if registered == [] then map[] else map[ThsCrawler.SourceId := ThsSource()]
      ensures manager.rows == table && manager.errorLog == [] && manager.hasDb && manager.maxErrorLog == DefaultMaxErrorLog
      ensures manager.newItemsCallbacks == 0
      ensures lastResults == map[] && lastItems == map[] && resultOrder == [] && itemOrder == [] && filterCallbacks == 0
    {
      this.settings := settings;
      var m := new CrawlerManager(DefaultMaxErrorLog, true, table);
      var i := 0;
      while i < |registered|
        invariant 0 <= i <= |registered|
        invariant fresh(m) && m.Valid()
        invariant m.crawlers == if i == 0 then map[] else map[ThsCrawler.SourceId := ThsSource()]
        invariant m.rows == table && m.errorLog == [] && m.hasDb && m.maxErrorLog == DefaultMaxErrorLog
        invariant m.newItemsCallbacks == 0
      {
        m.Register(ThsSource());
        i := i + 1;
      }
      manager := m;
      lastResults, resultOrder, lastItems, itemOrder, filterCallbacks := map[], [], map[], [], 0;
    }

    /** `on_filtered` */
    method OnFiltered()
      modifies this
      ensures filterCallbacks == old(filterCallbacks) + 1
      ensures lastResults == old(lastResults) && resultOrder == old(resultOrder)
      ensures lastItems == old(lastItems) && itemOrder == old(itemOrder)
    {
      filterCallbacks := filterCallbacks + 1;
    }

    /**
     * `_apply_filter` on a source's items, in place: the keyword file is
     * loaded; nothing configured clears every item; a file that raises
     * leaves them as they are; otherwise every item gets its filter outcome
     * and the callbacks get the passed and filtered lists.
     */
    method ApplyFilter(sid: string, items: array<NewsItem>, file: KeywordFile, search: RegexSearch)
      returns (calls: seq<FilterCall>)
      modifies items
      ensures items[..] == Apply(PlanOf(true, file), old(items[..]), search)
      ensures calls == if PlanOf(true, file).Screen? && filterCallbacks > 0
                       then [FilterCall(sid, KeepIf(items[..], IsKept), KeepIf(items[..], IsDropped))] else []
    {
      calls := [];
      var raised, groups, filterWords, globalFilters := LoadFrequencyWords(file);
      if raised {
        return;
      }
      if groups == [] && filterWords == [] && globalFilters == [] {
        ClearItems(items);
        assert items[..] == Apply(PlanOf(true, file), old(items[..]), search);
        return;
      }
      var passed, filtered := FilterNewsItems(items, groups, globalFilters, search);
      assert items[..] == Apply(PlanOf(true, file), old(items[..]), search);
      if filterCallbacks > 0 {
        calls := [FilterCall(sid, passed, filtered)];
      }
    }

    /**
     * The content request of `crawl_once` for a successful result whose
     * items are in `arr`: recorded when there are new items and items not
     * fetched yet, and waited for (updating `arr`) unless it runs in the
     * background.
     */
    method RequestContent(sid: string, arr: array<NewsItem>, res: CrawlResult, c: Ctx) returns (jobs: seq<ContentJob>)
      requires manager.Valid() && arr[..] == res.items && res.status == Success
      requires c.crawlers == manager.crawlers && c.settings == settings
      modifies manager, arr
      ensures manager.Valid()
      ensures manager.crawlers == old(manager.crawlers) && manager.order == old(manager.order)
      ensures manager.stats == old(manager.stats) && manager.seenItems == old(manager.seenItems)
      ensures arr[..] == Prepared(c, sid, res)
      ensures jobs == JobOf(c, sid, res)
      ensures Stored(manager.rows, manager.errorLog)
              == StoredAfter(Stored(old(manager.rows), old(manager.errorLog)), c, sid, res, manager.hasDb, manager.maxErrorLog)
    {
      jobs := [];
      var toFetch := KeepIf(res.items, NotFetched);
      if settings.contentEnabled && res.newCount > 0 && toFetch != [] {
        jobs := [ContentJob(sid, toFetch, settings.contentAsync)];
        if !settings.contentAsync {
          // The manager skips items already fetched, so handing it every item
          // has the effect of handing it `toFetch`.
          manager.FetchFullContent(sid, arr, c.fetch, c.now);
          assert arr[..] == Prepared(c, sid, res) by {
            assert forall i :: 0 <= i < arr.Length ==> arr[..][i] == Prepared(c, sid, res)[i];
          }
        }
      }
    }

    /** The filter step of `crawl_once` on a successful result's items, in place. */
    method FilterStep(sid: string, arr: array<NewsItem>, c: Ctx, file: KeywordFile) returns (calls: seq<FilterCall>)
      requires c.plan == PlanOf(settings.filterEnabled, file) && c.callbacks == (filterCallbacks > 0)
      modifies arr
      ensures arr[..] == Apply(c.plan, old(arr[..]), c.search)
      ensures calls == if c.plan.Screen? && c.callbacks
                       then [FilterCall(sid, KeepIf(arr[..], IsKept), KeepIf(arr[..], IsDropped))] else []
    {
      if settings.filterEnabled {
        calls := ApplyFilter(sid, arr, file, c.search);
      } else {
        calls := [];
        ClearItems(arr);
        assert arr[..] == Apply(ClearAll, old(arr[..]), c.search);
      }
    }

    /** One successful source of `crawl_once`: the content request, then the filter, on the result's own items. */
    method ProcessSource(sid: string, res: CrawlResult, c: Ctx, file: KeywordFile)
      returns (items: seq<NewsItem>, jobs: seq<ContentJob>, calls: seq<FilterCall>)
      requires manager.Valid() && res.status == Success && c.crawlers == manager.crawlers
      requires c.settings == settings && c.plan == PlanOf(settings.filterEnabled, file)
      requires c.callbacks == (filterCallbacks > 0)
      modifies manager
      ensures manager.Valid()
      ensures manager.crawlers == old(manager.crawlers) && manager.order == old(manager.order)
      ensures manager.stats == old(manager.stats) && manager.seenItems == old(manager.seenItems)
      ensures items == ItemsAfter(c, sid, res)
      ensures jobs == JobOf(c, sid, res) && calls == CallOf(c, sid, res)
      ensures Stored(manager.rows, manager.errorLog)
              == StoredAfter(Stored(old(manager.rows), old(manager.errorLog)), c, sid, res, manager.hasDb, manager.maxErrorLog)
    {
      var arr := new NewsItem[|res.items|](i requires 0 <= i < |res.items| => res.items[i]);
      assert arr[..] == res.items;
      jobs := RequestContent(sid, arr, res, c);
      calls := FilterStep(sid, arr, c, file);
      items := arr[..];
    }

    /** The loop of `crawl_once` over the crawled results, in the manager's order. */
    method VisitResults(c: Ctx, order: seq<string>, file: KeywordFile, p0: Round) returns (p: Round)
      requires manager.Valid() && c.crawlers == manager.crawlers
      requires forall j :: 0 <= j < |order| ==> order[j] in c.crawled
      requires c.settings == settings && c.plan == PlanOf(settings.filterEnabled, file)
      requires c.callbacks == (filterCallbacks > 0)
      modifies manager
      ensures manager.Valid()
      ensures manager.crawlers == old(manager.crawlers) && manager.order == old(manager.order)
      ensures manager.stats == old(manager.stats) && manager.seenItems == old(manager.seenItems)
      ensures p == VisitAll(p0, c, order)
      ensures Stored(manager.rows, manager.errorLog)
              == StoredAll(Stored(old(manager.rows), old(manager.errorLog)), c, order, manager.hasDb, manager.maxErrorLog)
    {
      p := p0;
      var i := 0;
      while i < |order|
        invariant 0 <= i <= |order|
        invariant manager.Valid() && c.crawlers == manager.crawlers
        invariant manager.order == old(manager.order)
        invariant manager.stats == old(manager.stats) && manager.seenItems == old(manager.seenItems)
        invariant p == VisitAll(p0, c, order[..i])
        invariant Stored(manager.rows, manager.errorLog)
                  == StoredAll(Stored(old(manager.rows), old(manager.errorLog)), c, order[..i], manager.hasDb, manager.maxErrorLog)
      {
        var sid := order[i];
        assert order[..i + 1][..i] == order[..i];
        var res := c.crawled[sid];
        if res.status == Success {
          var items, js, cs := ProcessSource(sid, res, c, file);
          p := Round(p.results[sid := res.(items := items)], p.lastItems[sid := items],
                     if sid in p.lastItems then p.itemOrder else p.itemOrder + [sid], p.jobs + js, p.calls + cs);
        }
        i := i + 1;
      }
      assert order[..i] == order;
    }

    /**
     * `crawl_once`: nothing when disabled. Otherwise the manager crawls every
     * source (its counters and seen-sets are those of the crawl), and the
     * pass visits the results in the manager's order; the results are
     * reported, and kept, as the pass left them (see `CrawlPassSpec`).
     */
    method CrawlOnce(listFetch: string -> ListOutcome, saveFail: string -> Option<string>, dumps: CrawlStore.JsonDumps,
                     now: string, file: KeywordFile, search: RegexSearch, fetch: NewsItem -> ContentOutcome)
      returns (r: map<string, CrawlResult>, jobs: seq<ContentJob>, calls: seq<FilterCall>)
      requires Valid()
      modifies this, manager
      ensures Valid()
      ensures filterCallbacks == old(filterCallbacks)
      ensures !settings.enabled ==> r == map[] && jobs == [] && calls == [] && unchanged(this) && unchanged(manager)
      ensures settings.enabled ==>
                && manager.crawlers == old(manager.crawlers) && manager.order == old(manager.order)
                && var crawled := old(manager.Crawled(listFetch, saveFail, dumps, now));
                   var q := PassOf(crawled, manager.crawlers, manager.order, settings, file, search, fetch, now,
                                   filterCallbacks > 0, old(lastItems), old(itemOrder));
                   && manager.stats == crawled.stats && manager.seenItems == crawled.seen
                   && Stored(manager.rows, manager.errorLog)
                      == StoredOf(crawled, manager.crawlers, manager.order, settings, file, search, fetch, now,
                                  filterCallbacks > 0, manager.hasDb, manager.maxErrorLog)
                   && r == q.results && lastResults == r && resultOrder == manager.order
                   && lastItems == q.lastItems && itemOrder == q.itemOrder && jobs == q.jobs && calls == q.calls
    {
      if !settings.enabled {
        return map[], [], [];
      }
      r, jobs, calls := CrawlEnabled(listFetch, saveFail, dumps, now, file, search, fetch);
    }

    /** `crawl_once` when enabled. */
    method CrawlEnabled(listFetch: string -> ListOutcome, saveFail: string -> Option<string>, dumps: CrawlStore.JsonDumps,
                        now: string, file: KeywordFile, search: RegexSearch, fetch: NewsItem -> ContentOutcome)
      returns (r: map<string, CrawlResult>, jobs: seq<ContentJob>, calls: seq<FilterCall>)
      requires Valid()
      modifies this, manager
      ensures Valid()
      ensures filterCallbacks == old(filterCallbacks)
      ensures manager.crawlers == old(manager.crawlers) && manager.order == old(manager.order)
      ensures var crawled := old(manager.Crawled(listFetch, saveFail, dumps, now));
              var q := PassOf(crawled, manager.crawlers, manager.order, settings, file, search, fetch, now,
                              filterCallbacks > 0, old(lastItems), old(itemOrder));
              && manager.stats == crawled.stats && manager.seenItems == crawled.seen
              && Stored(manager.rows, manager.errorLog)
                 == StoredOf(crawled, manager.crawlers, manager.order, settings, file, search, fetch, now,
                             filterCallbacks > 0, manager.hasDb, manager.maxErrorLog)
              && r == q.results && lastResults == r && resultOrder == manager.order
              && lastItems == q.lastItems && itemOrder == q.itemOrder && jobs == q.jobs && calls == q.calls
    {
      var results, events := manager.CrawlAll(listFetch, saveFail, dumps, now);
      assert forall j :: 0 <= j < |manager.order| ==> manager.order[j] in results by {
        assert forall j :: 0 <= j < |manager.order| ==> manager.order[j] in (set x | x in manager.order);
      }
      r, jobs, calls := AfterCrawl(results, file, search, fetch, now);
    }

    /** The pass over the crawled results, in the manager's order. */
    method AfterCrawl(results: map<string, CrawlResult>, file: KeywordFile, search: RegexSearch,
                      fetch: NewsItem -> ContentOutcome, now: string)
      returns (r: map<string, CrawlResult>, jobs: seq<ContentJob>, calls: seq<FilterCall>)
      requires Valid()
      requires forall j :: 0 <= j < |manager.order| ==> manager.order[j] in results
      requires results.Keys == manager.crawlers.Keys
      modifies this, manager
      ensures Valid()
      ensures filterCallbacks == old(filterCallbacks)
      ensures manager.crawlers == old(manager.crawlers) && manager.order == old(manager.order)
      ensures manager.stats == old(manager.stats) && manager.seenItems == old(manager.seenItems)
      ensures var c := Ctx(settings, results, manager.crawlers, PlanOf(settings.filterEnabled, file), search, fetch, now,
                           filterCallbacks > 0);
              var q := VisitAll(Round(results, old(lastItems), old(itemOrder), [], []), c, manager.order);
              && Stored(manager.rows, manager.errorLog)
                 == StoredAll(Stored(old(manager.rows), old(manager.errorLog)), c, manager.order, manager.hasDb, manager.maxErrorLog)
              && r == q.results && lastResults == r && resultOrder == manager.order
              && lastItems == q.lastItems && itemOrder == q.itemOrder && jobs == q.jobs && calls == q.calls
    {
      var order := manager.order;
      var c := Ctx(settings, results, manager.crawlers, PlanOf(settings.filterEnabled, file), search, fetch, now,
                   filterCallbacks > 0);
      var p0 := Round(results, lastItems, itemOrder, [], []);
      var p := VisitResults(c, order, file, p0);
      VisitAllOrder(p0, c, order);
      VisitAllResults(p0, c, order);
      r, jobs, calls := p.results, p.jobs, p.calls;
      lastResults, resultOrder, lastItems, itemOrder := p.results, order, p.lastItems, p.itemOrder;
    }

    /** `_get_new_seqs`: the seqs of the first `new_count` items of every successful last result. */
    method GetNewSeqs() returns (seqs: set<string>)
      requires Valid()
      ensures seqs == NewSeqs(lastResults, resultOrder)
    {
      seqs := {};
      var i := 0;
      while i < |resultOrder|
        invariant 0 <= i <= |resultOrder|
        invariant seqs == NewSeqs(lastResults, resultOrder[..i])
      {
        var sid := resultOrder[i];
        assert sid in (set x | x in resultOrder);
        assert resultOrder[..i + 1][..i] == resultOrder[..i];
        var res := lastResults[sid];
        if res.status == Success {
          var head := Take(res.items, res.newCount);
          ghost var base := seqs;
          var j := 0;
          while j < |head|
            invariant 0 <= j <= |head|
            invariant seqs == base + SeqSet(head[..j])
          {
            SeqSetSnoc(head[..j + 1]);
            assert head[..j + 1][..j] == head[..j];
            seqs := seqs + {head[j].seqNo};
            j := j + 1;
          }
          assert head[..j] == head;
        }
        i := i + 1;
      }
      assert resultOrder[..i] == resultOrder;
    }

    /** The items the display starts from: one source's kept list, all of them in order, or the table's answer. */
    function Candidates(sourceId: string, stored: seq<NewsItem>): seq<NewsItem>
      requires Valid()
      reads this, manager
    {
      if lastItems == map[] then stored
      else if sourceId != "" then (if sourceId in lastItems then lastItems[sourceId] else [])
      else Concat(lastItems, itemOrder)
    }

    /** The candidate list of `get_items_for_display`, built as the source builds it. */
    method CandidateItems(sourceId: string, stored: seq<NewsItem>) returns (items: seq<NewsItem>)
      requires Valid()
      ensures items == Candidates(sourceId, stored)
    {
      items := [];
      if lastItems == map[] {
        return stored;
      }
      if sourceId != "" {
        return if sourceId in lastItems then lastItems[sourceId] else [];
      }
      var k := 0;
      while k < |itemOrder|
        invariant 0 <= k <= |itemOrder|
        invariant forall x :: 0 <= x < |itemOrder| ==> itemOrder[x] in lastItems
        invariant items == Concat(lastItems, itemOrder[..k])
      {
        assert itemOrder[..k + 1][..k] == itemOrder[..k];
        items := items + lastItems[itemOrder[k]];
        k := k + 1;
      }
      assert itemOrder[..k] == itemOrder;
    }

    /**
     * `get_items_for_display`; a `maxItems` of 0 stands for no limit given,
     * and `stored` for what the database fallback answers when nothing is
     * kept in memory. Filtered items are dropped unless asked for, the list
     * is cut to the limit, and each entry is marked new by the new-seq set.
     */
    method GetItemsForDisplay(sourceId: string, includeFiltered: bool, maxItems: int, stored: seq<NewsItem>)
      returns (r: seq<DisplayEntry>)
      requires Valid()
      ensures var shown := Shown(Candidates(sourceId, stored), includeFiltered,
                                 if maxItems != 0 then maxItems else settings.maxDisplayItems);
              && |r| == |shown|
              && forall i :: 0 <= i < |r| ==> r[i] == EntryOf(shown[i], NewSeqs(lastResults, resultOrder), settings.showFilterTag)
      ensures !includeFiltered ==> forall i :: 0 <= i < |r| ==> !r[i].item.filteredOut
      ensures (if maxItems != 0 then maxItems else settings.maxDisplayItems) >= 0 ==>
                |r| <= if maxItems != 0 then maxItems else settings.maxDisplayItems
    {
      var limit := if maxItems != 0 then maxItems else settings.maxDisplayItems;
      var items := CandidateItems(sourceId, stored);
      ghost var candidates := items;
      if !includeFiltered {
        items := KeepIf(items, IsKept);
      }
      items := Take(items, limit);
      ShownSpec(candidates, includeFiltered, limit);
      var newSeqs := GetNewSeqs();
      r := Entries(items, newSeqs, settings.showFilterTag);
    }
  }

  /** The source list of the configuration: `CRAWLER_CUSTOM.SOURCES`, an empty list when missing. */
  function SourcesOf(config: map<string, Json>): Json {
    match Section(config, "CRAWLER_CUSTOM")
    case Some(c) => Get(c, "SOURCES", JList([]))
    case None => JList([])
  }

  /**
   * `CrawlerRunner(config)`: the settings read from the configuration and a
   * crawler registered for its sources; None when reading the settings or
   * the source list raises.
   */
  method NewRunner(config: map<string, Json>, table: CrawlStore.Store) returns (r: Option<Runner>)
    ensures r.Some? <==> SettingsOf(config).Some? && RegisteredSources(SourcesOf(config)).Some?
    ensures r.Some? ==>
              && fresh(r.value) && fresh(r.value.manager) && r.value.Valid()
              && r.value.settings == SettingsOf(config).value
              && (r.value.manager.crawlers != map[] <==> RegisteredSources(SourcesOf(config)).value != [])
              && r.value.manager.rows == table && r.value.manager.errorLog == []
              && r.value.lastResults == map[] && r.value.lastItems == map[] && r.value.filterCallbacks == 0
  {
    var settings := SettingsOf(config);
    var registered := RegisteredSources(SourcesOf(config));
    if settings.None? || registered.None? {
      return None;
    }
    var runner := new Runner(settings.value, registered.value, table);
    if registered.value != [] {
      assert ThsCrawler.SourceId in runner.manager.crawlers;
    }
    r := Some(runner);
  }

  /** The display entries of `items`, in order. */
  method Entries(items: seq<NewsItem>, newSeqs: set<string>, showTag: bool) returns (r: seq<DisplayEntry>)
    ensures |r| == |items|
    ensures forall i :: 0 <= i < |items| ==> r[i] == EntryOf(items[i], newSeqs, showTag)
  {
    r := [];
    var i := 0;
    while i < |items|
      invariant 0 <= i <= |items| && |r| == i
      invariant forall j :: 0 <= j < i ==> r[j] == EntryOf(items[j], newSeqs, showTag)
    {
      r := r + [EntryOf(items[i], newSeqs, showTag)];
      i := i + 1;
    }
  }
}
