/**
 * The stand-alone crawler application: the crawlers it registers, the
 * statistics one crawl pass adds up, the content fetches it dispatches, the
 * keyword filtering it runs over each successful result, and the bounded
 * list of recent entries it keeps for display, merged by seq in place.
 *
 * What `crawl_all` returned is a parameter (in the dict's order), and so is
 * the time of day stamped on entries; a content fetch is recorded as a job.
 */
module RunCrawler {
  import opened Common
  import opened CrawlerBase
  import opened KeywordFilter
  import CrawlerRunner
  import CrawlManager
  import CrawlStore

  // ---------------------------------------------------------------- recent entries

  /** One dict of `recent_items`. */
  datatype RecentEntry = RecentEntry(
    seqNo: string,
    title: string,
    summary: string,
    fullContent: string,
    url: string,
    publishedAt: string,
    crawlTime: string,
    isNew: bool,
    filteredOut: bool,
    filterReason: string,
    matchedKeywords: seq<string>,
    contentFetched: bool)

  /** `summary[:100] + "..." if len(summary) > 100 else summary` */
  function ShortSummary(s: string): (r: string)
    ensures |s| <= 100 ==> r == s
    ensures |s| > 100 ==> |r| == 103 && r[..100] == s[..100] && r[100..] == "..."
  {
    if |s| > 100 then s[..100] + "..." else s
  }

  /** The entry for the `i`-th item of a batch whose first `newCount` items are new. */
  function EntryOf(it: NewsItem, i: int, newCount: int, now: string): (e: RecentEntry)
    ensures e.seqNo == it.seqNo && e.crawlTime == now
    ensures e.isNew <==> i < newCount
    ensures e.summary == ShortSummary(it.summary)
  {
    RecentEntry(it.seqNo, it.title, ShortSummary(it.summary), it.fullContent, it.url, it.publishedAt, now,
                i < newCount, it.filteredOut, it.filterReason, it.matchedKeywords, it.contentFetched)
  }

  /** The entries of a batch, in its order. */
  function Entries(items: seq<NewsItem>, newCount: int, now: string): (es: seq<RecentEntry>)
    ensures |es| == |items|
    ensures forall i :: 0 <= i < |items| ==> es[i] == EntryOf(items[i], i, newCount, now)
  {
    seq(|items|, i requires 0 <= i < |items| => EntryOf(items[i], i, newCount, now))
  }

  /** `next((x for x in recent if x["seq"] == key), None)`: the first entry with that seq, or -1. */
  function Position(list: seq<RecentEntry>, key: string): (k: int)
    ensures -1 <= k < |list|
    ensures k >= 0 ==> list[k].seqNo == key && forall j :: 0 <= j < k ==> list[j].seqNo != key
    ensures k < 0 ==> forall j :: 0 <= j < |list| ==> list[j].seqNo != key
  {
    if list == [] then -1
    else if list[0].seqNo == key then 0
    else
      var k := Position(list[1..], key);
      if k < 0 then -1 else k + 1
  }

  /** The seqs listed. */
  function Seqs(list: seq<RecentEntry>): set<string> {
    set i | 0 <= i < |list| :: list[i].seqNo
  }

  /** No seq is listed twice. */
  predicate UniqueSeqs(list: seq<RecentEntry>) {
    forall i, j :: 0 <= i < j < |list| ==> list[i].seqNo != list[j].seqNo
  }

  /** One item of the loop: update the listed entry of its seq in place, or insert it at the front. */
  function Upsert(list: seq<RecentEntry>, e: RecentEntry): (r: seq<RecentEntry>)
    ensures Position(list, e.seqNo) < 0 ==> r == [e] + list
    ensures Position(list, e.seqNo) >= 0 ==> r == list[Position(list, e.seqNo) := e]
  {
    var k := Position(list, e.seqNo);
    if k < 0 then [e] + list else list[k := e]
  }

  /** The loop of `_update_recent_items` over a batch's entries. */
  function UpsertAll(list: seq<RecentEntry>, es: seq<RecentEntry>): seq<RecentEntry>
    decreases |es|
  {
    if es == [] then list else Upsert(UpsertAll(list, es[..|es| - 1]), es[|es| - 1])
  }

  /** `recent[:max] if len(recent) > max else recent`, with Python's meaning of a negative bound. */
  function Capped(list: seq<RecentEntry>, max: int): (r: seq<RecentEntry>)
    ensures |r| <= |list| && r == list[..|r|]
    ensures 0 <= max ==> |r| <= max
    ensures |list| <= max ==> r == list
    ensures 0 <= max <= |list| ==> |r| == max
  {
    if |list| > max then Take(list, max) else list
  }

  /** `_update_recent_items(items, new_count)` on the list `list`. */
  function Recent(list: seq<RecentEntry>, items: seq<NewsItem>, newCount: int, now: string, max: int): seq<RecentEntry> {
    Capped(UpsertAll(list, Entries(items, newCount, now)), max)
  }

  /** The entries in reverse order. */
  function Reversed(es: seq<RecentEntry>): (r: seq<RecentEntry>)
    ensures |r| == |es|
    ensures forall i :: 0 <= i < |es| ==> r[i] == es[|es| - 1 - i]
    decreases |es|
  {
    if es == [] then [] else [es[|es| - 1]] + Reversed(es[..|es| - 1])
  }

  /**
   * An update in place keeps the length and every other entry; an insertion
   * adds one entry. Either way the seqs listed grow by the entry's seq alone
   * and stay unique.
   */
  lemma UpsertSpec(list: seq<RecentEntry>, e: RecentEntry)
    ensures Seqs(Upsert(list, e)) == Seqs(list) + {e.seqNo}
    ensures e.seqNo in Seqs(list) ==> |Upsert(list, e)| == |list|
    ensures e.seqNo !in Seqs(list) ==> |Upsert(list, e)| == |list| + 1
    ensures UniqueSeqs(list) ==> UniqueSeqs(Upsert(list, e))
  {
    var k := Position(list, e.seqNo);
    var r := Upsert(list, e);
    if k < 0 {
      assert e.seqNo !in Seqs(list);
      forall x | x in Seqs(r) ensures x in Seqs(list) + {e.seqNo} {
        var i :| 0 <= i < |r| && r[i].seqNo == x;
        if i > 0 {
          assert r[i] == list[i - 1];
        }
      }
      forall x | x in Seqs(list) ensures x in Seqs(r) {
        var i :| 0 <= i < |list| && list[i].seqNo == x;
        assert r[i + 1] == list[i];
      }
      assert r[0] == e;
    } else {
      assert e.seqNo in Seqs(list);
      forall x | x in Seqs(r) ensures x in Seqs(list) {
        var i :| 0 <= i < |r| && r[i].seqNo == x;
        if i != k {
          assert r[i] == list[i];
        }
      }
      forall x | x in Seqs(list) ensures x in Seqs(r) {
        var i :| 0 <= i < |list| && list[i].seqNo == x;
        if i != k {
          assert r[i] == list[i];
        } else {
          assert r[k].seqNo == x;
        }
      }
    }
  }

  /** After a batch every seq of the list and of the batch is listed, once, and nothing else. */
  lemma {:induction false} UpsertAllSpec(list: seq<RecentEntry>, es: seq<RecentEntry>)
    requires UniqueSeqs(list)
    ensures UniqueSeqs(UpsertAll(list, es))
    ensures Seqs(UpsertAll(list, es)) == Seqs(list) + Seqs(es)
    decreases |es|
  {
    if es != [] {
      var init := es[..|es| - 1];
      UpsertAllSpec(list, init);
      UpsertSpec(UpsertAll(list, init), es[|es| - 1]);
      assert Seqs(es) == Seqs(init) + {es[|es| - 1].seqNo} by {
        forall x | x in Seqs(es) ensures x in Seqs(init) + {es[|es| - 1].seqNo} {
          var i :| 0 <= i < |es| && es[i].seqNo == x;
          if i < |es| - 1 {
            assert init[i] == es[i];
          }
        }
        forall x | x in Seqs(init) ensures x in Seqs(es) {
          var i :| 0 <= i < |init| && init[i].seqNo == x;
          assert es[i] == init[i];
        }
      }
    }
  }

  /** No seq of the batch is listed. */
  predicate FreshBatch(list: seq<RecentEntry>, es: seq<RecentEntry>) {
    forall i, j :: 0 <= i < |es| && 0 <= j < |list| ==> es[i].seqNo != list[j].seqNo
  }

  lemma FreshInit(list: seq<RecentEntry>, es: seq<RecentEntry>)
    requires es != [] && UniqueSeqs(es) && FreshBatch(list, es)
    ensures UniqueSeqs(es[..|es| - 1]) && FreshBatch(list, es[..|es| - 1])
  {
    var init := es[..|es| - 1];
    forall i | 0 <= i < |init| ensures init[i] == es[i] { }
  }

  /** The last entry of a fresh batch of distinct seqs is not among the entries inserted before it. */
  lemma LastIsFresh(list: seq<RecentEntry>, es: seq<RecentEntry>)
    requires es != [] && UniqueSeqs(es) && FreshBatch(list, es)
    ensures Position(Reversed(es[..|es| - 1]) + list, es[|es| - 1].seqNo) < 0
  {
    var init := es[..|es| - 1];
    var last := es[|es| - 1];
    var before := Reversed(init) + list;
    forall j | 0 <= j < |before| ensures before[j].seqNo != last.seqNo {
      if j < |init| {
        assert before[j] == init[|init| - 1 - j] == es[|init| - 1 - j];
      } else {
        assert before[j] == list[j - |init|];
      }
    }
  }

  /** A batch of distinct seqs none of which is listed ends up at the front, in reverse order. */
  lemma {:induction false} UpsertAllFresh(list: seq<RecentEntry>, es: seq<RecentEntry>)
    requires UniqueSeqs(es)
    requires FreshBatch(list, es)
    ensures UpsertAll(list, es) == Reversed(es) + list
    decreases |es|
  {
    if es != [] {
      var init := es[..|es| - 1];
      var last := es[|es| - 1];
      FreshInit(list, es);
      UpsertAllFresh(list, init);
      LastIsFresh(list, es);
      var rInit := Reversed(init);
      calc {
        UpsertAll(list, es);
        Upsert(rInit + list, last);
        [last] + (rInit + list);
        ([last] + rInit) + list;
        Reversed(es) + list;
      }
    }
  }

  /** A prefix of a list without repeated seqs has none either. */
  lemma CappedUnique(list: seq<RecentEntry>, max: int)
    requires UniqueSeqs(list)
    ensures UniqueSeqs(Capped(list, max))
  {
    var r := Capped(list, max);
    forall i, j | 0 <= i < j < |r| ensures r[i].seqNo != r[j].seqNo {
      assert r[i] == list[i] && r[j] == list[j];
    }
  }

  /**
   * After `_update_recent_items` no seq is listed twice if none was before,
   * and a non-negative bound holds; every seq listed was listed before or
   * comes from the batch.
   */
  lemma RecentSpec(list: seq<RecentEntry>, items: seq<NewsItem>, newCount: int, now: string, max: int)
    requires UniqueSeqs(list)
    ensures UniqueSeqs(Recent(list, items, newCount, now, max))
    ensures 0 <= max ==> |Recent(list, items, newCount, now, max)| <= max
    ensures forall i :: 0 <= i < |Recent(list, items, newCount, now, max)| ==>
              Recent(list, items, newCount, now, max)[i].seqNo in Seqs(list) + Seqs(Entries(items, newCount, now))
  {
    var all := UpsertAll(list, Entries(items, newCount, now));
    UpsertAllSpec(list, Entries(items, newCount, now));
    CappedUnique(all, max);
    var r := Recent(list, items, newCount, now, max);
    forall i | 0 <= i < |r| ensures r[i].seqNo in Seqs(all) {
      assert r[i] == all[i];
    }
  }

  // ---------------------------------------------------------------- crawl pass

  /** `self.stats` */
  datatype Stats = Stats(totalFetches: int, totalItems: int, newItems: int, passedItems: int, filteredItems: int)

  /** The settings the application reads from the CRAWLER_CUSTOM section and the keyword file. */
  datatype AppSettings = AppSettings(
    contentEnabled: bool,
    contentAsync: bool,
    filterEnabled: bool,
    maxDisplayItems: int,
    groups: seq<WordGroup>,
    globalFilters: seq<string>)

  /** What a crawl pass changes: the statistics, the recent entries and the content fetches dispatched. */
  datatype Progress = Progress(stats: Stats, recent: seq<RecentEntry>, jobs: seq<CrawlerRunner.ContentJob>)

  /** The items with their filter outcome written into them, as `filter_news_items` leaves them. */
  function Screened(items: seq<NewsItem>, groups: seq<WordGroup>, globalFilters: seq<string>, search: RegexSearch)
    : (r: seq<NewsItem>)
    ensures |r| == |items|
  {
    seq(|items|, i requires 0 <= i < |items| => WithOutcome(items[i], FilterNewsItem(items[i], groups, globalFilters, search)))
  }

  /** The items a successful result contributes to the recent entries. */
  function ShownItems(s: AppSettings, res: CrawlResult, search: RegexSearch): seq<NewsItem> {
    if s.filterEnabled then Screened(res.items, s.groups, s.globalFilters, search) else res.items
  }

  /** The fetch dispatched for a result: its items not fetched yet, when it has new items and content is on. */
  function JobOf(s: AppSettings, sid: string, res: CrawlResult): seq<CrawlerRunner.ContentJob> {
    var pending := KeepIf(res.items, CrawlerRunner.NotFetched);
    if s.contentEnabled && res.newCount > 0 && pending != [] then [CrawlerRunner.ContentJob(sid, pending, s.contentAsync)]
    else []
  }

  /** The counters after a successful result whose items, as the filter left them, are `items`. */
  function Tally(st: Stats, s: AppSettings, res: CrawlResult, items: seq<NewsItem>): Stats {
    var counted := st.(totalItems := st.totalItems + res.totalCount, newItems := st.newItems + res.newCount);
    if s.filterEnabled
    then counted.(passedItems := counted.passedItems + |KeepIf(items, IsKept)|,
                  filteredItems := counted.filteredItems + |KeepIf(items, IsDropped)|)
    else counted
  }

  /** One iteration of the loop of `crawl_once`: a failed result is only reported. */
  function Visit(p: Progress, s: AppSettings, sid: string, res: CrawlResult, search: RegexSearch, now: string): Progress {
    if res.status != Success then p
    else
      var items := ShownItems(s, res, search);
      Progress(Tally(p.stats, s, res, items), Recent(p.recent, items, res.newCount, now, s.maxDisplayItems),
               p.jobs + JobOf(s, sid, res))
  }

  function VisitAll(p: Progress, s: AppSettings, results: seq<(string, CrawlResult)>, search: RegexSearch, now: string)
    : Progress
    decreases |results|
  {
    if results == [] then p
    else
      var last := results[|results| - 1];
      Visit(VisitAll(p, s, results[..|results| - 1], search, now), s, last.0, last.1, search, now)
  }

  /** The items counted by a pass: the totals of the successful results. */
  function SuccessTotal(results: seq<(string, CrawlResult)>): int
    decreases |results|
  {
    if results == [] then 0
    else
      var last := results[|results| - 1].1;
      SuccessTotal(results[..|results| - 1]) + (if last.status == Success then last.totalCount else 0)
  }

  /** The new items counted by a pass: the new counts of the successful results. */
  function SuccessNew(results: seq<(string, CrawlResult)>): int
    decreases |results|
  {
    if results == [] then 0
    else
      var last := results[|results| - 1].1;
      SuccessNew(results[..|results| - 1]) + (if last.status == Success then last.newCount else 0)
  }

  /** The items the filter sees in a pass: all items of the successful results. */
  function SuccessItems(results: seq<(string, CrawlResult)>): int
    decreases |results|
  {
    if results == [] then 0
    else
      var last := results[|results| - 1].1;
      SuccessItems(results[..|results| - 1]) + (if last.status == Success then |last.items| else 0)
  }

  /** A failed result changes nothing. */
  lemma VisitFailed(p: Progress, s: AppSettings, sid: string, res: CrawlResult, search: RegexSearch, now: string)
    requires res.status != Success
    ensures Visit(p, s, sid, res, search, now) == p
  {
  }

  /**
   * Over a pass, the item and new-item counters grow by the totals of the
   * successful results alone; with filtering on, passed plus filtered grow
   * by the number of their items, and otherwise not at all.
   */
  lemma {:induction false} VisitAllCounts(p: Progress, s: AppSettings, results: seq<(string, CrawlResult)>,
                                          search: RegexSearch, now: string)
    ensures var q := VisitAll(p, s, results, search, now);
            && q.stats.totalFetches == p.stats.totalFetches
            && q.stats.totalItems == p.stats.totalItems + SuccessTotal(results)
            && q.stats.newItems == p.stats.newItems + SuccessNew(results)
            && (s.filterEnabled ==>
                  q.stats.passedItems + q.stats.filteredItems
                  == p.stats.passedItems + p.stats.filteredItems + SuccessItems(results))
            && (!s.filterEnabled ==>
                  q.stats.passedItems == p.stats.passedItems && q.stats.filteredItems == p.stats.filteredItems)
    decreases |results|
  {
    if results != [] {
      var init := results[..|results| - 1];
      VisitAllCounts(p, s, init, search, now);
      var res := results[|results| - 1].1;
      if res.status == Success && s.filterEnabled {
        FilterSplitIsPartition(ShownItems(s, res, search));
      }
    }
  }

  /** A pass keeps the recent entries free of repeated seqs and within a non-negative bound. */
  lemma {:induction false} VisitAllRecent(p: Progress, s: AppSettings, results: seq<(string, CrawlResult)>,
                                          search: RegexSearch, now: string)
    requires UniqueSeqs(p.recent)
    ensures var q := VisitAll(p, s, results, search, now);
            && UniqueSeqs(q.recent)
            && (0 <= s.maxDisplayItems && |p.recent| <= s.maxDisplayItems ==> |q.recent| <= s.maxDisplayItems)
    decreases |results|
  {
    if results != [] {
      var init := results[..|results| - 1];
      VisitAllRecent(p, s, init, search, now);
      var mid := VisitAll(p, s, init, search, now);
      var last := results[|results| - 1];
      if last.1.status == Success {
        RecentSpec(mid.recent, ShownItems(s, last.1, search), last.1.newCount, now, s.maxDisplayItems);
      }
    }
  }

  /** A pass only appends fetch jobs, each for a non-empty list of items whose content is not fetched yet. */
  lemma {:induction false} VisitAllJobs(p: Progress, s: AppSettings, results: seq<(string, CrawlResult)>,
                                        search: RegexSearch, now: string)
    ensures var q := VisitAll(p, s, results, search, now);
            && |p.jobs| <= |q.jobs| && q.jobs[..|p.jobs|] == p.jobs
            && (forall k :: |p.jobs| <= k < |q.jobs| ==>
                  q.jobs[k].items != [] && forall it :: it in q.jobs[k].items ==> !it.contentFetched)
    decreases |results|
  {
    if results != [] {
      var init := results[..|results| - 1];
      VisitAllJobs(p, s, init, search, now);
      var mid := VisitAll(p, s, init, search, now);
      var last := results[|results| - 1];
      var q := VisitAll(p, s, results, search, now);
      assert q.jobs == mid.jobs + (if last.1.status == Success then JobOf(s, last.0, last.1) else []);
      assert q.jobs[..|mid.jobs|] == mid.jobs;
    }
  }

  /** The call of `filter_news_items` on a result's items: the items as it leaves them, and how many passed and were filtered. */
  method ScreenItems(items: seq<NewsItem>, groups: seq<WordGroup>, globalFilters: seq<string>, search: RegexSearch)
    returns (shown: seq<NewsItem>, passed: int, filtered: int)
    ensures shown == Screened(items, groups, globalFilters, search)
    ensures passed == |KeepIf(shown, IsKept)| && filtered == |KeepIf(shown, IsDropped)|
    ensures passed + filtered == |items|
  {
    var arr := new NewsItem[|items|](i requires 0 <= i < |items| => items[i]);
    var p, f := FilterNewsItems(arr, groups, globalFilters, search);
    shown := arr[..];
    assert shown == Screened(items, groups, globalFilters, search);
    FilterSplitIsPartition(shown);
    passed, filtered := |p|, |f|;
  }

  // ---------------------------------------------------------------- the application

  /** The application object: its crawl manager, statistics, recent entries and the fetches it dispatched. */
  class CrawlerApp {
    const settings: AppSettings
    const manager: CrawlManager.CrawlerManager
    var stats: Stats
    var recentItems: seq<RecentEntry>
    var jobs: seq<CrawlerRunner.ContentJob>

    /** The part of `__init__` after the configuration is read: a manager over the database `table`, zero counters. */
    constructor (settings: AppSettings, table: CrawlStore.Store)
      ensures this.settings == settings && fresh(manager) && manager.Valid()
      ensures manager.crawlers == map[] && manager.hasDb && manager.maxErrorLog == 1000
      ensures stats == Stats(0, 0, 0, 0, 0) && recentItems == [] && jobs == []
    {
      this.settings := settings;
      manager := new CrawlManager.CrawlerManager(1000, true, table);
      stats := Stats(0, 0, 0, 0, 0);
      recentItems := [];
      jobs := [];
    }

    function State(): Progress
      reads this
    {
      Progress(stats, recentItems, jobs)
    }

    /**
     * `_register_crawlers(sources)`: a "ths" crawler for every enabled "ths"
     * source (the default source when there are none); `ok` is false when
     * reading the list raises.
     */
    method RegisterCrawlers(sources: Json) returns (ok: bool)
      requires manager.Valid()
      modifies manager
      ensures manager.Valid()
      ensures ok <==> CrawlerRunner.RegisteredSources(sources).Some?
      ensures ok ==> manager.crawlers == if CrawlerRunner.RegisteredSources(sources).value == [] then old(manager.crawlers)
                                         else old(manager.crawlers)[CrawlerRunner.ThsSource().sourceId := CrawlerRunner.ThsSource()]
      ensures manager.errorLog == old(manager.errorLog)
    {
      var found := CrawlerRunner.RegisteredSources(sources);
      if found.None? {
        return false;
      }
      var regs := found.value;
      var ths := CrawlerRunner.ThsSource();
      ghost var registered := old(manager.crawlers)[ths.sourceId := ths];
      var i := 0;
      while i < |regs|
        invariant 0 <= i <= |regs|
        invariant manager.Valid()
        invariant i == 0 ==> manager.crawlers == old(manager.crawlers)
        invariant i > 0 ==> manager.crawlers == registered
        invariant manager.errorLog == old(manager.errorLog)
      {
        manager.Register(ths);
        i := i + 1;
      }
      return true;
    }

    /** `_update_recent_items(items, new_count)` at time of day `now`. */
    method UpdateRecentItems(items: seq<NewsItem>, newCount: int, now: string)
      modifies this
      ensures recentItems == Recent(old(recentItems), items, newCount, now, settings.maxDisplayItems)
      ensures stats == old(stats) && jobs == old(jobs)
    {
      ghost var es := Entries(items, newCount, now);
      var i := 0;
      while i < |items|
        invariant 0 <= i <= |items|
        invariant recentItems == UpsertAll(old(recentItems), es[..i])
        invariant stats == old(stats) && jobs == old(jobs)
      {
        var e := EntryOf(items[i], i, newCount, now);
        var k := Position(recentItems, items[i].seqNo);
        if k >= 0 {
          recentItems := recentItems[k := e];
        } else {
          recentItems := [e] + recentItems;
        }
        assert es[..i + 1][..i] == es[..i];
        i := i + 1;
      }
      assert es[..|items|] == es;
      if |recentItems| > settings.maxDisplayItems {
        recentItems := Take(recentItems, settings.maxDisplayItems);
      }
    }

    /** The content fetch `crawl_once` dispatches for a result: only with new items, only for items not fetched yet. */
    method DispatchContent(sid: string, res: CrawlResult)
      modifies this
      ensures jobs == old(jobs) + JobOf(settings, sid, res)
      ensures stats == old(stats) && recentItems == old(recentItems)
    {
      if settings.contentEnabled && res.newCount > 0 {
        var pending := KeepIf(res.items, CrawlerRunner.NotFetched);
        if pending != [] {
          jobs := jobs + [CrawlerRunner.ContentJob(sid, pending, settings.contentAsync)];
        }
      }
    }

    /** The counting and filtering `crawl_once` does for a successful result; `items` are the items it leaves. */
    method CountAndFilter(res: CrawlResult, search: RegexSearch) returns (items: seq<NewsItem>)
      modifies this
      ensures items == ShownItems(settings, res, search)
      ensures stats == Tally(old(stats), settings, res, items)
      ensures jobs == old(jobs) && recentItems == old(recentItems)
    {
      stats := stats.(totalItems := stats.totalItems + res.totalCount, newItems := stats.newItems + res.newCount);
      items := res.items;
      if settings.filterEnabled {
        var passed, filtered;
        items, passed, filtered := ScreenItems(res.items, settings.groups, settings.globalFilters, search);
        stats := stats.(passedItems := stats.passedItems + passed, filteredItems := stats.filteredItems + filtered);
      }
    }

    /** The body of the loop of `crawl_once` for a successful result. */
    method ProcessResult(sid: string, res: CrawlResult, search: RegexSearch, now: string)
      requires res.status == Success
      modifies this
      ensures stats == Tally(old(stats), settings, res, ShownItems(settings, res, search))
      ensures recentItems == Recent(old(recentItems), ShownItems(settings, res, search), res.newCount, now,
                                    settings.maxDisplayItems)
      ensures jobs == old(jobs) + JobOf(settings, sid, res)
    {
      DispatchContent(sid, res);
      var items := CountAndFilter(res, search);
      UpdateRecentItems(items, res.newCount, now);
    }

    /** `crawl_once`, given what `crawl_all` returned. */
    method CrawlOnce(results: seq<(string, CrawlResult)>, search: RegexSearch, now: string)
      modifies this
      ensures State() == VisitAll(old(State()).(stats := old(stats).(totalFetches := old(stats).totalFetches + 1)),
                                  settings, results, search, now)
    {
      stats := stats.(totalFetches := stats.totalFetches + 1);
      ghost var start := State();
      var i := 0;
      while i < |results|
        invariant 0 <= i <= |results|
        invariant State() == VisitAll(start, settings, results[..i], search, now)
      {
        var (sid, res) := results[i];
        assert results[..i + 1][..i] == results[..i];
        if res.status == Success {
          ProcessResult(sid, res, search, now);
        }
        i := i + 1;
      }
      assert results[..|results|] == results;
    }
  }

  /**
   * One crawl pass raises `total_fetches` by exactly one and the item
   * counters by the successful results alone, keeps the recent entries
   * unique and bounded, and dispatches fetches only of unfetched items.
   */
  lemma CrawlOnceSpec(p: Progress, s: AppSettings, results: seq<(string, CrawlResult)>, search: RegexSearch, now: string)
    requires UniqueSeqs(p.recent)
    ensures var q := VisitAll(p.(stats := p.stats.(totalFetches := p.stats.totalFetches + 1)), s, results, search, now);
            && q.stats.totalFetches == p.stats.totalFetches + 1
            && q.stats.totalItems == p.stats.totalItems + SuccessTotal(results)
            && q.stats.newItems == p.stats.newItems + SuccessNew(results)
            && UniqueSeqs(q.recent)
  {
    var p1 := p.(stats := p.stats.(totalFetches := p.stats.totalFetches + 1));
    VisitAllCounts(p1, s, results, search, now);
    VisitAllRecent(p1, s, results, search, now);
  }

  /** Building the application and registering its crawlers; `None` when registering raises. */
  method NewApp(settings: AppSettings, sources: Json, table: CrawlStore.Store) returns (app: Option<CrawlerApp>)
    ensures app.Some? <==> CrawlerRunner.RegisteredSources(sources).Some?
    ensures app.Some? ==> fresh(app.value) && app.value.settings == settings && app.value.stats == Stats(0, 0, 0, 0, 0)
                          && app.value.recentItems == [] && app.value.manager.Valid()
                          && (CrawlerRunner.RegisteredSources(sources).value != [] <==> app.value.manager.crawlers != map[])
  {
    var a := new CrawlerApp(settings, table);
    var ok := a.RegisterCrawlers(sources);
    if !ok {
      return None;
    }
    if CrawlerRunner.RegisteredSources(sources).value != [] {
      assert CrawlerRunner.ThsSource().sourceId in a.manager.crawlers;
    }
    app := Some(a);
  }
}
