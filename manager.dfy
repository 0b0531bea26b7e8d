/**
 * The crawler manager: a registry of crawlers with per-source statistics,
 * per-source seen-sets for incremental detection, a capped in-memory error
 * log and, when a database is configured, the raw-item table.
 *
 * Crawling is specified source by source by pure functions over a
 * `CrawlPass` value; the class's methods update its fields in place and are
 * proved to agree with those functions.
 */
module CrawlManager {
  import opened Common
  import opened CrawlerBase
  import opened CrawlStore

  /** Per-source counters (`CrawlerStats`). */
  datatype CrawlerStats = CrawlerStats(
    sourceId: string,
    totalFetches: int,
    successfulFetches: int,
    failedFetches: int,
    totalItems: int,
    newItems: int,
    lastFetchTime: string,
    lastSuccessTime: string,
    lastError: string)

  function NewStats(sourceId: string): (st: CrawlerStats)
    ensures st.sourceId == sourceId && StatsOk(st)
  {
    CrawlerStats(sourceId, 0, 0, 0, 0, 0, "", "", "")
  }

  /**
   * The relations the counters keep: successes never exceed fetches, and a
   * fetch counts as a success or a failure (a failure whose fetch raised is
   * not counted as a fetch); new items never exceed items seen.
   */
  predicate StatsOk(st: CrawlerStats) {
    0 <= st.successfulFetches <= st.totalFetches <= st.successfulFetches + st.failedFetches
    && 0 <= st.failedFetches && 0 <= st.newItems <= st.totalItems
  }

  /** The default cap of the in-memory error log (`max_error_log`). */
  const DefaultMaxErrorLog := 1000

  /** What one call of a crawler's `fetch_news_list` did. */
  datatype ListOutcome = Returned(result: CrawlResult) | Raised(message: string)

  /** The items handed to the new-item callbacks for one source. */
  datatype NewItemsEvent = NewItemsEvent(sourceId: string, items: seq<NewsItem>)

  // ---------------------------------------------------------------- error log

  /** The cap applied after an append: `error_log[-max:]` when the log is longer than `max`. */
  function CapLog(log: seq<ErrorLogEntry>, max: int): seq<ErrorLogEntry> {
    if |log| > max then TakeLast(log, max) else log
  }

  /** The log after appending each of `es` in turn, capping after each. */
  function AppendCapped(log: seq<ErrorLogEntry>, es: seq<ErrorLogEntry>, max: int): seq<ErrorLogEntry>
    decreases |es|
  {
    if es == [] then log else CapLog(AppendCapped(log, es[..|es| - 1], max) + [es[|es| - 1]], max)
  }

  /**
   * With a positive cap the log is a sliding window: if it held the last
   * `max` entries of some history, after an append it holds the last `max`
   * entries of the history extended by the new entry, newest last.
   */
  lemma CapLogWindow(history: seq<ErrorLogEntry>, e: ErrorLogEntry, max: int)
    requires max >= 1
    ensures CapLog(TakeLast(history, max) + [e], max) == TakeLast(history + [e], max)
    ensures |CapLog(TakeLast(history, max) + [e], max)| <= max
  {
    var h := history + [e];
    if |history| >= max {
      assert TakeLast(history, max) + [e] == h[|h| - max - 1..];
      assert h[|h| - max - 1..][1..] == h[|h| - max..];
    }
  }

  /** A positive cap is never exceeded. */
  lemma AppendCappedBound(log: seq<ErrorLogEntry>, es: seq<ErrorLogEntry>, max: int)
    requires max >= 1 && |log| <= max
    ensures |AppendCapped(log, es, max)| <= max
  {
  }

  /** A cap of zero does not cap: `error_log[-0:]` is the whole list. */
  lemma CapLogZero(log: seq<ErrorLogEntry>, e: ErrorLogEntry)
    ensures CapLog(log + [e], 0) == log + [e]
  {
  }

  /**
   * The memory fallback of `get_errors`: the log filtered by source (an
   * empty `sourceId` means no filter) and by resolution, then `[-limit:]`.
   */
  function MemoryErrors(log: seq<ErrorLogEntry>, sourceId: string, unresolvedOnly: bool, limit: int)
    : (r: seq<ErrorLogEntry>)
    ensures var m := ErrorsMatching(log, sourceId, unresolvedOnly);
            && |r| <= |m| && r == m[|m| - |r|..]
            && |r| == (if limit > 0 then (if |m| < limit then |m| else limit)
                       else if limit == 0 then |m|
                       else if -limit <= |m| then |m| + limit else 0)
  {
    TakeLast(ErrorsMatching(log, sourceId, unresolvedOnly), limit)
  }

  function ErrorsMatching(log: seq<ErrorLogEntry>, sourceId: string, unresolvedOnly: bool): (r: seq<ErrorLogEntry>)
    ensures forall e :: e in r <==> e in log && (sourceId == "" || e.sourceId == sourceId) && (!unresolvedOnly || !e.resolved)
  {
    var bySource := if sourceId != "" then KeepIf(log, (e: ErrorLogEntry) => e.sourceId == sourceId) else log;
    var r := if unresolvedOnly then KeepIf(bySource, (e: ErrorLogEntry) => !e.resolved) else bySource;
    assert forall e :: e in log && (sourceId == "" || e.sourceId == sourceId) ==> e in bySource by {
      forall e | e in log && (sourceId == "" || e.sourceId == sourceId) ensures e in bySource {
        if sourceId != "" {
          KeepIfComplete(log, (e: ErrorLogEntry) => e.sourceId == sourceId, e);
        }
      }
    }
    assert forall e :: e in bySource && (!unresolvedOnly || !e.resolved) ==> e in r by {
      forall e | e in bySource && (!unresolvedOnly || !e.resolved) ensures e in r {
        if unresolvedOnly {
          KeepIfComplete(bySource, (e: ErrorLogEntry) => !e.resolved, e);
        }
      }
    }
    r
  }

  /** Every entry returned is a logged entry that matches the filters. */
  lemma MemoryErrorsSpec(log: seq<ErrorLogEntry>, sourceId: string, unresolvedOnly: bool, limit: int)
    ensures var r := MemoryErrors(log, sourceId, unresolvedOnly, limit);
            forall e :: e in r ==> e in log && (sourceId == "" || e.sourceId == sourceId) && (!unresolvedOnly || !e.resolved)
  {
    var r := MemoryErrors(log, sourceId, unresolvedOnly, limit);
    var m := ErrorsMatching(log, sourceId, unresolvedOnly);
    forall e | e in r ensures e in m {
      var i :| 0 <= i < |r| && r[i] == e;
      assert m[|m| - |r| + i] == e;
    }
  }

  /** As written, a limit of 0 returns every matching entry rather than none. */
  lemma MemoryErrorsLimitZero(log: seq<ErrorLogEntry>, sourceId: string, unresolvedOnly: bool)
    ensures MemoryErrors(log, sourceId, unresolvedOnly, 0) == ErrorsMatching(log, sourceId, unresolvedOnly)
  {
  }

  /** A negative limit drops the first `-limit` matching entries instead of returning none. */
  lemma MemoryErrorsNegativeLimit(log: seq<ErrorLogEntry>, sourceId: string, unresolvedOnly: bool, limit: int)
    requires limit < 0
    ensures var m := ErrorsMatching(log, sourceId, unresolvedOnly);
            MemoryErrors(log, sourceId, unresolvedOnly, limit) == if -limit <= |m| then m[-limit..] else []
  {
  }

  /** Concrete logs on which a limit of 0 and a limit of -1 return entries. */
  lemma MemoryErrorsNonPositiveWitness()
    ensures var e := NewErrorLogEntry("t", "ths", "crawl", "", "unknown", "boom", "");
            && MemoryErrors([e], "", false, 0) == [e]
            && MemoryErrors([e, e], "", false, -1) == [e]
  {
    var e := NewErrorLogEntry("t", "ths", "crawl", "", "unknown", "boom", "");
    MemoryErrorsLimitZero([e], "", false);
    assert ErrorsMatching([e], "", false) == [e];
    MemoryErrorsNegativeLimit([e, e], "", false, -1);
    assert ErrorsMatching([e, e], "", false) == [e, e];
  }

  /** The evidently intended fallback: at most `limit` entries, none for a limit of 0 or less. */
  function RecentErrors(log: seq<ErrorLogEntry>, sourceId: string, unresolvedOnly: bool, limit: int)
    : (r: seq<ErrorLogEntry>)
    ensures limit <= 0 ==> r == []
    ensures |r| <= (if limit < 0 then 0 else limit)
    ensures forall e :: e in r ==> e in log && (sourceId == "" || e.sourceId == sourceId) && (!unresolvedOnly || !e.resolved)
  {
    if limit <= 0 then [] else
      MemoryErrorsSpec(log, sourceId, unresolvedOnly, limit);
      MemoryErrors(log, sourceId, unresolvedOnly, limit)
  }

  /** For a positive limit the corrected query agrees with the one as written. */
  lemma RecentErrorsAgree(log: seq<ErrorLogEntry>, sourceId: string, unresolvedOnly: bool, limit: int)
    requires limit > 0
    ensures RecentErrors(log, sourceId, unresolvedOnly, limit) == MemoryErrors(log, sourceId, unresolvedOnly, limit)
  {
  }

  // ------------------------------------------------------ incremental detection

  /** The seqs of a list of items. */
  function SeqSet(items: seq<NewsItem>): set<string> {
    set i | 0 <= i < |items| :: items[i].seqNo
  }

  /**
   * The loop of `_detect_new_items`: an item is new when its seq is neither
   * in the seen-set nor carried by an earlier item of the list.
   */
  function FreshItems(seen: set<string>, items: seq<NewsItem>): (r: seq<NewsItem>)
    ensures |r| <= |items|
    decreases |items|
  {
    if items == [] then []
    else
      var n := |items|;
      var p := FreshItems(seen, items[..n - 1]);
      if items[n - 1].seqNo in seen + SeqSet(items[..n - 1]) then p else p + [items[n - 1]]
  }

  /** Every new item is drawn from the list and has a seq outside the seen-set. */
  lemma {:induction false} FreshItemsDrawn(seen: set<string>, items: seq<NewsItem>)
    ensures forall x :: x in FreshItems(seen, items) ==> x in items && x.seqNo !in seen
    decreases |items|
  {
    if items != [] {
      var n := |items|;
      FreshItemsDrawn(seen, items[..n - 1]);
      assert forall x :: x in items[..n - 1] ==> x in items;
    }
  }

  /** `items[i]` is the first item of the list with its seq. */
  predicate FirstWithSeq(items: seq<NewsItem>, i: int)
    requires 0 <= i < |items|
  {
    forall j :: 0 <= j < i ==> items[j].seqNo != items[i].seqNo
  }

  lemma SeqSetEmpty(items: seq<NewsItem>)
    ensures SeqSet(items) == {} <==> items == []
  {
    if items != [] {
      assert items[0].seqNo in SeqSet(items);
    }
  }

  lemma SeqSetSnoc(items: seq<NewsItem>)
    requires items != []
    ensures SeqSet(items) == SeqSet(items[..|items| - 1]) + {items[|items| - 1].seqNo}
  {
    var n := |items|;
    forall q | q in SeqSet(items) ensures q in SeqSet(items[..n - 1]) + {items[n - 1].seqNo} {
      var i :| 0 <= i < n && items[i].seqNo == q;
      if i < n - 1 {
        assert items[..n - 1][i] == items[i];
      }
    }
    forall q | q in SeqSet(items[..n - 1]) ensures q in SeqSet(items) {
      var i :| 0 <= i < n - 1 && items[..n - 1][i].seqNo == q;
      assert items[..n - 1][i] == items[i];
    }
  }

  /** `x` is the first item of `items` with its seq and that seq was not seen before. */
  ghost predicate FirstFresh(seen: set<string>, items: seq<NewsItem>, x: NewsItem) {
    exists i :: 0 <= i < |items| && items[i] == x && x.seqNo !in seen && FirstWithSeq(items, i)
  }

  /** The new items are exactly the first occurrences of the seqs not seen before. */
  lemma {:induction false} FreshItemsMembers(seen: set<string>, items: seq<NewsItem>)
    ensures forall x :: x in FreshItems(seen, items) <==>
              exists i :: 0 <= i < |items| && items[i] == x && x.seqNo !in seen && FirstWithSeq(items, i)
    decreases |items|
  {
    if items != [] {
      FreshItemsMembers(seen, items[..|items| - 1]);
      forall x ensures x in FreshItems(seen, items) <==> FirstFresh(seen, items, x) {
        FreshMembersStep(seen, items, x);
      }
    }
  }

  /** The step of `FreshItemsMembers`, for one item `x`. */
  lemma FreshMembersStep(seen: set<string>, items: seq<NewsItem>, x: NewsItem)
    requires items != []
    requires x in FreshItems(seen, items[..|items| - 1]) <==> FirstFresh(seen, items[..|items| - 1], x)
    ensures x in FreshItems(seen, items) <==> FirstFresh(seen, items, x)
  {
    var n := |items|;
    var pre, last := items[..n - 1], items[n - 1];
    var p := FreshItems(seen, pre);
    if x in p {
      var i :| 0 <= i < n - 1 && pre[i] == x && x.seqNo !in seen && FirstWithSeq(pre, i);
      FirstWithSeqPrefix(items, i);
    }
    if FirstFresh(seen, items, x) {
      var i :| 0 <= i < n && items[i] == x && x.seqNo !in seen && FirstWithSeq(items, i);
      if i < n - 1 {
        FirstWithSeqPrefix(items, i);
      } else {
        FirstWithSeqLast(items);
      }
    }
    if x in FreshItems(seen, items) && x !in p {
      FirstWithSeqLast(items);
    }
  }

  /** Before the last item, being first with a seq does not depend on the last item. */
  lemma FirstWithSeqPrefix(items: seq<NewsItem>, i: int)
    requires 0 <= i < |items| - 1
    ensures items[..|items| - 1][i] == items[i]
    ensures FirstWithSeq(items[..|items| - 1], i) <==> FirstWithSeq(items, i)
  {
    var pre := items[..|items| - 1];
    assert forall j :: 0 <= j <= i ==> pre[j] == items[j];
  }

  /** The last item is first with its seq exactly when no earlier item carries it. */
  lemma FirstWithSeqLast(items: seq<NewsItem>)
    requires items != []
    ensures FirstWithSeq(items, |items| - 1) <==> items[|items| - 1].seqNo !in SeqSet(items[..|items| - 1])
  {
    var n := |items|;
    var pre := items[..n - 1];
    if items[n - 1].seqNo in SeqSet(pre) {
      var j :| 0 <= j < n - 1 && pre[j].seqNo == items[n - 1].seqNo;
      assert items[j] == pre[j];
    }
    if !FirstWithSeq(items, n - 1) {
      var j :| 0 <= j < n - 1 && items[j].seqNo == items[n - 1].seqNo;
      assert pre[j] == items[j];
    }
  }

  /**
   * Each new item carries a different seq, and the new seqs are the list's
   * seqs less the seen ones.
   */
  lemma FreshItemsSeqs(seen: set<string>, items: seq<NewsItem>)
    ensures var r := FreshItems(seen, items);
            && (forall a, b :: 0 <= a < b < |r| ==> r[a].seqNo != r[b].seqNo)
            && SeqSet(r) == SeqSet(items) - seen
  {
    FreshItemsSeqSet(seen, items);
    FreshItemsDistinct(seen, items);
  }

  lemma {:induction false} FreshItemsSeqSet(seen: set<string>, items: seq<NewsItem>)
    ensures SeqSet(FreshItems(seen, items)) == SeqSet(items) - seen
    decreases |items|
  {
    if items != [] {
      var n := |items|;
      var pre := items[..n - 1];
      var last := items[n - 1];
      var p := FreshItems(seen, pre);
      FreshItemsSeqSet(seen, pre);
      SeqSetSnoc(items);
      var r := FreshItems(seen, items);
      if last.seqNo !in seen + SeqSet(pre) {
        assert r == p + [last];
        SeqSetSnoc(r);
        assert r[..|r| - 1] == p;
      }
    }
  }

  /** No two items carry the same seq. */
  predicate DistinctSeqs(r: seq<NewsItem>) {
    forall a, b :: 0 <= a < b < |r| ==> r[a].seqNo != r[b].seqNo
  }

  lemma {:induction false} FreshItemsDistinct(seen: set<string>, items: seq<NewsItem>)
    ensures DistinctSeqs(FreshItems(seen, items))
    decreases |items|
  {
    if items != [] {
      var n := |items|;
      var pre := items[..n - 1];
      var last := items[n - 1];
      var p := FreshItems(seen, pre);
      FreshItemsDistinct(seen, pre);
      var r := FreshItems(seen, items);
      if last.seqNo !in seen + SeqSet(pre) {
        assert r == p + [last];
        FreshItemsSeqSet(seen, pre);
        assert last.seqNo !in SeqSet(p);
        DistinctSnoc(p, last);
      } else {
        assert r == p;
      }
    }
  }

  /** One more item of the list: its seq joins the list's seqs, and it is new unless its seq was seen. */
  lemma FreshPrefixNext(seen: set<string>, items: seq<NewsItem>, i: int)
    requires 0 <= i < |items|
    ensures SeqSet(items[..i + 1]) == SeqSet(items[..i]) + {items[i].seqNo}
    ensures FreshItems(seen, items[..i + 1]) ==
              if items[i].seqNo in seen + SeqSet(items[..i]) then FreshItems(seen, items[..i])
              else FreshItems(seen, items[..i]) + [items[i]]
  {
    assert items[..i + 1][..i] == items[..i];
    SeqSetSnoc(items[..i + 1]);
  }

  /** The loop of `_detect_new_items`: the new items, and the seen-set grown by every seq of the list. */
  method ScanFresh(seen0: set<string>, items: seq<NewsItem>) returns (newOnes: seq<NewsItem>, seen: set<string>)
    ensures newOnes == FreshItems(seen0, items)
    ensures seen == seen0 + SeqSet(items)
  {
    seen := seen0;
    newOnes := [];
    var i := 0;
    while i < |items|
      invariant 0 <= i <= |items|
      invariant seen == seen0 + SeqSet(items[..i])
      invariant newOnes == FreshItems(seen0, items[..i])
    {
      FreshPrefixNext(seen0, items, i);
      if items[i].seqNo !in seen {
        newOnes := newOnes + [items[i]];
        seen := seen + {items[i].seqNo};
      }
      i := i + 1;
    }
    assert items[..i] == items;
  }

  /** Appending an item whose seq is new keeps the seqs distinct. */
  lemma DistinctSnoc(p: seq<NewsItem>, last: NewsItem)
    requires DistinctSeqs(p)
    requires last.seqNo !in SeqSet(p)
    ensures DistinctSeqs(p + [last])
  {
    var r := p + [last];
    forall a, b | 0 <= a < b < |r| ensures r[a].seqNo != r[b].seqNo {
      if b == |r| - 1 {
        assert r[a] == p[a];
        assert p[a].seqNo in SeqSet(p);
      }
    }
  }

  /** Detection is idempotent: after one pass, the same list brings nothing new. */
  lemma {:induction false} FreshItemsAgain(seen: set<string>, items: seq<NewsItem>)
    ensures FreshItems(seen + SeqSet(items), items) == []
  {
    FreshItemsSeqs(seen + SeqSet(items), items);
    SeqSetEmpty(FreshItems(seen + SeqSet(items), items));
  }

  /** With an empty seen-set, the first pass reports one item per distinct seq. */
  lemma FreshItemsFirstPass(items: seq<NewsItem>)
    ensures SeqSet(FreshItems({}, items)) == SeqSet(items)
  {
    FreshItemsSeqs({}, items);
  }
  // ------------------------------------------------------------------ crawling

  /** Everything one crawl pass reads besides the manager's own state. */
  datatype CrawlEnv = CrawlEnv(
    crawlers: map<string, Crawler>,
    fetch: string -> ListOutcome,
    saveFail: string -> Option<string>,
    dumps: JsonDumps,
    now: string,
    hasDb: bool,
    maxErrorLog: int,
    callbacks: bool)

  /** The state a crawl pass works on, with the results and callback events it has produced so far. */
  datatype CrawlPass = CrawlPass(
    stats: map<string, CrawlerStats>,
    seen: map<string, set<string>>,
    errorLog: seq<ErrorLogEntry>,
    rows: Store,
    results: map<string, CrawlResult>,
    events: seq<NewItemsEvent>)

  /** The error logged with the default type and an empty stack trace. */
  function Logged(now: string, sourceId: string, operation: string, url: string, message: string): ErrorLogEntry {
    NewErrorLogEntry(now, sourceId, operation, url, "unknown", message, "")
  }

  /** The result `crawl_all` reports for one source, given that source's seen-set. */
  function SourceResult(env: CrawlEnv, sid: string, seen: set<string>): (r: CrawlResult)
    requires sid in env.crawlers
  {
    match env.fetch(sid)
    case Raised(msg) =>
      MakeCrawlResult(sid, env.crawlers[sid].sourceName, [], UnknownError, msg, "", "", 0, 0, env.now)
    case Returned(res) =>
      if res.status == Success then res.(newCount := |FreshItems(seen, res.items)|) else res
  }

  /** The counters after a fetch that raised: a failure, not counted as a fetch. */
  function RaisedStats(st: CrawlerStats, message: string): CrawlerStats {
    st.(failedFetches := st.failedFetches + 1, lastError := message)
  }

  /** The counters after a fetch that returned. */
  function FetchedStats(st: CrawlerStats, now: string): CrawlerStats {
    st.(totalFetches := st.totalFetches + 1, lastFetchTime := now)
  }

  /** The counters after a successful fetch of `items` items, `newOnes` of them new. */
  function SucceededStats(st: CrawlerStats, now: string, items: nat, newOnes: nat): CrawlerStats {
    st.(successfulFetches := st.successfulFetches + 1, lastSuccessTime := now,
        totalItems := st.totalItems + items, newItems := st.newItems + newOnes)
  }

  /** The counters after a fetch that returned a failed result. */
  function FailedStats(st: CrawlerStats, message: string): CrawlerStats {
    st.(failedFetches := st.failedFetches + 1, lastError := message)
  }

  /** The counters of one source after it is crawled. */
  function SourceStats(env: CrawlEnv, sid: string, st: CrawlerStats, seen: set<string>): CrawlerStats {
    match env.fetch(sid)
    case Raised(msg) => RaisedStats(st, msg)
    case Returned(res) =>
      if res.status == Success then SucceededStats(FetchedStats(st, env.now), env.now, |res.items|, |FreshItems(seen, res.items)|)
      else FailedStats(FetchedStats(st, env.now), res.errorMessage)
  }

  /** The seen-set of one source after it is crawled: only a successful fetch adds to it. */
  function SourceSeen(env: CrawlEnv, sid: string, seen: set<string>): set<string> {
    match env.fetch(sid)
    case Returned(res) => if res.status == Success then seen + SeqSet(res.items) else seen
    case Raised(_) => seen
  }

  /** The table after one source is crawled: a successful fetch is saved unless the save fails. */
  function SourceRows(env: CrawlEnv, sid: string, rows: Store): Store
    requires sid in env.crawlers
  {
    match env.fetch(sid)
    case Returned(res) =>
      if res.status == Success && env.hasDb && env.saveFail(sid).None? then
        SaveItems(rows, sid, env.crawlers[sid].sourceName, res.items, env.dumps, env.now)
      else rows
    case Raised(_) => rows
  }

  /** The errors one source's crawl logs, in order (at most one). */
  function SourceErrors(env: CrawlEnv, sid: string): (es: seq<ErrorLogEntry>)
    ensures |es| <= 1
  {
    match env.fetch(sid)
    case Raised(msg) => [Logged(env.now, sid, "crawl", "", msg)]
    case Returned(res) =>
      if res.status != Success then [Logged(env.now, sid, "fetch_list", "", res.errorMessage)]
      else if env.hasDb && env.saveFail(sid).Some? then [Logged(env.now, sid, "save_items", "", env.saveFail(sid).value)]
      else []
  }

  /** The new-item callbacks run for a source only when it has new items and callbacks are registered. */
  function SourceEvents(env: CrawlEnv, sid: string, seen: set<string>): seq<NewItemsEvent> {
    match env.fetch(sid)
    case Returned(res) =>
      var newOnes := FreshItems(seen, res.items);
      if res.status == Success && newOnes != [] && env.callbacks then [NewItemsEvent(sid, newOnes)] else []
    case Raised(_) => []
  }

  function SeenOf(p: CrawlPass, sid: string): set<string> {
    if sid in p.seen then p.seen[sid] else {}
  }

  /** One iteration of the loop of `crawl_all`. */
  function CrawlStep(p: CrawlPass, env: CrawlEnv, sid: string): (r: CrawlPass)
    requires sid in env.crawlers && sid in p.stats
    ensures r.stats.Keys == p.stats.Keys && r.seen.Keys == p.seen.Keys + {sid}
    ensures r.results.Keys == p.results.Keys + {sid}
  {
    var seen := SeenOf(p, sid);
    CrawlPass(
      p.stats[sid := SourceStats(env, sid, p.stats[sid], seen)],
      p.seen[sid := SourceSeen(env, sid, seen)],
      AppendCapped(p.errorLog, SourceErrors(env, sid), env.maxErrorLog),
      SourceRows(env, sid, p.rows),
      p.results[sid := SourceResult(env, sid, seen)],
      p.events + SourceEvents(env, sid, seen))
  }

  /** Every source of `sids` has a crawler and counters. */
  ghost predicate CrawlFoldable(p: CrawlPass, crawlers: map<string, Crawler>, sids: seq<string>) {
    forall i :: 0 <= i < |sids| ==> sids[i] in crawlers && sids[i] in p.stats
  }

  /** `crawl_all`: the sources crawled one after the other, in registration order. */
  function CrawlFold(p: CrawlPass, env: CrawlEnv, sids: seq<string>): (r: CrawlPass)
    requires CrawlFoldable(p, env.crawlers, sids)
    ensures r.stats.Keys == p.stats.Keys
    ensures r.results.Keys == p.results.Keys + (set x | x in sids)
    decreases |sids|
  {
    if sids == [] then p
    else
      var n := |sids|;
      var q := CrawlFold(p, env, sids[..n - 1]);
      assert sids == sids[..n - 1] + [sids[n - 1]];
      CrawlStep(q, env, sids[n - 1])
  }

  /** A step whose fetch raised: the failure is counted and logged, nothing is saved. */
  lemma CrawlStepRaised(p: CrawlPass, env: CrawlEnv, sid: string, msg: string)
    requires sid in env.crawlers && sid in p.stats && sid in p.seen && env.fetch(sid) == Raised(msg)
    ensures CrawlStep(p, env, sid) == CrawlPass(
              p.stats[sid := RaisedStats(p.stats[sid], msg)],
              p.seen,
              AppendCapped(p.errorLog, [Logged(env.now, sid, "crawl", "", msg)], env.maxErrorLog),
              p.rows,
              p.results[sid := MakeCrawlResult(sid, env.crawlers[sid].sourceName, [], UnknownError, msg, "", "", 0, 0, env.now)],
              p.events)
  {
    assert p.seen[sid := p.seen[sid]] == p.seen;
    assert p.events + [] == p.events;
  }

  /** A step whose fetch returned a failed result: the fetch and the failure are counted and logged. */
  lemma CrawlStepFailed(p: CrawlPass, env: CrawlEnv, sid: string, res: CrawlResult)
    requires sid in env.crawlers && sid in p.stats && sid in p.seen && env.fetch(sid) == Returned(res) && res.status != Success
    ensures CrawlStep(p, env, sid) == CrawlPass(
              p.stats[sid := FailedStats(FetchedStats(p.stats[sid], env.now), res.errorMessage)],
              p.seen,
              AppendCapped(p.errorLog, [Logged(env.now, sid, "fetch_list", "", res.errorMessage)], env.maxErrorLog),
              p.rows,
              p.results[sid := res],
              p.events)
  {
    assert p.seen[sid := p.seen[sid]] == p.seen;
    assert p.events + [] == p.events;
  }

  /** A successful step: counted, its new items detected and saved, the callbacks run. */
  lemma CrawlStepSucceeded(p: CrawlPass, env: CrawlEnv, sid: string, res: CrawlResult)
    requires sid in env.crawlers && sid in p.stats && sid in p.seen && env.fetch(sid) == Returned(res) && res.status == Success
    ensures var newOnes := FreshItems(p.seen[sid], res.items);
            CrawlStep(p, env, sid) == CrawlPass(
              p.stats[sid := SucceededStats(FetchedStats(p.stats[sid], env.now), env.now, |res.items|, |newOnes|)],
              p.seen[sid := p.seen[sid] + SeqSet(res.items)],
              if env.hasDb && env.saveFail(sid).Some?
              then AppendCapped(p.errorLog, [Logged(env.now, sid, "save_items", "", env.saveFail(sid).value)], env.maxErrorLog)
              else p.errorLog,
              if env.hasDb && env.saveFail(sid).None?
              then SaveItems(p.rows, sid, env.crawlers[sid].sourceName, res.items, env.dumps, env.now)
              else p.rows,
              p.results[sid := res.(newCount := |newOnes|)],
              p.events + (if newOnes != [] && env.callbacks then [NewItemsEvent(sid, newOnes)] else []))
  {
  }

  /** A step for one source leaves every other source's entries as they were. */
  lemma CrawlStepOther(q: CrawlPass, env: CrawlEnv, s: string, sid: string)
    requires s in env.crawlers && s in q.stats && s != sid
    ensures var r := CrawlStep(q, env, s);
            && (sid in q.results ==> r.results[sid] == q.results[sid])
            && (sid in q.stats ==> r.stats[sid] == q.stats[sid])
            && SeenOf(r, sid) == SeenOf(q, sid)
  {
  }

  /** A step for one source gives it the outcome of its own crawl. */
  lemma CrawlStepSelf(q: CrawlPass, env: CrawlEnv, s: string)
    requires s in env.crawlers && s in q.stats
    ensures var r := CrawlStep(q, env, s);
            && r.results[s] == SourceResult(env, s, SeenOf(q, s))
            && r.stats[s] == SourceStats(env, s, q.stats[s], SeenOf(q, s))
            && SeenOf(r, s) == SourceSeen(env, s, SeenOf(q, s))
  {
  }

  /** Each crawl keeps the counter relations of every source. */
  lemma SourceStatsOk(env: CrawlEnv, sid: string, st: CrawlerStats, seen: set<string>)
    requires StatsOk(st)
    ensures StatsOk(SourceStats(env, sid, st, seen))
    ensures SourceStats(env, sid, st, seen).sourceId == st.sourceId
  {
  }

  /**
   * A source appearing once in the pass ends it with the outcome of its own
   * crawl, computed from its state before the pass: no source's crawl sees
   * another's, and every source gets a result whatever the others did.
   */
  lemma {:induction false} CrawlFoldPerSource(p: CrawlPass, env: CrawlEnv, sids: seq<string>, k: int)
    requires CrawlFoldable(p, env.crawlers, sids)
    requires NoDups(sids) && 0 <= k < |sids|
    ensures var r := CrawlFold(p, env, sids);
            var sid := sids[k];
            && r.results[sid] == SourceResult(env, sid, SeenOf(p, sid))
            && r.stats[sid] == SourceStats(env, sid, p.stats[sid], SeenOf(p, sid))
            && SeenOf(r, sid) == SourceSeen(env, sid, SeenOf(p, sid))
    decreases |sids|
  {
    var n := |sids|;
    if k < n - 1 {
      var pre := sids[..n - 1];
      assert NoDups(pre) && pre[k] == sids[k] && sids[k] != sids[n - 1];
      CrawlFoldSnoc(p, env, sids);
      CrawlFoldPerSource(p, env, pre, k);
      PerSourceStep(p, env, sids, k);
    } else {
      CrawlFoldLast(p, env, sids);
    }
  }

  /** The step of `CrawlFoldPerSource`: a source's outcome survives the step for the last source. */
  lemma PerSourceStep(p: CrawlPass, env: CrawlEnv, sids: seq<string>, k: int)
    requires CrawlFoldable(p, env.crawlers, sids) && 0 <= k < |sids| - 1 && sids[k] != sids[|sids| - 1]
    requires CrawlFoldable(p, env.crawlers, sids[..|sids| - 1])
    requires var r := CrawlFold(p, env, sids[..|sids| - 1]);
             var sid := sids[k];
             && r.results[sid] == SourceResult(env, sid, SeenOf(p, sid))
             && r.stats[sid] == SourceStats(env, sid, p.stats[sid], SeenOf(p, sid))
             && SeenOf(r, sid) == SourceSeen(env, sid, SeenOf(p, sid))
    ensures var r := CrawlFold(p, env, sids);
            var sid := sids[k];
            && r.results[sid] == SourceResult(env, sid, SeenOf(p, sid))
            && r.stats[sid] == SourceStats(env, sid, p.stats[sid], SeenOf(p, sid))
            && SeenOf(r, sid) == SourceSeen(env, sid, SeenOf(p, sid))
  {
    var n := |sids|;
    CrawlFoldSnoc(p, env, sids);
    CrawlStepKeeps(p, CrawlFold(p, env, sids[..n - 1]), env, sids[n - 1], sids[k]);
  }

  /** The last source of a pass without repetitions ends it with the outcome of its own crawl. */
  lemma CrawlFoldLast(p: CrawlPass, env: CrawlEnv, sids: seq<string>)
    requires CrawlFoldable(p, env.crawlers, sids)
    requires NoDups(sids) && sids != []
    ensures var r := CrawlFold(p, env, sids);
            var sid := sids[|sids| - 1];
            && r.results[sid] == SourceResult(env, sid, SeenOf(p, sid))
            && r.stats[sid] == SourceStats(env, sid, p.stats[sid], SeenOf(p, sid))
            && SeenOf(r, sid) == SourceSeen(env, sid, SeenOf(p, sid))
  {
    var n := |sids|;
    var pre, sid := sids[..n - 1], sids[n - 1];
    assert forall i :: 0 <= i < |pre| ==> pre[i] != sid;
    CrawlFoldSnoc(p, env, sids);
    CrawlFoldUntouched(p, env, pre, sid);
    CrawlStepSelf(CrawlFold(p, env, pre), env, sid);
  }

  /** A source's outcome, once reached, survives a step for another source. */
  lemma CrawlStepKeeps(p: CrawlPass, q: CrawlPass, env: CrawlEnv, s: string, sid: string)
    requires s in env.crawlers && s in q.stats && s != sid
    requires sid in env.crawlers && sid in p.stats && sid in q.results
    requires q.results[sid] == SourceResult(env, sid, SeenOf(p, sid))
    requires sid in q.stats && q.stats[sid] == SourceStats(env, sid, p.stats[sid], SeenOf(p, sid))
    requires SeenOf(q, sid) == SourceSeen(env, sid, SeenOf(p, sid))
    ensures var r := CrawlStep(q, env, s);
            && r.results[sid] == SourceResult(env, sid, SeenOf(p, sid))
            && r.stats[sid] == SourceStats(env, sid, p.stats[sid], SeenOf(p, sid))
            && SeenOf(r, sid) == SourceSeen(env, sid, SeenOf(p, sid))
  {
    CrawlStepOther(q, env, s, sid);
  }

  /** A source not crawled in the pass keeps its counters and seen-set. */
  lemma {:induction false} CrawlFoldUntouched(p: CrawlPass, env: CrawlEnv, sids: seq<string>, sid: string)
    requires CrawlFoldable(p, env.crawlers, sids)
    requires forall i :: 0 <= i < |sids| ==> sids[i] != sid
    ensures var r := CrawlFold(p, env, sids);
            && (sid in p.stats ==> r.stats[sid] == p.stats[sid])
            && SeenOf(r, sid) == SeenOf(p, sid)
    decreases |sids|
  {
    if sids != [] {
      var n := |sids|;
      var pre := sids[..n - 1];
      assert forall i :: 0 <= i < |pre| ==> pre[i] != sid;
      CrawlFoldUntouched(p, env, pre, sid);
      UntouchedStep(p, env, sids, sid);
    }
  }

  /** The step of `CrawlFoldUntouched`: the last source's crawl leaves `sid` alone. */
  lemma UntouchedStep(p: CrawlPass, env: CrawlEnv, sids: seq<string>, sid: string)
    requires CrawlFoldable(p, env.crawlers, sids) && sids != [] && sids[|sids| - 1] != sid
    requires CrawlFoldable(p, env.crawlers, sids[..|sids| - 1])
    requires var q := CrawlFold(p, env, sids[..|sids| - 1]);
             && (sid in p.stats ==> q.stats[sid] == p.stats[sid])
             && SeenOf(q, sid) == SeenOf(p, sid)
    ensures var r := CrawlFold(p, env, sids);
            && (sid in p.stats ==> r.stats[sid] == p.stats[sid])
            && SeenOf(r, sid) == SeenOf(p, sid)
  {
    CrawlFoldSnoc(p, env, sids);
    CrawlStepOther(CrawlFold(p, env, sids[..|sids| - 1]), env, sids[|sids| - 1], sid);
  }

  /** The counter relations hold for every source after a whole pass. */
  lemma {:induction false} CrawlFoldStatsOk(p: CrawlPass, env: CrawlEnv, sids: seq<string>)
    requires CrawlFoldable(p, env.crawlers, sids)
    requires forall sid :: sid in p.stats ==> StatsOk(p.stats[sid])
    ensures var r := CrawlFold(p, env, sids);
            forall sid :: sid in r.stats ==> StatsOk(r.stats[sid]) && r.stats[sid].sourceId == p.stats[sid].sourceId
    decreases |sids|
  {
    if sids != [] {
      var n := |sids|;
      var last := sids[n - 1];
      CrawlFoldStatsOk(p, env, sids[..n - 1]);
      var q := CrawlFold(p, env, sids[..n - 1]);
      CrawlFoldSnoc(p, env, sids);
      var r := CrawlStep(q, env, last);
      forall sid | sid in r.stats
        ensures StatsOk(r.stats[sid]) && r.stats[sid].sourceId == p.stats[sid].sourceId
      {
        if sid == last {
          CrawlStepSelf(q, env, last);
          SourceStatsOk(env, last, q.stats[last], SeenOf(q, last));
        } else {
          CrawlStepOther(q, env, last, sid);
        }
      }
    }
  }

  /** The pass over the first `i + 1` sources is the pass over the first `i`, then a step. */
  lemma CrawlFoldNext(p: CrawlPass, env: CrawlEnv, sids: seq<string>, i: int)
    requires CrawlFoldable(p, env.crawlers, sids) && 0 <= i < |sids|
    ensures CrawlFoldable(p, env.crawlers, sids[..i])
    ensures sids[i] in CrawlFold(p, env, sids[..i]).stats
    ensures CrawlFold(p, env, sids[..i + 1]) == CrawlStep(CrawlFold(p, env, sids[..i]), env, sids[i])
  {
    assert sids[..i + 1][..i] == sids[..i];
    CrawlFoldablePrefix(p, env.crawlers, sids, i + 1);
    CrawlFoldSnoc(p, env, sids[..i + 1]);
  }

  /** A prefix of a crawlable list of sources is crawlable. */
  lemma CrawlFoldablePrefix(p: CrawlPass, crawlers: map<string, Crawler>, sids: seq<string>, j: int)
    requires CrawlFoldable(p, crawlers, sids) && 0 <= j <= |sids|
    ensures CrawlFoldable(p, crawlers, sids[..j])
  {
    forall i | 0 <= i < j ensures sids[..j][i] in crawlers && sids[..j][i] in p.stats {
      assert sids[..j][i] == sids[i];
    }
  }

  /** The pass over `sids` is the pass over all but the last, then a step for the last. */
  lemma CrawlFoldSnoc(p: CrawlPass, env: CrawlEnv, sids: seq<string>)
    requires CrawlFoldable(p, env.crawlers, sids) && sids != []
    ensures CrawlFoldable(p, env.crawlers, sids[..|sids| - 1])
    ensures var q := CrawlFold(p, env, sids[..|sids| - 1]);
            sids[|sids| - 1] in q.stats && CrawlFold(p, env, sids) == CrawlStep(q, env, sids[|sids| - 1])
  {
  }

  // ------------------------------------------------------------ full content

  /** What one call of a crawler's `fetch_full_content` did. */
  datatype ContentOutcome = Fetched(content: string, status: FetchStatus) | FetchRaised(message: string)

  /** The item after its content fetch raised. */
  function WithFetchError(it: NewsItem, message: string): NewsItem {
    it.(contentFetchError := message)
  }

  /** One item of the content-fetch loop: fetched items are skipped. */
  function ContentStep(it: NewsItem, o: ContentOutcome, now: string): NewsItem {
    if it.contentFetched then it
    else match o
      case Fetched(c, st) => WithContent(it, c, st, now)
      case FetchRaised(m) => WithFetchError(it, m)
  }

  /**
   * A fetched item is left alone; otherwise `content_fetched` becomes true
   * iff the status is SUCCESS, a failed status is recorded as the error, and
   * an exception changes only the error. The seq, url and title never change.
   */
  lemma ContentStepSpec(it: NewsItem, o: ContentOutcome, now: string)
    ensures var r := ContentStep(it, o, now);
            && (it.contentFetched ==> r == it)
            && (r.contentFetched <==> it.contentFetched || (o.Fetched? && o.status == Success))
            && (!it.contentFetched && o.Fetched? ==> r.fullContent == o.content && r.contentFetchTime == now)
            && (!it.contentFetched && o.Fetched? && o.status != Success ==> r.contentFetchError == o.status.Value() != "")
            && (!it.contentFetched && o.Fetched? && o.status == Success ==> r.contentFetchError == it.contentFetchError)
            && (!it.contentFetched && o.FetchRaised? ==> r == it.(contentFetchError := o.message))
            && r.seqNo == it.seqNo && r.url == it.url && r.title == it.title
  {
  }

  /** Once content is fetched successfully, later passes leave the item as it is. */
  lemma ContentStepSettled(it: NewsItem, o: ContentOutcome, o2: ContentOutcome, now: string, later: string)
    requires it.contentFetched || (o.Fetched? && o.status == Success)
    ensures ContentStep(ContentStep(it, o, now), o2, later) == ContentStep(it, o, now)
  {
  }

  /** The table after one item of the content-fetch loop: a fetched item's row is rewritten. */
  function ContentRowStep(rows: Store, sid: string, it: NewsItem, o: ContentOutcome, now: string, hasDb: bool): Store {
    if hasDb && !it.contentFetched && o.Fetched? then UpdateContent(rows, sid, ContentStep(it, o, now)) else rows
  }

  /** The error one item of the content-fetch loop logs, if its fetch raised. */
  function ContentItemErrors(sid: string, it: NewsItem, o: ContentOutcome, now: string): (es: seq<ErrorLogEntry>)
    ensures |es| <= 1
  {
    if !it.contentFetched && o.FetchRaised? then [Logged(now, sid, "fetch_content", it.url, o.message)] else []
  }

  /** The table after the content-fetch loop. */
  function ContentRows(rows: Store, sid: string, items: seq<NewsItem>, fetch: NewsItem -> ContentOutcome,
                       now: string, hasDb: bool): Store
    decreases |items|
  {
    if items == [] then rows
    else
      var n := |items|;
      ContentRowStep(ContentRows(rows, sid, items[..n - 1], fetch, now, hasDb), sid, items[n - 1], fetch(items[n - 1]), now, hasDb)
  }

  /** The errors the content-fetch loop logs: one per item whose fetch raised. */
  function ContentErrors(sid: string, items: seq<NewsItem>, fetch: NewsItem -> ContentOutcome, now: string)
    : (es: seq<ErrorLogEntry>)
    ensures |es| <= |items|
    ensures forall e :: e in es ==> e.sourceId == sid && e.operation == "fetch_content" && !e.resolved
    decreases |items|
  {
    if items == [] then []
    else
      var n := |items|;
      ContentErrors(sid, items[..n - 1], fetch, now) + ContentItemErrors(sid, items[n - 1], fetch(items[n - 1]), now)
  }

  /** One more item of the content-fetch loop: one more row step and that item's errors. */
  lemma ContentPrefixStep(rows: Store, sid: string, items: seq<NewsItem>, i: int,
                          fetch: NewsItem -> ContentOutcome, now: string, hasDb: bool)
    requires 0 <= i < |items|
    ensures ContentRows(rows, sid, items[..i + 1], fetch, now, hasDb)
         == ContentRowStep(ContentRows(rows, sid, items[..i], fetch, now, hasDb), sid, items[i], fetch(items[i]), now, hasDb)
    ensures ContentErrors(sid, items[..i + 1], fetch, now)
         == ContentErrors(sid, items[..i], fetch, now) + ContentItemErrors(sid, items[i], fetch(items[i]), now)
  {
    assert items[..i + 1][..i] == items[..i];
  }

  /** The content-fetch loop writes nothing for a source whose items were all fetched already. */
  lemma {:induction false} ContentRowsAllFetched(rows: Store, sid: string, items: seq<NewsItem>,
                                                 fetch: NewsItem -> ContentOutcome, now: string, hasDb: bool)
    requires forall i :: 0 <= i < |items| ==> items[i].contentFetched
    ensures ContentRows(rows, sid, items, fetch, now, hasDb) == rows
    ensures ContentErrors(sid, items, fetch, now) == []
    decreases |items|
  {
    if items != [] {
      ContentRowsAllFetched(rows, sid, items[..|items| - 1], fetch, now, hasDb);
    }
  }

  /** Appending two batches of entries is appending their concatenation. */
  lemma {:induction false} AppendCappedConcat(log: seq<ErrorLogEntry>, a: seq<ErrorLogEntry>, b: seq<ErrorLogEntry>, max: int)
    ensures AppendCapped(AppendCapped(log, a, max), b, max) == AppendCapped(log, a + b, max)
    decreases |b|
  {
    if b == [] {
      assert a + b == a;
    } else {
      var n := |b|;
      AppendCappedConcat(log, a, b[..n - 1], max);
      assert (a + b)[..|a + b| - 1] == a + b[..n - 1];
    }
  }

  /**
   * The count-based part of `cleanup_old_data`: the oldest rows by first-seen
   * are deleted one at a time until `keep` rows are left.
   */
  method KeepNewest(s: Store, keep: nat) returns (r: Store)
    requires keep < |s.Keys|
    ensures forall k :: k in r ==> k in s && r[k] == s[k]
    ensures |r.Keys| == keep
    ensures forall k, k' :: k in s && k !in r && k' in r ==> LexLe(s[k].firstSeen, r[k'].firstSeen)
  {
    r := s;
    while |r.Keys| > keep
      invariant keep <= |r.Keys| <= |s.Keys|
      invariant forall k :: k in r ==> k in s && r[k] == s[k]
      invariant forall k, k' :: k in s && k !in r && k' in r ==> LexLe(s[k].firstSeen, r[k'].firstSeen)
      decreases |r.Keys|
    {
      var m := OldestKey(r);
      var next := r - {m};
      assert next.Keys == r.Keys - {m};
      forall k, k' | k in s && k !in next && k' in next
        ensures LexLe(s[k].firstSeen, next[k'].firstSeen)
      {
      }
      r := next;
    }
  }

  // ------------------------------------------------------------------ manager

  /** The elements of a sequence, as a set. */
  function Elems(s: seq<string>): set<string> {
    set x | x in s
  }

  /**
   * The registry the manager keeps: one crawler, one set of counters and one
   * seen-set per source id, the registration order listing each source once.
   */
  ghost predicate Registry(crawlers: map<string, Crawler>, order: seq<string>,
                           stats: map<string, CrawlerStats>, seen: map<string, set<string>>)
  {
    && crawlers.Keys == stats.Keys && crawlers.Keys == seen.Keys
    && NoDups(order) && Elems(order) == crawlers.Keys
    && (forall sid :: sid in crawlers ==> crawlers[sid].sourceId == sid)
  }

  /** Registering keeps the registry consistent; a new source goes to the end of the order. */
  lemma RegistryRegister(crawlers: map<string, Crawler>, order: seq<string>, stats: map<string, CrawlerStats>,
                         seen: map<string, set<string>>, c: Crawler, s: set<string>)
    requires Registry(crawlers, order, stats, seen)
    ensures Registry(crawlers[c.sourceId := c], if c.sourceId in crawlers then order else order + [c.sourceId],
                     stats[c.sourceId := NewStats(c.sourceId)], seen[c.sourceId := s])
  {
    var o := if c.sourceId in crawlers then order else order + [c.sourceId];
    assert Elems(o) == crawlers.Keys + {c.sourceId};
  }

  /** `order` with `x` removed (deleting a key keeps a dict's other keys in order). */
  function Without(s: seq<string>, x: string): (r: seq<string>)
    ensures Elems(r) == Elems(s) - {x}
    ensures NoDups(s) ==> NoDups(r)
  {
    if s == [] then []
    else
      var tail := Without(s[1..], x);
      assert Elems(s) == {s[0]} + Elems(s[1..]);
      assert NoDups(s) ==> s[0] !in Elems(s[1..]);
      if s[0] == x then tail
      else
        var r := [s[0]] + tail;
        assert Elems(r) == {s[0]} + Elems(tail);
        assert NoDups(s) ==> NoDups(r) by {
          if NoDups(s) {
            assert s[0] !in Elems(tail);
            forall i, j | 0 <= i < j < |r| ensures r[i] != r[j] {
              if i == 0 {
                assert r[j] == tail[j - 1] && r[j] in Elems(tail);
              } else {
                assert r[i] == tail[i - 1] && r[j] == tail[j - 1];
              }
            }
          }
        }
        r
  }

  /** Unregistering keeps the registry consistent. */
  lemma RegistryUnregister(crawlers: map<string, Crawler>, order: seq<string>, stats: map<string, CrawlerStats>,
                           seen: map<string, set<string>>, sid: string)
    requires Registry(crawlers, order, stats, seen)
    ensures Registry(crawlers - {sid}, Without(order, sid), stats - {sid}, seen - {sid})
  {
  }

  /** A registered source's seen-set can be replaced. */
  lemma RegistrySeen(crawlers: map<string, Crawler>, order: seq<string>, stats: map<string, CrawlerStats>,
                     seen: map<string, set<string>>, sid: string, s: set<string>)
    requires Registry(crawlers, order, stats, seen) && sid in seen
    ensures Registry(crawlers, order, stats, seen[sid := s])
  {
  }

  /** Every registered source can be crawled, in registration order. */
  lemma RegistryFoldable(crawlers: map<string, Crawler>, order: seq<string>, stats: map<string, CrawlerStats>,
                         seen: map<string, set<string>>, p: CrawlPass)
    requires Registry(crawlers, order, stats, seen) && p.stats == stats
    ensures CrawlFoldable(p, crawlers, order)
    ensures (set x | x in order) == crawlers.Keys
  {
    forall i | 0 <= i < |order| ensures order[i] in crawlers && order[i] in p.stats {
      assert order[i] in Elems(order);
    }
  }

  /** Appending one entry is appending and capping. */
  lemma AppendCappedOne(log: seq<ErrorLogEntry>, e: ErrorLogEntry, max: int)
    ensures AppendCapped(log, [e], max) == CapLog(log + [e], max)
  {
    assert [e][..0] == [];
  }

  class CrawlerManager {
    var crawlers: map<string, Crawler>
    /** The registration order of `crawlers` (the order `crawl_all` visits them). */
    var order: seq<string>
    var stats: map<string, CrawlerStats>
    var seenItems: map<string, set<string>>
    var errorLog: seq<ErrorLogEntry>
    /** The raw-item table; empty and unused without a database. */
    var rows: Store
    /** How many new-item callbacks are registered. */
    var newItemsCallbacks: nat
    const maxErrorLog: int
    const hasDb: bool

    ghost predicate Valid()
      reads this
    {
      && Registry(crawlers, order, stats, seenItems)
      && (maxErrorLog >= 1 ==> |errorLog| <= maxErrorLog)
      && (!hasDb ==> rows == map[])
    }

    /** A manager with no crawlers; `table` is the database's content when there is one. */
    constructor (maxErrorLog: int, hasDb: bool, table: Store)
      ensures Valid()
      ensures crawlers == map[] && order == [] && stats == map[] && seenItems == map[] && errorLog == []
      ensures this.maxErrorLog == maxErrorLog && this.hasDb == hasDb && newItemsCallbacks == 0
      ensures rows == (if hasDb then table else map[])
    {
      crawlers, order, stats, seenItems, errorLog := map[], [], map[], map[], [];
      rows := if hasDb then table else map[];
      newItemsCallbacks := 0;
      this.maxErrorLog := maxErrorLog;
      this.hasDb := hasDb;
    }

    /** The manager's state as a crawl pass with no results yet. */
    function Pass(): CrawlPass
      reads this
    {
      CrawlPass(stats, seenItems, errorLog, rows, map[], [])
    }

    /**
     * `register`: the crawler replaces any crawler of its source id, with
     * fresh counters and a seen-set read back from the table.
     */
    method Register(c: Crawler)
      requires Valid()
      modifies this
      ensures Valid()
      ensures crawlers == old(crawlers)[c.sourceId := c]
      ensures stats == old(stats)[c.sourceId := NewStats(c.sourceId)]
      ensures seenItems == old(seenItems)[c.sourceId := if hasDb then SeqsInStore(rows, c.sourceId) else {}]
      ensures order == if c.sourceId in old(crawlers) then old(order) else old(order) + [c.sourceId]
      ensures errorLog == old(errorLog) && rows == old(rows) && newItemsCallbacks == old(newItemsCallbacks)
    {
      var sid := c.sourceId;
      var loaded: set<string> := {};
      if hasDb {
        loaded := SeqsInStore(rows, sid);
      }
      RegistryRegister(crawlers, order, stats, seenItems, c, loaded);
      if sid !in crawlers {
        order := order + [sid];
      }
      crawlers := crawlers[sid := c];
      stats := stats[sid := NewStats(sid)];
      seenItems := seenItems[sid := loaded];
    }

    /** `unregister`: the source's crawler, counters and seen-set are dropped. */
    method Unregister(sid: string)
      requires Valid()
      modifies this
      ensures Valid()
      ensures crawlers == old(crawlers) - {sid} && stats == old(stats) - {sid} && seenItems == old(seenItems) - {sid}
      ensures order == Without(old(order), sid)
      ensures errorLog == old(errorLog) && rows == old(rows) && newItemsCallbacks == old(newItemsCallbacks)
    {
      RegistryUnregister(crawlers, order, stats, seenItems, sid);
      crawlers, order := crawlers - {sid}, Without(order, sid);
      stats, seenItems := stats - {sid}, seenItems - {sid};
    }

    /** `on_new_items` */
    method OnNewItems()
      requires Valid()
      modifies this
      ensures Valid()
      ensures newItemsCallbacks == old(newItemsCallbacks) + 1
      ensures crawlers == old(crawlers) && order == old(order) && stats == old(stats) && seenItems == old(seenItems)
      ensures errorLog == old(errorLog) && rows == old(rows)
    {
      newItemsCallbacks := newItemsCallbacks + 1;
    }

    /** `log_error` (the database copy of the entry is not modelled). */
    method LogError(sid: string, operation: string, url: string, message: string, now: string)
      requires Valid()
      modifies this
      ensures Valid()
      ensures errorLog == AppendCapped(old(errorLog), [Logged(now, sid, operation, url, message)], maxErrorLog)
      ensures crawlers == old(crawlers) && order == old(order) && stats == old(stats) && seenItems == old(seenItems)
      ensures rows == old(rows) && newItemsCallbacks == old(newItemsCallbacks)
    {
      AppendCappedOne(errorLog, Logged(now, sid, operation, url, message), maxErrorLog);
      if maxErrorLog >= 1 {
        AppendCappedBound(errorLog, [Logged(now, sid, operation, url, message)], maxErrorLog);
      }
      errorLog := errorLog + [Logged(now, sid, operation, url, message)];
      if |errorLog| > maxErrorLog {
        errorLog := TakeLast(errorLog, maxErrorLog);
      }
    }

    /** `_detect_new_items` */
    method DetectNewItems(sid: string, items: seq<NewsItem>) returns (newOnes: seq<NewsItem>)
      requires Valid() && sid in crawlers
      modifies this
      ensures Valid()
      ensures newOnes == FreshItems(old(seenItems)[sid], items)
      ensures seenItems == old(seenItems)[sid := old(seenItems)[sid] + SeqSet(items)]
      ensures crawlers == old(crawlers) && order == old(order) && stats == old(stats)
      ensures errorLog == old(errorLog) && rows == old(rows) && newItemsCallbacks == old(newItemsCallbacks)
    {
      var seen;
      newOnes, seen := ScanFresh(seenItems[sid], items);
      RegistrySeen(crawlers, order, stats, seenItems, sid, seen);
      seenItems := seenItems[sid := seen];
    }

    /** `_save_items`: the items are upserted, or the failure is logged. */
    method SaveItemsOf(sid: string, sourceName: string, items: seq<NewsItem>, failure: Option<string>,
                       dumps: JsonDumps, now: string)
      requires Valid() && hasDb
      modifies this
      ensures Valid()
      ensures rows == if failure.None? then SaveItems(old(rows), sid, sourceName, items, dumps, now) else old(rows)
      ensures errorLog == if failure.Some? then AppendCapped(old(errorLog), [Logged(now, sid, "save_items", "", failure.value)], maxErrorLog)
                          else old(errorLog)
      ensures crawlers == old(crawlers) && order == old(order) && stats == old(stats) && seenItems == old(seenItems)
      ensures newItemsCallbacks == old(newItemsCallbacks)
    {
      match failure {
        case None =>
          rows := SaveItems(rows, sid, sourceName, items, dumps, now);
        case Some(msg) =>
          LogError(sid, "save_items", "", msg, now);
      }
    }

    /** The `except` branch of `crawl_all`'s loop: the fetch raised. */
    method CrawlRaised(sid: string, message: string, now: string) returns (result: CrawlResult)
      requires Valid() && sid in crawlers
      modifies this
      ensures Valid()
      ensures stats == old(stats)[sid := RaisedStats(old(stats)[sid], message)]
      ensures errorLog == AppendCapped(old(errorLog), [Logged(now, sid, "crawl", "", message)], maxErrorLog)
      ensures result == MakeCrawlResult(sid, crawlers[sid].sourceName, [], UnknownError, message, "", "", 0, 0, now)
      ensures seenItems == old(seenItems) && rows == old(rows)
      ensures crawlers == old(crawlers) && order == old(order) && newItemsCallbacks == old(newItemsCallbacks)
    {
      LogError(sid, "crawl", "", message, now);
      result := MakeCrawlResult(sid, crawlers[sid].sourceName, [], UnknownError, message, "", "", 0, 0, now);
      stats := stats[sid := RaisedStats(stats[sid], message)];
    }

    /** The branch of `crawl_all`'s loop for a fetch that returned a failed result. */
    method CrawlFailed(sid: string, res: CrawlResult, now: string)
      requires Valid() && sid in crawlers
      modifies this
      ensures Valid()
      ensures stats == old(stats)[sid := FailedStats(FetchedStats(old(stats)[sid], now), res.errorMessage)]
      ensures errorLog == AppendCapped(old(errorLog), [Logged(now, sid, "fetch_list", "", res.errorMessage)], maxErrorLog)
      ensures seenItems == old(seenItems) && rows == old(rows)
      ensures crawlers == old(crawlers) && order == old(order) && newItemsCallbacks == old(newItemsCallbacks)
    {
      stats := stats[sid := FailedStats(FetchedStats(stats[sid], now), res.errorMessage)];
      LogError(sid, "fetch_list", "", res.errorMessage, now);
    }

    /** The branch of `crawl_all`'s loop for a successful fetch; `failure` is how saving it fails, if it does. */
    method CrawlSucceeded(sid: string, res: CrawlResult, failure: Option<string>, dumps: JsonDumps, now: string)
      returns (result: CrawlResult, fired: seq<NewItemsEvent>)
      requires Valid() && sid in crawlers
      modifies this
      ensures Valid()
      ensures stats == old(stats)[sid := SucceededStats(FetchedStats(old(stats)[sid], now), now, |res.items|,
                                                        |FreshItems(old(seenItems)[sid], res.items)|)]
      ensures seenItems == old(seenItems)[sid := old(seenItems)[sid] + SeqSet(res.items)]
      ensures errorLog == if hasDb && failure.Some?
                          then AppendCapped(old(errorLog), [Logged(now, sid, "save_items", "", failure.value)], maxErrorLog)
                          else old(errorLog)
      ensures rows == if hasDb && failure.None?
                      then SaveItems(old(rows), sid, crawlers[sid].sourceName, res.items, dumps, now)
                      else old(rows)
      ensures result == res.(newCount := |FreshItems(old(seenItems)[sid], res.items)|)
      ensures var newOnes := FreshItems(old(seenItems)[sid], res.items);
              fired == if newOnes != [] && newItemsCallbacks > 0 then [NewItemsEvent(sid, newOnes)] else []
      ensures crawlers == old(crawlers) && order == old(order) && newItemsCallbacks == old(newItemsCallbacks)
    {
      var newOnes := DetectNewItems(sid, res.items);
      stats := stats[sid := SucceededStats(FetchedStats(stats[sid], now), now, |res.items|, |newOnes|)];
      result := res.(newCount := |newOnes|);
      if hasDb {
        SaveItemsOf(sid, crawlers[sid].sourceName, res.items, failure, dumps, now);
      }
      fired := [];
      if newOnes != [] && newItemsCallbacks > 0 {
        fired := [NewItemsEvent(sid, newOnes)];
      }
    }

    /**
     * One iteration of `crawl_all`'s loop, for a registered source: the
     * manager's state, the results so far and the callback events so far
     * move on by one step of the pass.
     */
    method CrawlOne(sid: string, env: CrawlEnv, results0: map<string, CrawlResult>, events0: seq<NewItemsEvent>)
      returns (results: map<string, CrawlResult>, events: seq<NewItemsEvent>)
      requires Valid() && sid in crawlers
      requires env.crawlers == crawlers && env.hasDb == hasDb && env.maxErrorLog == maxErrorLog
      requires env.callbacks == (newItemsCallbacks > 0)
      modifies this
      ensures Valid()
      ensures CrawlPass(stats, seenItems, errorLog, rows, results, events)
              == CrawlStep(CrawlPass(old(stats), old(seenItems), old(errorLog), old(rows), results0, events0), env, sid)
      ensures crawlers == old(crawlers) && order == old(order) && newItemsCallbacks == old(newItemsCallbacks)
    {
      ghost var p := CrawlPass(stats, seenItems, errorLog, rows, results0, events0);
      match env.fetch(sid) {
        case Raised(msg) =>
          CrawlStepRaised(p, env, sid, msg);
          var result := CrawlRaised(sid, msg, env.now);
          results, events := results0[sid := result], events0;
        case Returned(res) =>
          if res.status == Success {
            CrawlStepSucceeded(p, env, sid, res);
            var result, fired := CrawlSucceeded(sid, res, env.saveFail(sid), env.dumps, env.now);
            results, events := results0[sid := result], events0 + fired;
          } else {
            CrawlStepFailed(p, env, sid, res);
            CrawlFailed(sid, res, env.now);
            results, events := results0[sid := res], events0 + [];
          }
      }
    }

    /** What a `crawl_all` from the current state yields: the pass over every source in registration order. */
    ghost function Crawled(fetch: string -> ListOutcome, saveFail: string -> Option<string>, dumps: JsonDumps,
                           now: string): (c: CrawlPass)
      reads this
      requires Valid()
      ensures c.results.Keys == crawlers.Keys
    {
      RegistryFoldable(crawlers, order, stats, seenItems, Pass());
      CrawlFold(Pass(), CrawlEnv(crawlers, fetch, saveFail, dumps, now, hasDb, maxErrorLog, newItemsCallbacks > 0), order)
    }

    /**
     * `crawl_all`: every registered source is crawled once, in registration
     * order, and gets a result; the new state is the pass over all of them.
     */
    method CrawlAll(fetch: string -> ListOutcome, saveFail: string -> Option<string>, dumps: JsonDumps, now: string)
      returns (results: map<string, CrawlResult>, events: seq<NewItemsEvent>)
      requires Valid()
      modifies this
      ensures Valid()
      ensures CrawlPass(stats, seenItems, errorLog, rows, results, events) == old(Crawled(fetch, saveFail, dumps, now))
      ensures results.Keys == crawlers.Keys
      ensures crawlers == old(crawlers) && order == old(order) && newItemsCallbacks == old(newItemsCallbacks)
    {
      var env := CrawlEnv(crawlers, fetch, saveFail, dumps, now, hasDb, maxErrorLog, newItemsCallbacks > 0);
      ghost var p0 := Pass();
      RegistryFoldable(crawlers, order, stats, seenItems, p0);
      results, events := CrawlEach(env, p0);
    }

    /** The loop of `crawl_all`: one crawl per source, in registration order. */
    method CrawlEach(env: CrawlEnv, ghost p0: CrawlPass) returns (results: map<string, CrawlResult>, events: seq<NewItemsEvent>)
      requires Valid() && p0 == Pass() && CrawlFoldable(p0, crawlers, order)
      requires env.crawlers == crawlers && env.hasDb == hasDb && env.maxErrorLog == maxErrorLog
      requires env.callbacks == (newItemsCallbacks > 0)
      modifies this
      ensures Valid()
      ensures crawlers == old(crawlers) && order == old(order) && newItemsCallbacks == old(newItemsCallbacks)
      ensures CrawlPass(stats, seenItems, errorLog, rows, results, events) == CrawlFold(p0, env, order)
    {
      results, events := map[], [];
      var i := 0;
      while i < |order|
        invariant 0 <= i <= |order|
        invariant crawlers == old(crawlers) && order == old(order) && newItemsCallbacks == old(newItemsCallbacks)
        invariant CrawlPass(stats, seenItems, errorLog, rows, results, events) == CrawlFold(p0, env, order[..i])
        invariant Valid()
      {
        results, events := CrawlNext(env, p0, i, results, events);
        i := i + 1;
      }
      assert order[..i] == order;
    }

    /** One iteration of the loop of `crawl_all`: the `i`-th source is crawled. */
    method CrawlNext(env: CrawlEnv, ghost p0: CrawlPass, i: int, results0: map<string, CrawlResult>, events0: seq<NewItemsEvent>)
      returns (results: map<string, CrawlResult>, events: seq<NewItemsEvent>)
      requires Valid() && CrawlFoldable(p0, crawlers, order) && 0 <= i < |order|
      requires env.crawlers == crawlers && env.hasDb == hasDb && env.maxErrorLog == maxErrorLog
      requires env.callbacks == (newItemsCallbacks > 0)
      requires CrawlPass(stats, seenItems, errorLog, rows, results0, events0) == CrawlFold(p0, env, order[..i])
      modifies this
      ensures Valid()
      ensures crawlers == old(crawlers) && order == old(order) && newItemsCallbacks == old(newItemsCallbacks)
      ensures CrawlPass(stats, seenItems, errorLog, rows, results, events) == CrawlFold(p0, env, order[..i + 1])
    {
      CrawlFoldNext(p0, env, order, i);
      results, events := CrawlOne(order[i], env, results0, events0);
    }

    /** `crawl_single`: None for an unknown source; otherwise every source is crawled and this one's result returned. */
    method CrawlSingle(sid: string, fetch: string -> ListOutcome, saveFail: string -> Option<string>,
                       dumps: JsonDumps, now: string)
      returns (r: Option<CrawlResult>)
      requires Valid()
      modifies this
      ensures Valid()
      ensures old(sid !in crawlers) ==> r == None && unchanged(this)
      ensures old(sid in crawlers) ==>
                && var q := old(Crawled(fetch, saveFail, dumps, now));
                   && sid in q.results && r == Some(q.results[sid])
                   && stats == q.stats && seenItems == q.seen && errorLog == q.errorLog && rows == q.rows
    {
      if sid !in crawlers {
        return None;
      }
      var results, events := CrawlAll(fetch, saveFail, dumps, now);
      r := Some(results[sid]);
    }

    /** One item of the loop of `fetch_full_content`. */
    method FetchItemContent(sid: string, items: array<NewsItem>, i: int, fetch: NewsItem -> ContentOutcome, now: string)
      requires Valid() && 0 <= i < items.Length
      modifies this, items
      ensures Valid()
      ensures items[i] == ContentStep(old(items[i]), fetch(old(items[i])), now)
      ensures forall j :: 0 <= j < items.Length && j != i ==> items[j] == old(items[j])
      ensures rows == ContentRowStep(old(rows), sid, old(items[i]), fetch(old(items[i])), now, hasDb)
      ensures errorLog == AppendCapped(old(errorLog), ContentItemErrors(sid, old(items[i]), fetch(old(items[i])), now), maxErrorLog)
      ensures crawlers == old(crawlers) && order == old(order) && stats == old(stats) && seenItems == old(seenItems)
      ensures newItemsCallbacks == old(newItemsCallbacks)
    {
      var it := items[i];
      if it.contentFetched {
        return;
      }
      match fetch(it) {
        case Fetched(content, status) =>
          items[i] := WithContent(it, content, status, now);
          if hasDb {
            rows := UpdateContent(rows, sid, items[i]);
          }
        case FetchRaised(msg) =>
          items[i] := WithFetchError(it, msg);
          LogError(sid, "fetch_content", it.url, msg, now);
      }
    }

    /**
     * `fetch_full_content`, run to completion: nothing happens for an
     * unknown source or one without full-content support; otherwise each
     * item not yet fetched is updated in place, its row rewritten, and each
     * exception logged.
     */
    method FetchFullContent(sid: string, items: array<NewsItem>, fetch: NewsItem -> ContentOutcome, now: string)
      requires Valid()
      modifies this, items
      ensures Valid()
      ensures crawlers == old(crawlers) && order == old(order) && stats == old(stats) && seenItems == old(seenItems)
      ensures newItemsCallbacks == old(newItemsCallbacks)
      ensures sid !in crawlers || !crawlers[sid].supportsFullContent ==>
                items[..] == old(items[..]) && rows == old(rows) && errorLog == old(errorLog)
      ensures sid in crawlers && crawlers[sid].supportsFullContent ==>
                && (forall i :: 0 <= i < items.Length ==> items[i] == ContentStep(old(items[i]), fetch(old(items[i])), now))
                && rows == ContentRows(old(rows), sid, old(items[..]), fetch, now, hasDb)
                && errorLog == AppendCapped(old(errorLog), ContentErrors(sid, old(items[..]), fetch, now), maxErrorLog)
    {
      if sid !in crawlers || !crawlers[sid].supportsFullContent {
        return;
      }
      FetchEach(sid, items, fetch, now);
    }

    /** The loop of `fetch_full_content`: every item in turn. */
    method FetchEach(sid: string, items: array<NewsItem>, fetch: NewsItem -> ContentOutcome, now: string)
      requires Valid()
      modifies this, items
      ensures Valid()
      ensures crawlers == old(crawlers) && order == old(order) && stats == old(stats) && seenItems == old(seenItems)
      ensures newItemsCallbacks == old(newItemsCallbacks)
      ensures forall i :: 0 <= i < items.Length ==> items[i] == ContentStep(old(items[i]), fetch(old(items[i])), now)
      ensures rows == ContentRows(old(rows), sid, old(items[..]), fetch, now, hasDb)
      ensures errorLog == AppendCapped(old(errorLog), ContentErrors(sid, old(items[..]), fetch, now), maxErrorLog)
    {
      ghost var before := items[..];
      var i := 0;
      while i < items.Length
        invariant 0 <= i <= items.Length
        invariant Valid()
        invariant crawlers == old(crawlers) && order == old(order) && stats == old(stats) && seenItems == old(seenItems)
        invariant newItemsCallbacks == old(newItemsCallbacks)
        invariant forall j :: 0 <= j < i ==> items[j] == ContentStep(before[j], fetch(before[j]), now)
        invariant forall j :: i <= j < items.Length ==> items[j] == before[j]
        invariant rows == ContentRows(old(rows), sid, before[..i], fetch, now, hasDb)
        invariant errorLog == AppendCapped(old(errorLog), ContentErrors(sid, before[..i], fetch, now), maxErrorLog)
      {
        FetchNext(sid, items, i, fetch, now, before, old(rows), old(errorLog));
        i := i + 1;
      }
      assert before[..i] == before;
    }

    /** One iteration of the loop of `fetch_full_content`: the `i`-th item is handled. */
    method FetchNext(sid: string, items: array<NewsItem>, i: int, fetch: NewsItem -> ContentOutcome, now: string,
                     ghost before: seq<NewsItem>, ghost rows0: Store, ghost log0: seq<ErrorLogEntry>)
      requires Valid() && 0 <= i < items.Length == |before| && items[i] == before[i]
      requires rows == ContentRows(rows0, sid, before[..i], fetch, now, hasDb)
      requires errorLog == AppendCapped(log0, ContentErrors(sid, before[..i], fetch, now), maxErrorLog)
      modifies this, items
      ensures Valid()
      ensures crawlers == old(crawlers) && order == old(order) && stats == old(stats) && seenItems == old(seenItems)
      ensures newItemsCallbacks == old(newItemsCallbacks)
      ensures items[i] == ContentStep(before[i], fetch(before[i]), now)
      ensures forall j :: 0 <= j < items.Length && j != i ==> items[j] == old(items[j])
      ensures rows == ContentRows(rows0, sid, before[..i + 1], fetch, now, hasDb)
      ensures errorLog == AppendCapped(log0, ContentErrors(sid, before[..i + 1], fetch, now), maxErrorLog)
    {
      ContentPrefixStep(rows0, sid, before, i, fetch, now, hasDb);
      AppendCappedConcat(log0, ContentErrors(sid, before[..i], fetch, now),
                         ContentItemErrors(sid, before[i], fetch(before[i]), now), maxErrorLog);
      FetchItemContent(sid, items, i, fetch, now);
    }

    /**
     * `cleanup_old_data` on the raw table: rows first seen before `cutoff`
     * (midnight `maxDays` days ago) go when `maxDays > 0`; then, when
     * `maxItems > 0` and more rows remain, the oldest by first-seen go until
     * `maxItems` are left. Returns the number of rows deleted.
     */
    method CleanupOldData(maxItems: int, maxDays: int, cutoff: string) returns (deleted: int)
      requires Valid()
      modifies this
      ensures Valid()
      ensures crawlers == old(crawlers) && order == old(order) && stats == old(stats) && seenItems == old(seenItems)
      ensures errorLog == old(errorLog) && newItemsCallbacks == old(newItemsCallbacks)
      ensures !hasDb ==> deleted == 0 && rows == old(rows)
      ensures hasDb ==>
                var kept := if maxDays > 0 then DropBefore(old(rows), cutoff) else old(rows);
                && (forall k :: k in rows ==> k in kept && rows[k] == kept[k])
                && |rows.Keys| == (if maxItems > 0 && |kept.Keys| > maxItems then maxItems else |kept.Keys|)
                && (forall k, k' :: k in kept && k !in rows && k' in rows ==> LexLe(kept[k].firstSeen, rows[k'].firstSeen))
                && deleted == |old(rows).Keys| - |rows.Keys|
    {
      if !hasDb {
        return 0;
      }
      deleted := 0;
      if maxDays > 0 {
        var before := |rows.Keys|;
        var after := DropBefore(rows, cutoff);
        assert after.Keys <= rows.Keys;
        SubsetCard(after.Keys, rows.Keys);
        rows := after;
        deleted := before - |rows.Keys|;
      }
      if maxItems > 0 && |rows.Keys| > maxItems {
        var excess := |rows.Keys| - maxItems;
        rows := KeepNewest(rows, maxItems);
        deleted := deleted + excess;
      }
    }

    /** `get_stats`: one source's counters (None when unknown), or a copy of all of them for an empty id. */
    function GetStats(sid: string): (r: map<string, Option<CrawlerStats>>)
      reads this
      ensures sid != "" ==> r.Keys == {sid} && r[sid] == (if sid in stats then Some(stats[sid]) else None)
      ensures sid == "" ==> r.Keys == stats.Keys && forall k :: k in r ==> r[k] == Some(stats[k])
    {
      if sid != "" then map[sid := if sid in stats then Some(stats[sid]) else None]
      else map k | k in stats :: Some(stats[k])
    }

    /**
     * `get_errors` from memory: the last `limit` matching entries, with the
     * limit-0 case corrected to return none.
     */
    function GetErrors(sid: string, unresolvedOnly: bool, limit: int): (r: seq<ErrorLogEntry>)
      reads this
      ensures forall e :: e in r ==> e in errorLog && (sid == "" || e.sourceId == sid) && (!unresolvedOnly || !e.resolved)
      ensures limit > 0 ==> |r| <= limit
      ensures limit <= 0 ==> r == []
    {
      RecentErrors(errorLog, sid, unresolvedOnly, limit)
    }

    /** `cleanup`: every crawler, counter set and seen-set is dropped. */
    method Cleanup()
      requires Valid()
      modifies this
      ensures Valid()
      ensures crawlers == map[] && order == [] && stats == map[] && seenItems == map[]
      ensures errorLog == old(errorLog) && rows == old(rows) && newItemsCallbacks == old(newItemsCallbacks)
    {
      crawlers, order, stats, seenItems := map[], [], map[], map[];
    }
  }

  /** A smaller set has no more elements. */
  lemma SubsetCard<T>(a: set<T>, b: set<T>)
    requires a <= b
    ensures |a| <= |b|
  {
    assert b == a + (b - a);
  }
}
