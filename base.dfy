/**
 * The crawler data structures: the fetch status enumeration, the news item
 * every crawler returns (with its dictionary form), the result of one list
 * fetch, and the error-log entry.
 */
module CrawlerBase {
  import opened Common

  datatype FetchStatus = Success | NetworkError | ParseError | Timeout | EmptyResult | UnknownError
  {
    /** The enumeration's `.value` text. */
    function Value(): (v: string)
      ensures v != ""
    {
      match this
      case Success => "success"
      case NetworkError => "network_error"
      case ParseError => "parse_error"
      case Timeout => "timeout"
      case EmptyResult => "empty_result"
      case UnknownError => "unknown_error"
    }
  }

  /** `FetchStatus(value)`: the member whose value is `v`, if any. */
  function StatusFromValue(v: string): (r: Option<FetchStatus>)
  {
    if v == "success" then Some(Success)
    else if v == "network_error" then Some(NetworkError)
    else if v == "parse_error" then Some(ParseError)
    else if v == "timeout" then Some(Timeout)
    else if v == "empty_result" then Some(EmptyResult)
    else if v == "unknown_error" then Some(UnknownError)
    else None
  }

  /** Each status is recovered from its value, so the six values are distinct. */
  lemma StatusValueRoundTrip(s: FetchStatus)
    ensures StatusFromValue(s.Value()) == Some(s)
  {
  }

  /** One news entry; `seqNo` is the source's `seq`, the key for incremental detection. */
  datatype NewsItem = NewsItem(
    seqNo: string,
    title: string,
    summary: string,
    fullContent: string,
    url: string,
    publishedAt: string,
    source: string,
    author: string,
    extra: map<string, Json>,
    contentFetched: bool,
    contentFetchError: string,
    contentFetchTime: string,
    matchedKeywords: seq<string>,
    filteredOut: bool,
    filterReason: string,
    aiAnalysis: string,
    aiAnalysisTime: string)

  /** A news item built from its two required fields; every other field takes its default. */
  function NewNewsItem(seqNo: string, title: string): (r: NewsItem)
    ensures r.seqNo == seqNo && r.title == title
    ensures !r.contentFetched && !r.filteredOut && r.matchedKeywords == [] && r.extra == map[]
  {
    NewsItem(seqNo, title, "", "", "", "", "", "", map[], false, "", "", [], false, "", "", "")
  }

  function StrList(xs: seq<string>): (r: seq<Json>)
    ensures |r| == |xs|
    ensures forall i :: 0 <= i < |xs| ==> r[i] == JStr(xs[i])
  {
    if xs == [] then [] else [JStr(xs[0])] + StrList(xs[1..])
  }

  /** The strings of a JSON array whose elements are all strings. */
  function AsStrList(js: seq<Json>): (r: Option<seq<string>>)
    ensures r.Some? ==> |r.value| == |js|
  {
    if js == [] then Some([])
    else if !js[0].JStr? then None
    else match AsStrList(js[1..])
      case None => None
      case Some(rest) => Some([js[0].s] + rest)
  }

  lemma {:induction false} AsStrListOfStrList(xs: seq<string>)
    ensures AsStrList(StrList(xs)) == Some(xs)
  {
    if xs != [] {
      AsStrListOfStrList(xs[1..]);
      var js := StrList(xs);
      assert js[0] == JStr(xs[0]);
      assert js[1..] == StrList(xs[1..]);
      assert xs == [xs[0]] + xs[1..];
    }
  }

  /** `CrawlerNewsItem.to_dict` */
  function ItemToDict(it: NewsItem): (d: map<string, Json>)
    ensures d.Keys == ItemKeys()
  {
    map[
      "seq" := JStr(it.seqNo),
      "title" := JStr(it.title),
      "summary" := JStr(it.summary),
      "full_content" := JStr(it.fullContent),
      "url" := JStr(it.url),
      "published_at" := JStr(it.publishedAt),
      "source" := JStr(it.source),
      "author" := JStr(it.author),
      "extra" := JObj(it.extra),
      "content_fetched" := JBool(it.contentFetched),
      "content_fetch_error" := JStr(it.contentFetchError),
      "content_fetch_time" := JStr(it.contentFetchTime),
      "matched_keywords" := JList(StrList(it.matchedKeywords)),
      "filtered_out" := JBool(it.filteredOut),
      "filter_reason" := JStr(it.filterReason),
      "ai_analysis" := JStr(it.aiAnalysis),
      "ai_analysis_time" := JStr(it.aiAnalysisTime)
    ]
  }

  /** The seventeen field names of the dictionary form. */
  function ItemKeys(): set<string> {
    {"seq", "title", "summary", "full_content", "url", "published_at", "source", "author", "extra",
     "content_fetched", "content_fetch_error", "content_fetch_time", "matched_keywords", "filtered_out",
     "filter_reason", "ai_analysis", "ai_analysis_time"}
  }

  /** `d.get(k, default)` read as a string; None when the value present is not a string. */
  function GetStr(d: map<string, Json>, k: string, default: string): Option<string> {
    if k !in d then Some(default) else if d[k].JStr? then Some(d[k].s) else None
  }

  function GetBool(d: map<string, Json>, k: string): Option<bool> {
    if k !in d then Some(false) else if d[k].JBool? then Some(d[k].b) else None
  }

  function GetObj(d: map<string, Json>, k: string): Option<map<string, Json>> {
    if k !in d then Some(map[]) else if d[k].JObj? then Some(d[k].fields) else None
  }

  function GetStrList(d: map<string, Json>, k: string): Option<seq<string>> {
    if k !in d then Some([]) else if d[k].JList? then AsStrList(d[k].elems) else None
  }

  /**
   * `CrawlerNewsItem.from_dict`: every missing key takes the field's default.
   * None when a present value does not have the field's type.
   */
  function ItemFromDict(d: map<string, Json>): (r: Option<NewsItem>)
  {
    var sq := GetStr(d, "seq", "");
    var ti := GetStr(d, "title", "");
    var su := GetStr(d, "summary", "");
    var fc := GetStr(d, "full_content", "");
    var ur := GetStr(d, "url", "");
    var pa := GetStr(d, "published_at", "");
    var so := GetStr(d, "source", "");
    var au := GetStr(d, "author", "");
    var ex := GetObj(d, "extra");
    var cf := GetBool(d, "content_fetched");
    var ce := GetStr(d, "content_fetch_error", "");
    var ct := GetStr(d, "content_fetch_time", "");
    var mk := GetStrList(d, "matched_keywords");
    var fo := GetBool(d, "filtered_out");
    var fr := GetStr(d, "filter_reason", "");
    var ai := GetStr(d, "ai_analysis", "");
    var at := GetStr(d, "ai_analysis_time", "");
    if sq.Some? && ti.Some? && su.Some? && fc.Some? && ur.Some? && pa.Some? && so.Some? && au.Some?
       && ex.Some? && cf.Some? && ce.Some? && ct.Some? && mk.Some? && fo.Some? && fr.Some? && ai.Some? && at.Some?
    then Some(NewsItem(sq.value, ti.value, su.value, fc.value, ur.value, pa.value, so.value, au.value, ex.value,
                       cf.value, ce.value, ct.value, mk.value, fo.value, fr.value, ai.value, at.value))
    else None
  }

  lemma ItemDictFields1(it: NewsItem, d: map<string, Json>)
    requires d == ItemToDict(it)
    ensures GetStr(d, "seq", "") == Some(it.seqNo)
    ensures GetStr(d, "title", "") == Some(it.title)
    ensures GetStr(d, "summary", "") == Some(it.summary)
    ensures GetStr(d, "full_content", "") == Some(it.fullContent)
  {
  }

  lemma ItemDictFields2(it: NewsItem, d: map<string, Json>)
    requires d == ItemToDict(it)
    ensures GetStr(d, "url", "") == Some(it.url)
    ensures GetStr(d, "published_at", "") == Some(it.publishedAt)
    ensures GetStr(d, "source", "") == Some(it.source)
    ensures GetStr(d, "author", "") == Some(it.author)
  {
  }

  lemma ItemDictFields3(it: NewsItem, d: map<string, Json>)
    requires d == ItemToDict(it)
    ensures GetObj(d, "extra") == Some(it.extra)
    ensures GetBool(d, "content_fetched") == Some(it.contentFetched)
    ensures GetStr(d, "content_fetch_error", "") == Some(it.contentFetchError)
    ensures GetStr(d, "content_fetch_time", "") == Some(it.contentFetchTime)
  {
  }

  lemma ItemDictFields4(it: NewsItem, d: map<string, Json>)
    requires d == ItemToDict(it)
    ensures GetStrList(d, "matched_keywords") == Some(it.matchedKeywords)
    ensures GetBool(d, "filtered_out") == Some(it.filteredOut)
    ensures GetStr(d, "filter_reason", "") == Some(it.filterReason)
    ensures GetStr(d, "ai_analysis", "") == Some(it.aiAnalysis)
    ensures GetStr(d, "ai_analysis_time", "") == Some(it.aiAnalysisTime)
  {
    AsStrListOfStrList(it.matchedKeywords);
  }

  /** Round trip: reading back the dictionary form of an item gives the same item. */
  lemma ItemDictRoundTrip(it: NewsItem)
    ensures ItemFromDict(ItemToDict(it)) == Some(it)
  {
    var d := ItemToDict(it);
    ItemDictFields1(it, d);
    ItemDictFields2(it, d);
    ItemDictFields3(it, d);
    ItemDictFields4(it, d);
  }

  /** An empty dictionary reads as the item with every default, including an empty `seq` and title. */
  lemma ItemFromEmptyDict()
    ensures ItemFromDict(map[]) == Some(NewNewsItem("", ""))
  {
  }

  /** The item after its content was fetched with some status. */
  function WithContent(it: NewsItem, content: string, status: FetchStatus, now: string): (r: NewsItem)
    ensures r.contentFetched <==> status == Success
  {
    var fetched := it.(fullContent := content, contentFetched := status == Success, contentFetchTime := now);
    if status != Success then fetched.(contentFetchError := status.Value()) else fetched
  }

  /** The result of one list fetch from a source. */
  datatype CrawlResult = CrawlResult(
    sourceId: string,
    sourceName: string,
    items: seq<NewsItem>,
    status: FetchStatus,
    errorMessage: string,
    fetchTime: string,
    dataTime: string,
    totalCount: int,
    newCount: int)

  /**
   * Building a CrawlResult runs its post-initialisation: an empty fetch time
   * becomes the current time `now`, a zero total becomes the item count.
   */
  function MakeCrawlResult(sourceId: string, sourceName: string, items: seq<NewsItem>, status: FetchStatus,
                           errorMessage: string, fetchTime: string, dataTime: string, totalCount: int,
                           newCount: int, now: string): (r: CrawlResult)
    ensures r.items == items && r.status == status && r.errorMessage == errorMessage && r.newCount == newCount
    ensures fetchTime != "" ==> r.fetchTime == fetchTime
    ensures now != "" ==> r.fetchTime != ""
    ensures totalCount != 0 ==> r.totalCount == totalCount
    ensures totalCount == 0 ==> r.totalCount == |items|
  {
    CrawlResult(sourceId, sourceName, items, status, errorMessage,
                if fetchTime == "" then now else fetchTime, dataTime,
                if totalCount == 0 then |items| else totalCount, newCount)
  }

  /** Post-initialisation is idempotent: re-running it, at any later time, changes nothing. */
  lemma PostInitIdempotent(r: CrawlResult, now: string, later: string)
    requires now != ""
    ensures var once := MakeCrawlResult(r.sourceId, r.sourceName, r.items, r.status, r.errorMessage, r.fetchTime, r.dataTime, r.totalCount, r.newCount, now);
            MakeCrawlResult(once.sourceId, once.sourceName, once.items, once.status, once.errorMessage, once.fetchTime, once.dataTime, once.totalCount, once.newCount, later) == once
  {
  }

  /** One entry of the crawler error log. */
  datatype ErrorLogEntry = ErrorLogEntry(
    timestamp: string,
    sourceId: string,
    operation: string,
    url: string,
    errorType: string,
    errorMessage: string,
    stackTrace: string,
    resolved: bool,
    resolveNote: string)

  /** A fresh entry: not resolved, with an empty resolve note. */
  function NewErrorLogEntry(timestamp: string, sourceId: string, operation: string, url: string,
                            errorType: string, errorMessage: string, stackTrace: string): (e: ErrorLogEntry)
    ensures !e.resolved && e.resolveNote == ""
    ensures e.sourceId == sourceId && e.operation == operation && e.errorMessage == errorMessage
  {
    ErrorLogEntry(timestamp, sourceId, operation, url, errorType, errorMessage, stackTrace, false, "")
  }

  /** `ErrorLogEntry.to_dict` */
  function ErrorToDict(e: ErrorLogEntry): (d: map<string, Json>)
    ensures d.Keys == {"timestamp", "source_id", "operation", "url", "error_type", "error_message",
                       "stack_trace", "resolved", "resolve_note"}
    ensures d["resolved"] == JBool(e.resolved) && d["error_message"] == JStr(e.errorMessage)
  {
    map[
      "timestamp" := JStr(e.timestamp),
      "source_id" := JStr(e.sourceId),
      "operation" := JStr(e.operation),
      "url" := JStr(e.url),
      "error_type" := JStr(e.errorType),
      "error_message" := JStr(e.errorMessage),
      "stack_trace" := JStr(e.stackTrace),
      "resolved" := JBool(e.resolved),
      "resolve_note" := JStr(e.resolveNote)
    ]
  }

  /** What a registered crawler contributes beyond its fetch behaviour. */
  datatype Crawler = Crawler(sourceId: string, sourceName: string, supportsFullContent: bool)

  /** A crawler built on the base class: it supports full-content fetching. */
  function BaseCrawler(sourceId: string, sourceName: string): (c: Crawler)
    ensures c.supportsFullContent && c.sourceId == sourceId
  {
    Crawler(sourceId, sourceName, true)
  }
}
