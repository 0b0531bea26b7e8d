/**
 * The 10jqka 7x24 JSONP crawler (`THSCrawler`): repairing the JSONP text
 * into JSON, turning the decoded entries into news items, mapping the list
 * fetch onto a `CrawlResult`, and fetching an article's full text (the
 * host fallback, paragraph cleaning and the batch loop).
 *
 * The HTTP transport, `json.loads` and the HTML container lookup are
 * parameters: a page is given as the paragraph texts of its content
 * container (each already `get_text(strip=True)`) and the container's whole
 * text.
 */
module ThsCrawler {
  import opened Common
  import opened CrawlerBase

  const SourceId := "ths-realtime"
  const SourceName := "同花顺7x24"

  // ---------------------------------------------------------------- JSONP

  /**
   * The JSON text inside the JSONP body: from the first `{` to the `}` of
   * the last `};`, else to the last `}`, else to the end. None when the
   * stripped body has no `{`.
   */
  function JsonSlice(raw: string): (r: Option<string>)
    ensures var s := Strip(raw);
            && (r.None? <==> Find(s, "{") < 0)
            && (r.Some? ==> var start := Find(s, "{");
                            r.value == Slice(s, start, |s|) || r.value == Slice(s, start, RFind(s, "}") + 1)
                            || r.value == Slice(s, start, RFind(s, "};") + 1))
  {
    var s := Strip(raw);
    var start := Find(s, "{");
    if start == -1 then None
    else
      var end := RFind(s, "};");
      if end != -1 then Some(Slice(s, start, end + 1))
      else
        var end2 := RFind(s, "}");
        if end2 != -1 then Some(Slice(s, start, end2 + 1))
        else Some(s[start..])
  }

  /** How many whitespace characters (`\s`) `s` starts with. */
  function SpaceRun(s: string): (n: nat)
    ensures n <= |s|
    ensures forall i :: 0 <= i < n ==> IsSpace(s[i])
    ensures n < |s| ==> !IsSpace(s[n])
  {
    if s != [] && IsSpace(s[0]) then 1 + SpaceRun(s[1..]) else 0
  }

  /** `s` starts with optional whitespace, then `key:`. */
  predicate BareKeyAt(s: string, key: string) {
    StartsWith(s[SpaceRun(s)..], key + ":")
  }

  /**
   * `re.sub(opener + r'\s*(key):', opener + '"key":', s)`: every `opener`
   * followed by optional whitespace and `key:` becomes `opener"key":`,
   * scanning left to right without overlaps.
   */
  function QuoteKey(s: string, opener: char, key: string): (r: string)
    ensures r == [] <==> s == []
    ensures s != [] ==> r[0] == s[0]
    decreases |s|
  {
    if s == [] then []
    else if s[0] == opener && BareKeyAt(s[1..], key) then
      var rest := s[1 + SpaceRun(s[1..]) + |key| + 1..];
      [opener] + "\"" + key + "\":" + QuoteKey(rest, opener, key)
    else [s[0]] + QuoteKey(s[1..], opener, key)
  }

  /** Quotes the four bare keys of the feed: `pubDate` after `{`, the others after `,`. */
  function RepairJsonp(s: string): string {
    var s1 := QuoteKey(s, '{', "pubDate");
    var s2 := QuoteKey(s1, ',', "latestNewsSeq");
    var s3 := QuoteKey(s2, ',', "counter");
    QuoteKey(s3, ',', "item")
  }

  /** The conditions under which quoting a key is a clean rewrite. */
  predicate QuotableKey(opener: char, key: string) {
    key != "" && !IsSpace(opener) && opener != '"' && opener != ':' && opener !in key
    && key[0] != '"' && !IsSpace(key[0])
  }

  /** No opener in `s` is followed by a bare key. */
  predicate NoBareKey(s: string, opener: char, key: string) {
    forall i :: 0 <= i < |s| && s[i] == opener ==> !BareKeyAt(s[i + 1..], key)
  }

  /** A text without a bare key after the opener is left exactly as it is. */
  lemma {:induction false} QuoteKeyNoMatch(s: string, opener: char, key: string)
    requires NoBareKey(s, opener, key)
    ensures QuoteKey(s, opener, key) == s
    decreases |s|
  {
    if s != [] {
      var t := s[1..];
      forall i | 0 <= i < |t| && t[i] == opener
        ensures !BareKeyAt(t[i + 1..], key)
      {
        assert t[i] == s[i + 1] && t[i + 1..] == s[i + 2..];
      }
      QuoteKeyNoMatch(t, opener, key);
      assert s == [s[0]] + t;
    }
  }

  /** Text without the opener passes through: it can be split off the front. */
  lemma {:induction false} QuoteKeyPrefix(x: string, y: string, opener: char, key: string)
    requires opener !in x
    ensures QuoteKey(x + y, opener, key) == x + QuoteKey(y, opener, key)
    decreases |x|
  {
    if x != [] {
      QuoteKeyPrefix(x[1..], y, opener, key);
      assert (x + y)[1..] == x[1..] + y;
      assert (x + y)[0] == x[0];
    } else {
      assert x + y == y;
    }
  }

  /** Quoting never makes a text start with a word that contains no opener. */
  lemma {:induction false} QuoteKeyStart(v: string, w: string, opener: char, key: string)
    requires opener !in w
    requires StartsWith(QuoteKey(v, opener, key), w)
    ensures StartsWith(v, w)
    decreases |w|
  {
    if w != [] {
      var q := QuoteKey(v, opener, key);
      assert w[0] in w;
      assert v[0] == w[0] && v[0] != opener;
      assert q == [v[0]] + QuoteKey(v[1..], opener, key);
      assert StartsWith(QuoteKey(v[1..], opener, key), w[1..]) by {
        assert q[1..|w|] == w[1..];
      }
      QuoteKeyStart(v[1..], w[1..], opener, key);
      assert v[..|w|] == [v[0]] + v[1..][..|w| - 1];
    }
  }

  /** A quoted text starts with a bare key only if the original did. */
  lemma QuoteKeyBareKey(u: string, opener: char, key: string)
    requires QuotableKey(opener, key)
    requires BareKeyAt(QuoteKey(u, opener, key), key)
    ensures BareKeyAt(u, key)
  {
    var n := SpaceRun(u);
    var q := QuoteKey(u, opener, key);
    assert u == u[..n] + u[n..];
    assert opener !in u[..n];
    QuoteKeyPrefix(u[..n], u[n..], opener, key);
    var t := QuoteKey(u[n..], opener, key);
    assert q == u[..n] + t;
    SpaceRunAfter(u[..n], t);
    assert SpaceRun(t) == 0;
    assert q[n..] == t;
    assert opener !in key + ":";
    QuoteKeyStart(u[n..], key + ":", opener, key);
  }

  /** A run of spaces in front adds its length to the whitespace count. */
  lemma {:induction false} SpaceRunAfter(a: string, t: string)
    requires forall i :: 0 <= i < |a| ==> IsSpace(a[i])
    ensures SpaceRun(a + t) == |a| + SpaceRun(t)
    decreases |a|
  {
    if a == [] {
      assert a + t == t;
    } else {
      SpaceRunAfter(a[1..], t);
      assert (a + t)[1..] == a[1..] + t;
    }
  }

  /** Quoting a key twice is quoting it once: the repair leaves no bare key behind. */
  lemma {:induction false} QuoteKeyIdempotent(s: string, opener: char, key: string)
    requires QuotableKey(opener, key)
    ensures QuoteKey(QuoteKey(s, opener, key), opener, key) == QuoteKey(s, opener, key)
    decreases |s|
  {
    if s == [] {
      return;
    }
    var q := QuoteKey(s, opener, key);
    if s[0] == opener && BareKeyAt(s[1..], key) {
      var rest := s[1 + SpaceRun(s[1..]) + |key| + 1..];
      var quoted := "\"" + key + "\":";
      var tail := QuoteKey(rest, opener, key);
      assert q == [opener] + (quoted + tail);
      assert !BareKeyAt(quoted + tail, key) by {
        assert SpaceRun(quoted + tail) == 0;
        assert (quoted + tail)[0] == '"';
      }
      assert QuoteKey(q, opener, key) == [opener] + QuoteKey(quoted + tail, opener, key) by {
        assert q[0] == opener && q[1..] == quoted + tail;
      }
      assert opener !in quoted;
      QuoteKeyPrefix(quoted, tail, opener, key);
      QuoteKeyIdempotent(rest, opener, key);
      assert QuoteKey(q, opener, key) == [opener] + (quoted + tail);
    } else if s[0] == opener {
      var tail := QuoteKey(s[1..], opener, key);
      assert q == [opener] + tail;
      if BareKeyAt(tail, key) {
        QuoteKeyBareKey(s[1..], opener, key);
      }
      assert q[0] == opener && q[1..] == tail;
      QuoteKeyIdempotent(s[1..], opener, key);
    } else {
      var tail := QuoteKey(s[1..], opener, key);
      assert q == [s[0]] + tail;
      QuoteKeyPrefix([s[0]], tail, opener, key);
      QuoteKeyIdempotent(s[1..], opener, key);
    }
  }

  /** The four rewrites of the feed are clean ones. */
  lemma FeedKeysQuotable()
    ensures QuotableKey('{', "pubDate") && QuotableKey(',', "latestNewsSeq")
    ensures QuotableKey(',', "counter") && QuotableKey(',', "item")
  {
  }

  /**
   * A JSONP body `prefix + object + ";"` whose prefix has no `{` and does
   * not start with whitespace gives back the object text exactly.
   */
  lemma JsonSliceOfWrapped(prefix: string, obj: string)
    requires '{' !in prefix && (prefix == [] || !IsSpace(prefix[0]))
    requires |obj| >= 2 && obj[0] == '{' && obj[|obj| - 1] == '}'
    ensures JsonSlice(prefix + obj + ";") == Some(obj)
  {
    var raw := prefix + obj + ";";
    assert raw[0] == (if prefix == [] then '{' else prefix[0]);
    StripUnchanged(raw);
    var p := |prefix|;
    assert OccursAt(raw, "{", p) by {
      assert raw[p..p + 1] == [obj[0]];
    }
    forall j | 0 <= j < p
      ensures !OccursAt(raw, "{", j)
    {
      assert raw[j] == prefix[j];
      assert prefix[j] in prefix;
    }
    var start := Find(raw, "{");
    assert start == p;
    var e := p + |obj| - 1;
    assert OccursAt(raw, "};", e) by {
      assert raw[e..e + 2] == [obj[|obj| - 1], ';'];
    }
    var end := RFind(raw, "};");
    assert end == e;
    assert raw[start..end + 1] == obj;
  }

  /** A text that starts and ends with non-whitespace is its own strip. */
  lemma StripUnchanged(s: string)
    requires s != [] && !IsSpace(s[0]) && !IsSpace(s[|s| - 1])
    ensures Strip(s) == s
  {
    assert TrimLeft(s) == s;
  }

  /** What `_parse_jsonp` returns: the decoded value, or a failure status and message. */
  datatype JsonpParse = JsonpOk(data: Json) | JsonpFailed(status: FetchStatus, message: string)

  /** `_parse_jsonp`, with `json.loads` as `loads`. */
  function ParseJsonp(raw: string, loads: string -> Decoded): (r: JsonpParse)
    ensures r.JsonpFailed? ==> r.status == ParseError
    ensures JsonSlice(raw).None? ==> r == JsonpFailed(ParseError, "无法找到 JSON 起始位置")
    ensures JsonSlice(raw).Some? ==>
              (r.JsonpOk? <==> loads(RepairJsonp(JsonSlice(raw).value)).DecodeOk?)
  {
    match JsonSlice(raw)
    case None => JsonpFailed(ParseError, "无法找到 JSON 起始位置")
    case Some(text) =>
      match loads(RepairJsonp(text))
      case DecodeOk(v) => JsonpOk(v)
      case DecodeFailed(m) => JsonpFailed(ParseError, "JSON 解析失败: " + Take(m, 100))
  }

  // ---------------------------------------------------------- item extraction

  /** A string field read with `.get(key, "")`; None when present but not a string. */
  function StrField(f: map<string, Json>, key: string): Option<string> {
    match Get(f, key, JStr(""))
    case JStr(s) => Some(s)
    case _ => None
  }

  /** The `extra` map of an entry: each of the four fields, renamed, only when truthy. */
  function ThsExtra(f: map<string, Json>): (m: map<string, Json>)
    ensures "stock_code" in m <==> Truthy(Get(f, "stockCode", JNull))
    ensures "stocks" in m <==> Truthy(Get(f, "stocks", JNull))
    ensures "category" in m <==> Truthy(Get(f, "category", JNull))
    ensures "importance_level" in m <==> Truthy(Get(f, "implevel", JNull))
    ensures m.Keys <= {"stock_code", "stocks", "category", "importance_level"}
    ensures "stock_code" in m ==> m["stock_code"] == f["stockCode"]
    ensures "stocks" in m ==> m["stocks"] == f["stocks"]
    ensures "category" in m ==> m["category"] == f["category"]
    ensures "importance_level" in m ==> m["importance_level"] == f["implevel"]
  {
    var m1: map<string, Json> := if Truthy(Get(f, "stockCode", JNull)) then map["stock_code" := f["stockCode"]] else map[];
    var m2 := if Truthy(Get(f, "stocks", JNull)) then m1["stocks" := f["stocks"]] else m1;
    var m3 := if Truthy(Get(f, "category", JNull)) then m2["category" := f["category"]] else m2;
    if Truthy(Get(f, "implevel", JNull)) then m3["importance_level" := f["implevel"]] else m3
  }

  /**
   * One entry of the feed's `item` list: None when reading it raises, Some(None)
   * when it has no (truthy) `seq` and is skipped, else the news item.
   */
  function ExtractEntry(e: Json): Option<Option<NewsItem>> {
    if !e.JObj? then None
    else if !Truthy(Get(e.fields, "seq", JNull)) then Some(None)
    else match EntryItem(e.fields)
      case Some(it) => Some(Some(it))
      case None => None
  }

  /** The item built from an entry with a seq; None when a field read raises. */
  function EntryItem(f: map<string, Json>): Option<NewsItem>
    requires "seq" in f
  {
    match (PyStr(f["seq"]), StrField(f, "title"), StrField(f, "content"), StrField(f, "url"))
    case (Some(sq), Some(title), Some(content), Some(url)) =>
      (match (StrField(f, "pubDate"), Get(f, "source", JStr("同花顺")))
       case (Some(pub), JStr(src)) =>
         Some(NewsItem(sq, Strip(title), Strip(content), "", url, pub, src, "", ThsExtra(f),
                       false, "", "", [], false, "", "", ""))
       case _ => None)
    case _ => None
  }

  /**
   * An entry without a truthy seq is skipped; an extracted item carries the
   * entry's seq as text (never empty), its stripped title and content, its
   * extra fields, and no fetched content yet.
   */
  lemma ExtractEntrySpec(e: Json)
    ensures e.JObj? && !Truthy(Get(e.fields, "seq", JNull)) ==> ExtractEntry(e) == Some(None)
    ensures !e.JObj? ==> ExtractEntry(e).None?
    ensures ExtractEntry(e).Some? && ExtractEntry(e).value.Some? ==>
              var it := ExtractEntry(e).value.value;
              && e.JObj? && Truthy(Get(e.fields, "seq", JNull))
              && Some(it.seqNo) == PyStr(e.fields["seq"]) && it.seqNo != ""
              && Some(it.title) == StripOpt(StrField(e.fields, "title"))
              && Some(it.summary) == StripOpt(StrField(e.fields, "content"))
              && Some(it.url) == StrField(e.fields, "url")
              && it.extra == ThsExtra(e.fields)
              && !it.contentFetched && it.fullContent == ""
  {
    if e.JObj? && Truthy(Get(e.fields, "seq", JNull)) {
      TruthyStrNonEmpty(e.fields["seq"]);
    }
  }

  /** `str` of a truthy scalar is never empty. */
  lemma TruthyStrNonEmpty(j: Json)
    requires Truthy(j)
    ensures PyStr(j).Some? ==> PyStr(j).value != ""
  {
    if j.JInt? {
      var n := if j.i < 0 then -j.i else j.i;
      assert |NatToString(n)| >= 1;
    }
  }

  /** `Strip` lifted to an optional text. */
  function StripOpt(s: Option<string>): Option<string> {
    match s
    case Some(t) => Some(Strip(t))
    case None => None
  }

  /** The items of a list of entries, in order; None when some entry raises. */
  function ExtractAll(es: seq<Json>): Option<seq<NewsItem>> {
    TryCollect(es, ExtractEntry)
  }

  /**
   * Extraction raises iff some entry does; otherwise the items are exactly
   * those of the entries with a seq, each with a non-empty seq.
   */
  lemma ExtractAllSpec(es: seq<Json>)
    ensures ExtractAll(es).None? <==> exists k :: 0 <= k < |es| && ExtractEntry(es[k]).None?
    ensures ExtractAll(es).Some? ==>
              forall it :: it in ExtractAll(es).value <==>
                exists k :: 0 <= k < |es| && ExtractEntry(es[k]) == Some(Some(it))
    ensures ExtractAll(es).Some? ==> forall it :: it in ExtractAll(es).value ==> it.seqNo != ""
  {
    TryCollectFails(es, ExtractEntry);
    if ExtractAll(es).Some? {
      forall it | it in ExtractAll(es).value
        ensures it.seqNo != ""
        ensures exists k :: 0 <= k < |es| && ExtractEntry(es[k]) == Some(Some(it))
      {
        TryCollectSound(es, ExtractEntry, it);
        var k :| 0 <= k < |es| && ExtractEntry(es[k]) == Some(Some(it));
        ExtractEntrySpec(es[k]);
      }
      forall it | exists k :: 0 <= k < |es| && ExtractEntry(es[k]) == Some(Some(it))
        ensures it in ExtractAll(es).value
      {
        var k :| 0 <= k < |es| && ExtractEntry(es[k]) == Some(Some(it));
        TryCollectComplete(es, ExtractEntry, k);
      }
    }
  }

  /** `_extract_news_items`: the loop over `data["item"]`. None when it raises. */
  method ExtractNewsItems(data: map<string, Json>) returns (r: Option<seq<NewsItem>>)
    ensures r == (match DictEntries(Get(data, "item", JList([])))
                  case Some(es) => ExtractAll(es)
                  case None => None)
  {
    var entries := DictEntries(Get(data, "item", JList([])));
    if entries.None? {
      return None;
    }
    var es := entries.value;
    var items: seq<NewsItem> := [];
    var i := 0;
    while i < |es|
      invariant 0 <= i <= |es|
      invariant TryCollect(es[..i], ExtractEntry) == Some(items)
    {
      TryCollectNext(es, ExtractEntry, i);
      var e := ExtractEntry(es[i]);
      if e.None? {
        TryCollectRaised(es, ExtractEntry, i + 1);
        return None;
      }
      if e.value.Some? {
        items := items + [e.value.value];
      }
      i := i + 1;
    }
    assert es[..i] == es;
    return Some(items);
  }

  // ---------------------------------------------------------------- the list

  /** What the GET of the feed did: a response, a timeout, a connection error or another exception. */
  datatype ListResponse =
    | Response(statusCode: int, text: string)
    | RequestTimeout
    | ConnectionFailed(message: string)
    | RequestFailed(message: string)

  /**
   * `fetch_news_list`: any failure gives a result with no items and its
   * status; `raisedText` is the text of an exception raised while the items
   * are extracted.
   */
  function NewsListOf(resp: ListResponse, loads: string -> Decoded, raisedText: string, now: string): (r: CrawlResult)
  {
    match resp
    case RequestTimeout => ListFailure(Timeout, "请求超时", now)
    case ConnectionFailed(m) => ListFailure(NetworkError, "连接错误: " + Take(m, 100), now)
    case RequestFailed(m) => ListFailure(UnknownError, "未知错误: " + Take(m, 100), now)
    case Response(code, text) =>
      if code != 200 then ListFailure(NetworkError, "HTTP " + IntToString(code), now)
      else match ParseJsonp(text, loads)
        case JsonpFailed(st, m) => ListFailure(st, m, now)
        case JsonpOk(data) =>
          match ItemsOf(data)
          case None => ListFailure(UnknownError, "未知错误: " + Take(raisedText, 100), now)
          case Some((items, dataTime)) =>
            MakeCrawlResult(SourceId, SourceName, items, Success, "", "", dataTime, |items|, 0, now)
  }

  /** The items and data time of a decoded feed; None when reading them raises. */
  function ItemsOf(data: Json): Option<(seq<NewsItem>, string)> {
    if !data.JObj? then None
    else match (DictEntries(Get(data.fields, "item", JList([]))), StrField(data.fields, "pubDate"))
      case (Some(es), Some(dataTime)) =>
        (match ExtractAll(es)
         case Some(items) => Some((items, dataTime))
         case None => None)
      case _ => None
  }

  function ListFailure(status: FetchStatus, message: string, now: string): CrawlResult {
    MakeCrawlResult(SourceId, SourceName, [], status, message, "", "", 0, 0, now)
  }

  /**
   * The status mapping of `fetch_news_list`: a non-200 response is a network
   * error "HTTP <code>" with no items; success carries every extracted item
   * and counts them; every failure has no items.
   */
  lemma NewsListStatus(resp: ListResponse, loads: string -> Decoded, raisedText: string, now: string)
    ensures var r := NewsListOf(resp, loads, raisedText, now);
            && (resp.Response? && resp.statusCode != 200 ==>
                  r.status == NetworkError && r.items == [] && r.errorMessage == "HTTP " + IntToString(resp.statusCode))
            && (r.status == Success <==>
                  resp.Response? && resp.statusCode == 200 && ParseJsonp(resp.text, loads).JsonpOk?
                  && ItemsOf(ParseJsonp(resp.text, loads).data).Some?)
            && (r.status == Success ==> r.totalCount == |r.items| && r.items == ItemsOf(ParseJsonp(resp.text, loads).data).value.0)
            && (r.status != Success ==> r.items == [] && r.totalCount == 0)
  {
  }

  /** `fetch_news_list` as a method: it runs the extraction loop. */
  method FetchNewsList(resp: ListResponse, loads: string -> Decoded, raisedText: string, now: string)
    returns (r: CrawlResult)
    ensures r == NewsListOf(resp, loads, raisedText, now)
  {
    match resp {
      case RequestTimeout => return ListFailure(Timeout, "请求超时", now);
      case ConnectionFailed(m) => return ListFailure(NetworkError, "连接错误: " + Take(m, 100), now);
      case RequestFailed(m) => return ListFailure(UnknownError, "未知错误: " + Take(m, 100), now);
      case Response(code, text) =>
        if code != 200 {
          return ListFailure(NetworkError, "HTTP " + IntToString(code), now);
        }
        match ParseJsonp(text, loads) {
          case JsonpFailed(st, m) => return ListFailure(st, m, now);
          case JsonpOk(data) =>
            if !data.JObj? {
              return ListFailure(UnknownError, "未知错误: " + Take(raisedText, 100), now);
            }
            var items := ExtractNewsItems(data.fields);
            var dataTime := StrField(data.fields, "pubDate");
            if items.None? || dataTime.None? {
              return ListFailure(UnknownError, "未知错误: " + Take(raisedText, 100), now);
            }
            return MakeCrawlResult(SourceId, SourceName, items.value, Success, "", "", dataTime.value,
                                   |items.value|, 0, now);
        }
    }
  }

  // ------------------------------------------------------------ full content

  /** A page's content container: its paragraph texts and its whole text. */
  datatype Container = Container(paragraphs: seq<string>, text: string)

  /** What fetching an article page gave. */
  datatype PageFetch = Page(container: Option<Container>) | PageTimeout | PageConnectionError | PageError(message: string)

  datatype ContentResult = ContentResult(content: string, status: FetchStatus)

  const AdPrefix := "关注同花顺财经"

  /** A paragraph worth keeping: non-empty, longer than 5 characters, not the follow-us line. */
  predicate KeptParagraph(t: string) {
    t != "" && !StartsWith(t, AdPrefix) && |t| > 5
  }

  /** The kept paragraphs, each once, in first-occurrence order. */
  function CleanedParagraphs(ps: seq<string>): seq<string> {
    Dedup(KeepIf(ps, KeptParagraph))
  }

  /** The cleaned paragraphs are exactly the distinct kept ones. */
  lemma CleanedParagraphsSpec(ps: seq<string>)
    ensures forall t :: t in CleanedParagraphs(ps) <==> t in ps && KeptParagraph(t)
    ensures NoDups(CleanedParagraphs(ps))
  {
    DedupProperties(KeepIf(ps, KeptParagraph));
    forall t | t in ps && KeptParagraph(t)
      ensures t in KeepIf(ps, KeptParagraph)
    {
      KeepIfComplete(ps, KeptParagraph, t);
    }
  }

  /** The paragraph filter and the seen-set loop of `_fetch_content_from_url`. */
  method CleanParagraphs(ps: seq<string>) returns (unique: seq<string>)
    ensures unique == CleanedParagraphs(ps)
  {
    var texts: seq<string> := [];
    var i := 0;
    while i < |ps|
      invariant 0 <= i <= |ps|
      invariant texts == KeepIf(ps[..i], KeptParagraph)
    {
      KeepIfPrefixNext(ps, i, KeptParagraph);
      if KeptParagraph(ps[i]) {
        texts := texts + [ps[i]];
      }
      i := i + 1;
    }
    assert ps[..i] == ps;
    var seen: set<string> := {};
    unique := [];
    var j := 0;
    while j < |texts|
      invariant 0 <= j <= |texts|
      invariant unique == Dedup(texts[..j])
      invariant forall t :: t in seen <==> t in texts[..j]
    {
      DedupPrefixNext(texts, j);
      if texts[j] !in seen {
        seen := seen + {texts[j]};
        unique := unique + [texts[j]];
      }
      j := j + 1;
    }
    assert texts[..j] == texts;
  }

  /** `_fetch_content_from_url` on a fetched page. */
  function ContentFromPage(p: PageFetch): (r: ContentResult) {
    match p
    case PageTimeout => ContentResult("", Timeout)
    case PageConnectionError => ContentResult("", NetworkError)
    case PageError(_) => ContentResult("", UnknownError)
    case Page(None) => ContentResult("", ParseError)
    case Page(Some(c)) =>
      var texts := CleanedParagraphs(c.paragraphs);
      if texts != [] then ContentResult(Join(texts, "\n"), Success)
      else if c.text != "" then ContentResult(c.text, Success)
      else ContentResult("", EmptyResult)
  }

  /** A page read succeeds exactly when it yields some text; a page without container is a parse error. */
  lemma ContentFromPageSpec(p: PageFetch)
    ensures ContentFromPage(p).status == Success <==> ContentFromPage(p).content != ""
    ensures p == Page(None) ==> ContentFromPage(p) == ContentResult("", ParseError)
    ensures p.Page? && p.container.Some? && CleanedParagraphs(p.container.value.paragraphs) != [] ==>
              ContentFromPage(p) == ContentResult(Join(CleanedParagraphs(p.container.value.paragraphs), "\n"), Success)
  {
    if p.Page? && p.container.Some? {
      var texts := CleanedParagraphs(p.container.value.paragraphs);
      if texts != [] {
        CleanedParagraphsSpec(p.container.value.paragraphs);
        assert texts[0] in texts;
        JoinNonEmpty(texts, "\n");
      }
    }
  }

  /** Joining texts whose first is non-empty gives a non-empty text. */
  lemma JoinNonEmpty(parts: seq<string>, sep: string)
    requires parts != [] && parts[0] != ""
    ensures Join(parts, sep) != ""
  {
  }

  method FetchContentFromUrl(p: PageFetch) returns (r: ContentResult)
    ensures r == ContentFromPage(p)
  {
    match p {
      case PageTimeout => return ContentResult("", Timeout);
      case PageConnectionError => return ContentResult("", NetworkError);
      case PageError(_) => return ContentResult("", UnknownError);
      case Page(None) => return ContentResult("", ParseError);
      case Page(Some(c)) =>
        var texts := CleanParagraphs(c.paragraphs);
        if texts != [] {
          return ContentResult(Join(texts, "\n"), Success);
        } else if c.text != "" {
          return ContentResult(c.text, Success);
        }
        return ContentResult("", EmptyResult);
    }
  }

  const NewsHost := "news.10jqka.com.cn"
  const StockHost := "stock.10jqka.com.cn"

  /** The URLs tried: the item's, then the stock-host rewrite when it is on the news host. */
  function UrlCandidates(url: string): (r: seq<string>)
    ensures 1 <= |r| <= 2 && r[0] == url
    ensures |r| == 2 <==> Contains(url, NewsHost)
    ensures |r| == 2 ==> r[1] == ReplaceAll(url, NewsHost, StockHost)
  {
    if Contains(url, NewsHost) then [url, ReplaceAll(url, NewsHost, StockHost)] else [url]
  }

  /** The first URL whose page gives a successful non-empty text; otherwise an empty result. */
  function FirstContent(urls: seq<string>, page: string -> PageFetch): (r: ContentResult)
    decreases |urls|
  {
    if urls == [] then ContentResult("", EmptyResult)
    else
      var r0 := ContentFromPage(page(urls[0]));
      if r0.status == Success && r0.content != "" then r0 else FirstContent(urls[1..], page)
  }

  /** `fetch_full_content`; `hasBs4` says whether the HTML parser is installed. */
  function FullContentOf(url: string, hasBs4: bool, page: string -> PageFetch): ContentResult {
    if !hasBs4 then ContentResult("", UnknownError)
    else if url == "" then ContentResult("", EmptyResult)
    else FirstContent(UrlCandidates(url), page)
  }

  /**
   * The full-content fetch returns the first candidate's successful text, or
   * an empty result: success always carries text, and a failure never does.
   */
  lemma {:induction false} FirstContentSpec(urls: seq<string>, page: string -> PageFetch)
    ensures var r := FirstContent(urls, page);
            && (r.status == Success ==> r.content != "")
            && (r.status != Success ==> r == ContentResult("", EmptyResult))
            && (r.status == Success <==> exists k :: 0 <= k < |urls| && ContentFromPage(page(urls[k])).status == Success)
            && (r.status == Success ==>
                  exists k :: 0 <= k < |urls| && r == ContentFromPage(page(urls[k]))
                              && forall j :: 0 <= j < k ==> ContentFromPage(page(urls[j])).status != Success)
    decreases |urls|
  {
    if urls != [] {
      FirstContentSpec(urls[1..], page);
      ContentFromPageSpec(page(urls[0]));
      forall k | 1 <= k < |urls|
        ensures urls[k] == urls[1..][k - 1]
      {
      }
      var r := FirstContent(urls, page);
      if r.status == Success && ContentFromPage(page(urls[0])).status != Success {
        var k :| 0 <= k < |urls[1..]| && r == ContentFromPage(page(urls[1..][k]))
                 && forall j :: 0 <= j < k ==> ContentFromPage(page(urls[1..][j])).status != Success;
        assert forall j :: 0 <= j < k + 1 ==> ContentFromPage(page(urls[j])).status != Success by {
          forall j | 0 <= j < k + 1
            ensures ContentFromPage(page(urls[j])).status != Success
          {
            if j > 0 {
              assert urls[j] == urls[1..][j - 1];
            }
          }
        }
      }
    }
  }

  /** `fetch_full_content`: the candidate loop. */
  method FetchFullContent(url: string, hasBs4: bool, page: string -> PageFetch) returns (r: ContentResult)
    ensures r == FullContentOf(url, hasBs4, page)
  {
    if !hasBs4 {
      return ContentResult("", UnknownError);
    }
    if url == "" {
      return ContentResult("", EmptyResult);
    }
    var urls := UrlCandidates(url);
    var i := 0;
    while i < |urls|
      invariant 0 <= i <= |urls|
      invariant FirstContent(urls, page) == FirstContent(urls[i..], page)
    {
      var c := FetchContentFromUrl(page(urls[i]));
      if c.status == Success && c.content != "" {
        return c;
      }
      assert urls[i..][1..] == urls[i + 1..];
      i := i + 1;
    }
    return ContentResult("", EmptyResult);
  }

  // ------------------------------------------------------------------ batch

  /** The entry the batch records for one item. */
  function BatchEntry(it: NewsItem, page: string -> PageFetch): ContentResult {
    if it.contentFetched then ContentResult(it.fullContent, Success)
    else if it.url == "" then ContentResult("", EmptyResult)
    else FullContentOf(it.url, true, page)
  }

  /** The item after the batch: only an item actually fetched is updated. */
  function BatchItem(it: NewsItem, page: string -> PageFetch, now: string): NewsItem {
    if it.contentFetched || it.url == "" then it
    else
      var r := FullContentOf(it.url, true, page);
      WithContent(it, r.content, r.status, now)
  }

  /** The seqs of a list of items. */
  function SeqNos(items: seq<NewsItem>): set<string> {
    set it | it in items :: it.seqNo
  }

  /** The results map of the batch: one entry per seq, a later item overwriting an earlier one. */
  function BatchResults(items: seq<NewsItem>, page: string -> PageFetch): (m: map<string, ContentResult>)
    ensures m.Keys == SeqNos(items)
    decreases |items|
  {
    if items == [] then map[]
    else
      var n := |items|;
      var m0 := BatchResults(items[..n - 1], page);
      assert items == items[..n - 1] + [items[n - 1]];
      m0[items[n - 1].seqNo := BatchEntry(items[n - 1], page)]
  }

  /** The entry for a seq is that of the last item carrying it. */
  lemma {:induction false} BatchResultsLast(items: seq<NewsItem>, page: string -> PageFetch, k: int)
    requires 0 <= k < |items|
    requires forall j :: k < j < |items| ==> items[j].seqNo != items[k].seqNo
    ensures BatchResults(items, page)[items[k].seqNo] == BatchEntry(items[k], page)
    decreases |items|
  {
    var n := |items|;
    if k < n - 1 {
      var pre := items[..n - 1];
      BatchResultsLast(pre, page, k);
    }
  }

  /**
   * An already-fetched item is reported with its own content and success,
   * one without a URL with an empty result, and a fetched item records
   * `content_fetched` iff the fetch succeeded.
   */
  lemma BatchEntrySpec(it: NewsItem, page: string -> PageFetch, now: string)
    ensures it.contentFetched ==> BatchEntry(it, page) == ContentResult(it.fullContent, Success) && BatchItem(it, page, now) == it
    ensures !it.contentFetched && it.url == "" ==> BatchEntry(it, page) == ContentResult("", EmptyResult) && BatchItem(it, page, now) == it
    ensures !it.contentFetched && it.url != "" ==>
              var r := BatchEntry(it, page);
              var it' := BatchItem(it, page, now);
              && (it'.contentFetched <==> r.status == Success)
              && it'.fullContent == r.content && it'.contentFetchTime == now
              && (r.status != Success ==> it'.contentFetchError == r.status.Value())
  {
  }

  /**
   * `fetch_full_content_batch`: without the HTML parser every seq maps to
   * an unknown error and nothing changes; otherwise each item is handled in
   * order and updated in place.
   */
  method FetchFullContentBatch(items: array<NewsItem>, hasBs4: bool, page: string -> PageFetch, now: string)
    returns (results: map<string, ContentResult>)
    modifies items
    ensures !hasBs4 ==> items[..] == old(items[..])
                        && results == map s | s in SeqNos(old(items[..])) :: ContentResult("", UnknownError)
    ensures hasBs4 ==> results == BatchResults(old(items[..]), page)
                       && forall i :: 0 <= i < items.Length ==> items[i] == BatchItem(old(items[i]), page, now)
  {
    if !hasBs4 {
      return map s | s in SeqNos(items[..]) :: ContentResult("", UnknownError);
    }
    ghost var before := items[..];
    results := map[];
    var i := 0;
    while i < items.Length
      invariant 0 <= i <= items.Length
      invariant results == BatchResults(before[..i], page)
      invariant forall j :: 0 <= j < i ==> items[j] == BatchItem(before[j], page, now)
      invariant forall j :: i <= j < items.Length ==> items[j] == before[j]
    {
      BatchResultsNext(before, page, i);
      var sq := items[i].seqNo;
      var entry := FetchOne(items, i, page, now);
      results := results[sq := entry];
      i := i + 1;
    }
    assert before[..i] == before;
  }

  lemma BatchResultsNext(items: seq<NewsItem>, page: string -> PageFetch, i: nat)
    requires i < |items|
    ensures BatchResults(items[..i + 1], page) == BatchResults(items[..i], page)[items[i].seqNo := BatchEntry(items[i], page)]
  {
    assert items[..i + 1][..i] == items[..i];
  }

  /** One iteration of the batch loop: records the item's entry and updates the item when it is fetched. */
  method FetchOne(items: array<NewsItem>, i: nat, page: string -> PageFetch, now: string) returns (entry: ContentResult)
    requires i < items.Length
    modifies items
    ensures entry == BatchEntry(old(items[i]), page)
    ensures items[i] == BatchItem(old(items[i]), page, now)
    ensures forall j :: 0 <= j < items.Length && j != i ==> items[j] == old(items[j])
  {
    var it := items[i];
    if it.contentFetched {
      return ContentResult(it.fullContent, Success);
    } else if it.url == "" {
      return ContentResult("", EmptyResult);
    }
    entry := FetchFullContent(it.url, true, page);
    items[i] := WithContent(it, entry.content, entry.status, now);
  }
}
