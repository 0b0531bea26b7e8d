/**
 * The stand-alone 7x24 feed prototype with cache busting: a crawler object
 * that remembers every seq it has seen and keeps the first-seen version of
 * each news dict, a full-content pass over everything collected, and the
 * text formatting of one item. The JSONP slicing and key quoting, the URL
 * candidates and the paragraph cleaning are the ones of the production
 * crawler and are reused from it.
 */
module ThsScript {
  import opened Common
  import ThsCrawler
  import opened CrawlerBase

  // ------------------------------------------------------------ raw fetch

  /** What `fetch_raw_data` got: a response's status and text, or the exception raised. */
  datatype RawFetch =
    | RawText(statusCode: int, text: string)
    | RawTimeout
    | RawConnectionError(message: string)
    | RawError(message: string)

  /** The fetch status line, and the text when there is one. */
  function FetchRaw(f: RawFetch): (r: (Option<string>, string))
    ensures r.0.Some? <==> f.RawText?
  {
    match f
    case RawText(code, text) =>
      (Some(text), "HTTP " + IntToString(code) + ", " + NatToString(|text|) + " bytes")
    case RawTimeout => (None, "请求超时")
    case RawConnectionError(m) => (None, "连接错误: " + m)
    case RawError(m) => (None, "未知错误: " + m)
  }

  // ------------------------------------------------------------ parse_jsonp

  /** `parse_jsonp`'s answer: the decoded dict, or no data; both with a status line. */
  datatype ScriptParse = Parsed(data: map<string, Json>, status: string) | NotParsed(status: string)

  /** `len(x)`; None where Python raises. */
  function PyLen(j: Json): (r: Option<nat>)
    ensures j.JList? ==> r == Some(|j.elems|)
  {
    match j
    case JStr(s) => Some(|s|)
    case JList(es) => Some(|es|)
    case JObj(m) => Some(|m|)
    case _ => None
  }

  /**
   * `parse_jsonp` with `message` building the success line from the data.
   * Only a decode error is caught: a payload that is not a dict raises at
   * its first `.get`, as does a failing `message`; None stands for that.
   */
  function ParseWith(raw: string, loads: string -> Decoded, message: map<string, Json> -> Option<string>)
    : (r: Option<ScriptParse>)
    ensures ThsCrawler.JsonSlice(raw).None? ==> r == Some(NotParsed("无法找到 JSON 起始位置"))
    ensures r.Some? && r.value.Parsed? ==>
              && ThsCrawler.JsonSlice(raw).Some?
              && loads(ThsCrawler.RepairJsonp(ThsCrawler.JsonSlice(raw).value)) == DecodeOk(JObj(r.value.data))
  {
    match ThsCrawler.JsonSlice(raw)
    case None => Some(NotParsed("无法找到 JSON 起始位置"))
    case Some(text) =>
      match loads(ThsCrawler.RepairJsonp(text))
      case DecodeFailed(m) => Some(NotParsed("JSON 解析失败: " + m))
      case DecodeOk(JObj(data)) =>
        (match message(data)
         case Some(status) => Some(Parsed(data, status))
         case None => None)
      case DecodeOk(_) => None
  }

  /** The success line of this prototype: item count, data time and latest seq. */
  function ParseMessage(data: map<string, Json>, show: Json -> string): Option<string> {
    match PyLen(Get(data, "item", JList([])))
    case None => None
    case Some(n) =>
      Some("解析成功, " + NatToString(n) + " 条, 数据时间: " + Rendered(Get(data, "pubDate", JNull), show)
           + ", 最新序号: " + Rendered(Get(data, "latestNewsSeq", JNull), show))
  }

  function ParseJsonp(raw: string, loads: string -> Decoded, show: Json -> string): Option<ScriptParse> {
    ParseWith(raw, loads, data => ParseMessage(data, show))
  }

  /** With no `{` in the text, no data and the start-position message; a parse never raises on the slicing. */
  lemma ParseJsonpNoBrace(raw: string, loads: string -> Decoded, show: Json -> string)
    requires Find(Strip(raw), "{") < 0
    ensures ParseJsonp(raw, loads, show) == Some(NotParsed("无法找到 JSON 起始位置"))
  {
  }

  // --------------------------------------------------------- extract_news_item

  /** One news dict of the prototype (`full_content` starts empty). */
  datatype ScriptItem = ScriptItem(
    seqNo: Json, title: string, content: string, fullContent: string, url: string,
    pubDate: Json, source: Json, stocks: Json, stockCode: Json, category: Json, implevel: Json)

  /** A value usable as a set member or dict key. */
  predicate Hashable(j: Json) {
    !j.JList? && !j.JObj?
  }

  /**
   * `extract_news_item`: None when a read raises (an entry that is not a
   * dict, a title or content that is not a string); a truthy seq that cannot
   * be a key, and a URL that is not a string, are taken as raising too.
   */
  function ExtractItem(e: Json): (r: Option<ScriptItem>)
    ensures r.Some? ==> e.JObj? && Get(e.fields, "title", JStr("")).JStr? && Get(e.fields, "content", JStr("")).JStr?
                        && Get(e.fields, "url", JStr("")).JStr? && r.value == ItemOfFields(e.fields)
  {
    if !e.JObj? then None
    else
      var f := e.fields;
      var sq := Get(f, "seq", JNull);
      var title := ThsCrawler.StrField(f, "title");
      var content := ThsCrawler.StrField(f, "content");
      var url := ThsCrawler.StrField(f, "url");
      if (Truthy(sq) && !Hashable(sq)) || title.None? || content.None? || url.None? then None
      else Some(ItemOfFields(f))
  }

  /**
   * The dict `extract_news_item` builds once every read has succeeded:
   * seq as given, title and content stripped, text fields defaulting to "".
   */
  function ItemOfFields(f: map<string, Json>): ScriptItem
    requires Get(f, "title", JStr("")).JStr? && Get(f, "content", JStr("")).JStr? && Get(f, "url", JStr("")).JStr?
  {
    ScriptItem(Get(f, "seq", JNull), Strip(Get(f, "title", JStr("")).s), Strip(Get(f, "content", JStr("")).s), "",
               Get(f, "url", JStr("")).s, Get(f, "pubDate", JStr("")), Get(f, "source", JStr("")),
               Get(f, "stocks", JNull), Get(f, "stockCode", JStr("")), Get(f, "category", JStr("")),
               Get(f, "implevel", JStr("")))
  }

  /**
   * Reading an entry fails only on malformed fields; the dict keeps the
   * seq as given, strips title and content, and defaults missing texts to "".
   */
  lemma ExtractItemSpec(f: map<string, Json>)
    ensures ExtractItem(JObj(f)).Some? <==>
              && !(Truthy(Get(f, "seq", JNull)) && !Hashable(Get(f, "seq", JNull)))
              && Get(f, "title", JStr("")).JStr? && Get(f, "content", JStr("")).JStr? && Get(f, "url", JStr("")).JStr?
    ensures ExtractItem(JObj(f)).Some? ==>
              var it := ExtractItem(JObj(f)).value;
              && it.seqNo == Get(f, "seq", JNull) && it.fullContent == ""
              && (Truthy(it.seqNo) ==> Hashable(it.seqNo))
              && it.title == Strip(Get(f, "title", JStr("")).s) && it.content == Strip(Get(f, "content", JStr("")).s)
              && ("url" !in f ==> it.url == "")
              && ("pubDate" !in f ==> it.pubDate == JStr(""))
              && ("source" !in f ==> it.source == JStr(""))
              && ("stockCode" !in f ==> it.stockCode == JStr(""))
              && ("implevel" !in f ==> it.implevel == JStr(""))
  {
  }

  /** Every entry of the `item` list as a news dict; None when reading one raises. */
  function ItemsOf(data: map<string, Json>): Option<seq<ScriptItem>> {
    match DictEntries(Get(data, "item", JList([])))
    case None => None
    case Some(es) => TryCollect(es, (e: Json) => match ExtractItem(e) case Some(it) => Some(Some(it)) case None => None)
  }

  // ------------------------------------------------- incremental bookkeeping

  /** The truthy seqs of `items`. */
  function SeqsOf(items: seq<ScriptItem>): set<Json> {
    set i | 0 <= i < |items| && Truthy(items[i].seqNo) :: items[i].seqNo
  }

  lemma SeqsOfSnoc(items: seq<ScriptItem>, x: ScriptItem)
    ensures SeqsOf(items + [x]) == SeqsOf(items) + (if Truthy(x.seqNo) then {x.seqNo} else {})
  {
    var q := items + [x];
    forall k | k in SeqsOf(q)
      ensures k in SeqsOf(items) + (if Truthy(x.seqNo) then {x.seqNo} else {})
    {
      var i :| 0 <= i < |q| && Truthy(q[i].seqNo) && q[i].seqNo == k;
      if i < |items| {
        assert q[i] == items[i];
      }
    }
    forall k | k in SeqsOf(items)
      ensures k in SeqsOf(q)
    {
      var i :| 0 <= i < |items| && Truthy(items[i].seqNo) && items[i].seqNo == k;
      assert q[i] == items[i];
    }
    if Truthy(x.seqNo) {
      assert q[|items|] == x;
    }
  }

  /**
   * The items `get_incremental_news` reports as new against the seen-set
   * `seen`: each item with a truthy seq that neither `seen` nor an earlier
   * item of the batch holds, in batch order.
   */
  function Fresh(items: seq<ScriptItem>, seen: set<Json>): seq<ScriptItem>
    decreases |items|
  {
    if items == [] then []
    else
      var p := items[..|items| - 1];
      var x := items[|items| - 1];
      Fresh(p, seen) + (if Truthy(x.seqNo) && x.seqNo !in seen + SeqsOf(p) then [x] else [])
  }

  /** The seqs of a list of dicts, in order. */
  function SeqList(items: seq<ScriptItem>): (r: seq<Json>)
    ensures |r| == |items| && forall i :: 0 <= i < |items| ==> r[i] == items[i].seqNo
  {
    if items == [] then [] else SeqList(items[..|items| - 1]) + [items[|items| - 1].seqNo]
  }

  /** The new items are taken from the batch and have truthy seqs that were not seen. */
  lemma {:induction false} FreshSound(items: seq<ScriptItem>, seen: set<Json>)
    ensures forall x :: x in Fresh(items, seen) ==> x in items && Truthy(x.seqNo) && x.seqNo !in seen
    decreases |items|
  {
    if items != [] {
      var p := items[..|items| - 1];
      FreshSound(p, seen);
      assert items == p + [items[|items| - 1]];
    }
  }

  /** The new items carry exactly the batch's unseen truthy seqs. */
  lemma {:induction false} FreshSeqs(items: seq<ScriptItem>, seen: set<Json>)
    ensures SeqsOf(Fresh(items, seen)) == SeqsOf(items) - seen
    decreases |items|
  {
    if items != [] {
      var p := items[..|items| - 1];
      var x := items[|items| - 1];
      FreshSeqs(p, seen);
      assert items == p + [x];
      SeqsOfSnoc(p, x);
      var fp := Fresh(p, seen);
      if Truthy(x.seqNo) && x.seqNo !in seen + SeqsOf(p) {
        assert Fresh(items, seen) == fp + [x];
        SeqsOfSnoc(fp, x);
      } else {
        assert Fresh(items, seen) == fp;
      }
    }
  }

  /** No seq is reported new twice. */
  lemma {:induction false} FreshDistinct(items: seq<ScriptItem>, seen: set<Json>)
    ensures NoDups(SeqList(Fresh(items, seen)))
    decreases |items|
  {
    if items != [] {
      var p := items[..|items| - 1];
      var x := items[|items| - 1];
      FreshDistinct(p, seen);
      var fp := Fresh(p, seen);
      if Truthy(x.seqNo) && x.seqNo !in seen + SeqsOf(p) {
        FreshSeqs(p, seen);
        var l := SeqList(fp + [x]);
        forall i, j | 0 <= i < j < |l|
          ensures l[i] != l[j]
        {
          if j == |fp| {
            assert l[i] == fp[i].seqNo;
            FreshSound(p, seen);
            assert fp[i] in fp;
            assert fp[i].seqNo in SeqsOf(fp);
          } else {
            assert l[i] == SeqList(fp)[i] && l[j] == SeqList(fp)[j];
          }
        }
      }
    }
  }

  /** Seeing the same batch again reports nothing new. */
  lemma {:induction false} FreshAgain(items: seq<ScriptItem>, seen: set<Json>)
    requires SeqsOf(items) <= seen
    ensures Fresh(items, seen) == []
    decreases |items|
  {
    if items != [] {
      var p := items[..|items| - 1];
      var x := items[|items| - 1];
      assert items == p + [x];
      SeqsOfSnoc(p, x);
      FreshAgain(p, seen);
    }
  }

  /**
   * `all_news` after a batch: each truthy seq not yet a key is added with
   * the first item of the batch that carries it.
   */
  function AddFirst(m: map<Json, ScriptItem>, items: seq<ScriptItem>): map<Json, ScriptItem>
    decreases |items|
  {
    if items == [] then m
    else
      var p := AddFirst(m, items[..|items| - 1]);
      var x := items[|items| - 1];
      if Truthy(x.seqNo) && x.seqNo !in p then p[x.seqNo := x] else p
  }

  /** The keys grow by exactly the batch's truthy seqs. */
  lemma {:induction false} AddFirstKeys(m: map<Json, ScriptItem>, items: seq<ScriptItem>)
    ensures AddFirst(m, items).Keys == m.Keys + SeqsOf(items)
    decreases |items|
  {
    if items != [] {
      var p := items[..|items| - 1];
      var x := items[|items| - 1];
      AddFirstKeys(m, p);
      assert items == p + [x];
      SeqsOfSnoc(p, x);
    }
  }

  /** Entries already present are never replaced. */
  lemma {:induction false} AddFirstKeeps(m: map<Json, ScriptItem>, items: seq<ScriptItem>, k: Json)
    requires k in m
    ensures k in AddFirst(m, items) && AddFirst(m, items)[k] == m[k]
    decreases |items|
  {
    if items != [] {
      AddFirstKeeps(m, items[..|items| - 1], k);
    }
  }

  /** A new key maps to the first item of the batch that carries it. */
  lemma {:induction false} AddFirstFirst(m: map<Json, ScriptItem>, items: seq<ScriptItem>, k: Json)
    requires k in AddFirst(m, items) && k !in m
    ensures exists j :: 0 <= j < |items| && AddFirst(m, items)[k] == items[j] && items[j].seqNo == k
                        && forall i :: 0 <= i < j ==> items[i].seqNo != k
    decreases |items|
  {
    var p := items[..|items| - 1];
    var x := items[|items| - 1];
    assert items == p + [x];
    var a := AddFirst(m, p);
    if k in a {
      AddFirstFirst(m, p, k);
      var j :| 0 <= j < |p| && a[k] == p[j] && p[j].seqNo == k && forall i :: 0 <= i < j ==> p[i].seqNo != k;
      assert items[j] == p[j];
      assert forall i :: 0 <= i < j ==> items[i] == p[i];
    } else {
      AddFirstKeys(m, p);
      assert k == x.seqNo && AddFirst(m, items)[k] == items[|p|];
      forall i | 0 <= i < |p|
        ensures items[i].seqNo != k
      {
        assert items[i] == p[i];
        if Truthy(p[i].seqNo) {
          assert p[i].seqNo in SeqsOf(p);
        }
      }
    }
  }

  /** `get_incremental_news`'s answer: new items, all items, fetch status, parse status, data time. */
  datatype Incremental = Incremental(newItems: seq<ScriptItem>, allItems: seq<ScriptItem>,
                                     fetchStatus: string, parseStatus: string, pubTime: Json)

  /** The batch a fetch yields, before the seen-set is consulted; None when it raises. */
  function BatchOf(fetch: RawFetch, loads: string -> Decoded, show: Json -> string): Option<Incremental> {
    var (raw, fs) := FetchRaw(fetch);
    if raw.None? || raw.value == "" then Some(Incremental([], [], fs, "未执行", JStr("")))
    else
      match ParseJsonp(raw.value, loads, show)
      case None => None
      case Some(NotParsed(st)) => Some(Incremental([], [], fs, st, JStr("")))
      case Some(Parsed(data, st)) =>
        if data == map[] then Some(Incremental([], [], fs, st, JStr("")))
        else
          (match ItemsOf(data)
           case None => None
           case Some(items) => Some(Incremental([], items, fs, st, Get(data, "pubDate", JStr("")))))
  }

  /** A failed or empty fetch is reported with the "not run" parse status and no items. */
  lemma FailedFetch(fetch: RawFetch, loads: string -> Decoded, show: Json -> string)
    requires !fetch.RawText? || fetch.text == ""
    ensures BatchOf(fetch, loads, show) == Some(Incremental([], [], FetchRaw(fetch).1, "未执行", JStr("")))
  {
  }

  // ------------------------------------------------------ full-content fetch

  /** `_fetch_content_from_url` of the prototype: the text, or None with the reason. */
  function ContentFromPage(p: ThsCrawler.PageFetch): (r: (Option<string>, string)) {
    match p
    case PageTimeout => (None, "请求超时")
    case PageConnectionError => (None, "连接错误")
    case PageError(m) => (None, "错误: " + m)
    case Page(None) => (None, "未找到正文容器")
    case Page(Some(c)) =>
      var texts := ThsCrawler.CleanedParagraphs(c.paragraphs);
      if texts != [] then (Some(Join(texts, "\n")), "成功")
      else if c.text != "" then (Some(c.text), "成功(直接提取)")
      else (None, "正文为空")
  }

  /** The prototype reads the same text from a page as the production crawler. */
  lemma ContentFromPageAgrees(p: ThsCrawler.PageFetch)
    ensures var c := ThsCrawler.ContentFromPage(p);
            ContentFromPage(p).0 == (if c.status == Success then Some(c.content) else None)
  {
  }

  /** The candidate loop: the first page giving a non-empty text, else the last reason. */
  function FirstContent(urls: seq<string>, page: string -> ThsCrawler.PageFetch, lastError: string)
    : (r: (Option<string>, string))
    decreases |urls|
  {
    if urls == [] then (None, lastError)
    else
      var (c, st) := ContentFromPage(page(urls[0]));
      if c.Some? && c.value != "" then (c, st) else FirstContent(urls[1..], page, st)
  }

  /** `fetch_full_content`; `hasBs4` says whether the HTML parser is installed. */
  function FullContentOf(url: string, hasBs4: bool, page: string -> ThsCrawler.PageFetch): (Option<string>, string) {
    if !hasBs4 then (None, "未安装 beautifulsoup4")
    else if url == "" then (None, "URL 为空")
    else FirstContent(ThsCrawler.UrlCandidates(url), page, "")
  }

  lemma {:induction false} FirstContentAgrees(urls: seq<string>, page: string -> ThsCrawler.PageFetch, lastError: string)
    ensures var c := ThsCrawler.FirstContent(urls, page);
            FirstContent(urls, page, lastError).0 == (if c.status == Success then Some(c.content) else None)
    decreases |urls|
  {
    if urls != [] {
      FirstContentAgrees(urls[1..], page, ContentFromPage(page(urls[0])).1);
      ContentFromPageAgrees(page(urls[0]));
      ThsCrawler.ContentFromPageSpec(page(urls[0]));
    }
  }

  /**
   * The prototype's full-content fetch finds text exactly when the
   * production crawler's does, and the same text; an empty URL is refused.
   */
  lemma FullContentAgrees(url: string, page: string -> ThsCrawler.PageFetch)
    ensures var c := ThsCrawler.FullContentOf(url, true, page);
            FullContentOf(url, true, page).0 == (if c.status == Success then Some(c.content) else None)
    ensures url == "" ==> FullContentOf(url, true, page) == (None, "URL 为空")
  {
    if url != "" {
      FirstContentAgrees(ThsCrawler.UrlCandidates(url), page, "");
    }
  }

  /** `fetch_full_content`: the candidate loop with the last failure's reason. */
  method FetchFullContent(url: string, hasBs4: bool, page: string -> ThsCrawler.PageFetch)
    returns (content: Option<string>, status: string)
    ensures (content, status) == FullContentOf(url, hasBs4, page)
  {
    if !hasBs4 {
      return None, "未安装 beautifulsoup4";
    }
    if url == "" {
      return None, "URL 为空";
    }
    var urls := ThsCrawler.UrlCandidates(url);
    var lastError := "";
    var i := 0;
    while i < |urls|
      invariant 0 <= i <= |urls|
      invariant FirstContent(urls, page, "") == FirstContent(urls[i..], page, lastError)
    {
      var (c, st) := ContentFromPage(page(urls[i]));
      if c.Some? && c.value != "" {
        return c, st;
      }
      assert urls[i..][1..] == urls[i + 1..];
      lastError := st;
      i := i + 1;
    }
    return None, lastError;
  }

  /** What the full-content pass does with one collected item. */
  datatype Outcome = Skipped | Succeeded | Failed

  function OutcomeOf(it: ScriptItem, page: string -> ThsCrawler.PageFetch): Outcome {
    if it.fullContent != "" || it.url == "" then Skipped
    else
      var c := FullContentOf(it.url, true, page).0;
      if c.Some? && c.value != "" then Succeeded else Failed
  }

  /** The item after the pass: a fetched text is stored, anything else leaves it as it was. */
  function Completed(it: ScriptItem, page: string -> ThsCrawler.PageFetch): (r: ScriptItem)
    ensures OutcomeOf(it, page) == Succeeded ==> r.fullContent != ""
    ensures OutcomeOf(it, page) != Succeeded ==> r == it
    ensures r == it.(fullContent := r.fullContent)
  {
    if OutcomeOf(it, page) == Succeeded then it.(fullContent := FullContentOf(it.url, true, page).0.value) else it
  }

  /** The `{"success", "failed", "skipped"}` counters. */
  datatype Stats = Stats(success: nat, failed: nat, skipped: nat)

  function Bump(s: Stats, o: Outcome): Stats {
    match o
    case Succeeded => s.(success := s.success + 1)
    case Failed => s.(failed := s.failed + 1)
    case Skipped => s.(skipped := s.skipped + 1)
  }

  /** The counters after visiting `keys` of `m` in order. */
  function Tally(keys: seq<Json>, m: map<Json, ScriptItem>, page: string -> ThsCrawler.PageFetch): (s: Stats)
    requires forall k :: k in keys ==> k in m
    decreases |keys|
  {
    if keys == [] then Stats(0, 0, 0)
    else Bump(Tally(keys[..|keys| - 1], m, page), OutcomeOf(m[keys[|keys| - 1]], page))
  }

  /** Every visited item is counted exactly once. */
  lemma {:induction false} TallyTotal(keys: seq<Json>, m: map<Json, ScriptItem>, page: string -> ThsCrawler.PageFetch)
    requires forall k :: k in keys ==> k in m
    ensures var s := Tally(keys, m, page); s.success + s.failed + s.skipped == |keys|
    decreases |keys|
  {
    if keys != [] {
      TallyTotal(keys[..|keys| - 1], m, page);
    }
  }

  /** A duplicate-free list of keys has as many entries as the set of its keys. */
  lemma {:induction false} NoDupsCard(keys: seq<Json>, ks: set<Json>)
    requires NoDups(keys) && forall k :: k in ks <==> k in keys
    ensures |ks| == |keys|
    decreases |keys|
  {
    if keys != [] {
      var x := keys[|keys| - 1];
      var p := keys[..|keys| - 1];
      assert keys == p + [x];
      assert x !in p;
      NoDupsCard(p, ks - {x});
    }
  }

  lemma SeqListSnoc(items: seq<ScriptItem>, x: ScriptItem)
    ensures SeqList(items + [x]) == SeqList(items) + [x.seqNo]
  {
    assert (items + [x])[..|items|] == items;
  }

  lemma TallyNext(keys: seq<Json>, m: map<Json, ScriptItem>, page: string -> ThsCrawler.PageFetch, i: nat)
    requires i < |keys| && forall k :: k in keys ==> k in m
    ensures Tally(keys[..i + 1], m, page) == Bump(Tally(keys[..i], m, page), OutcomeOf(m[keys[i]], page))
  {
    assert keys[..i + 1][..i] == keys[..i];
  }

  /** The crawler's bookkeeping while a batch is visited, with the items found new so far. */
  datatype Book = Book(seen: set<Json>, news: map<Json, ScriptItem>, order: seq<Json>, added: seq<ScriptItem>)

  /** One pass of the loop body: collect a truthy seq first seen, report it if unseen. */
  function Visit(b: Book, x: ScriptItem): Book {
    if !Truthy(x.seqNo) then b
    else
      var b1 := if x.seqNo !in b.news then b.(news := b.news[x.seqNo := x], order := b.order + [x.seqNo]) else b;
      if x.seqNo !in b1.seen then b1.(seen := b1.seen + {x.seqNo}, added := b1.added + [x]) else b1
  }

  function VisitAll(b: Book, items: seq<ScriptItem>): Book
    decreases |items|
  {
    if items == [] then b else Visit(VisitAll(b, items[..|items| - 1]), items[|items| - 1])
  }

  /**
   * From a coherent start, the loop keeps the seen-set and the keys of
   * `all_news` equal: the new items are the fresh ones, the seen-set grows
   * by the batch's seqs and `all_news` by the first version of each.
   */
  lemma {:induction false} VisitAllTracks(s0: set<Json>, m0: map<Json, ScriptItem>, items: seq<ScriptItem>)
    requires m0.Keys == s0
    ensures forall o0 :: var b := VisitAll(Book(s0, m0, o0, []), items);
              && b.seen == s0 + SeqsOf(items)
              && b.news == AddFirst(m0, items)
              && b.added == Fresh(items, s0)
    decreases |items|
  {
    if items != [] {
      var p := items[..|items| - 1];
      var x := items[|items| - 1];
      VisitAllTracks(s0, m0, p);
      AddFirstKeys(m0, p);
      assert items == p + [x];
      SeqsOfSnoc(p, x);
    }
  }

  /** The collection order lists each key of `all_news` once, the old keys first, then the new seqs. */
  ghost predicate OrderCoherent(o0: seq<Json>, b: Book) {
    && b.order == o0 + SeqList(b.added)
    && b.news.Keys == b.seen && NoDups(b.order) && forall k :: k in b.news <==> k in b.order
  }

  lemma OrderCoherentStep(o0: seq<Json>, b: Book, x: ScriptItem)
    requires OrderCoherent(o0, b)
    ensures OrderCoherent(o0, Visit(b, x))
  {
    SeqListSnoc(b.added, x);
    if Truthy(x.seqNo) && x.seqNo !in b.news {
      assert b.order + [x.seqNo] == o0 + SeqList(b.added + [x]);
      assert x.seqNo !in b.order;
    }
  }

  lemma {:induction false} VisitAllOrder(s0: set<Json>, m0: map<Json, ScriptItem>, o0: seq<Json>, items: seq<ScriptItem>)
    requires m0.Keys == s0 && NoDups(o0) && forall k :: k in m0 <==> k in o0
    ensures var b := VisitAll(Book(s0, m0, o0, []), items);
            && b.order == o0 + SeqList(b.added)
            && b.news.Keys == b.seen && NoDups(b.order) && forall k :: k in b.news <==> k in b.order
    decreases |items|
  {
    if items == [] {
      assert OrderCoherent(o0, Book(s0, m0, o0, []));
    } else {
      var p := items[..|items| - 1];
      VisitAllOrder(s0, m0, o0, p);
      var b := VisitAll(Book(s0, m0, o0, []), p);
      assert OrderCoherent(o0, b);
      OrderCoherentStep(o0, b, items[|items| - 1]);
    }
  }

  /** The items of `m` after visiting `keys` in order. */
  function CompleteKeys(m: map<Json, ScriptItem>, keys: seq<Json>, page: string -> ThsCrawler.PageFetch)
    : map<Json, ScriptItem>
    requires forall k :: k in keys ==> k in m
    decreases |keys|
  {
    if keys == [] then m
    else
      var last := keys[|keys| - 1];
      CompleteKeys(m, keys[..|keys| - 1], page)[last := Completed(m[last], page)]
  }

  lemma CompleteKeysNext(m: map<Json, ScriptItem>, keys: seq<Json>, page: string -> ThsCrawler.PageFetch, i: nat)
    requires i < |keys| && NoDups(keys) && forall k :: k in keys ==> k in m
    ensures keys[i] in CompleteKeys(m, keys[..i], page)
    ensures CompleteKeys(m, keys[..i], page)[keys[i]] == m[keys[i]]
    ensures CompleteKeys(m, keys[..i + 1], page) == CompleteKeys(m, keys[..i], page)[keys[i] := Completed(m[keys[i]], page)]
  {
    assert keys[..i + 1][..i] == keys[..i];
    assert keys[i] !in keys[..i];
    CompleteKeysSpec(m, keys[..i], page);
  }

  /** Visiting a list of keys completes exactly the items it names. */
  lemma {:induction false} CompleteKeysSpec(m: map<Json, ScriptItem>, keys: seq<Json>, page: string -> ThsCrawler.PageFetch)
    requires forall k :: k in keys ==> k in m
    ensures CompleteKeys(m, keys, page).Keys == m.Keys
    ensures forall k :: k in m ==>
              CompleteKeys(m, keys, page)[k] == if k in keys then Completed(m[k], page) else m[k]
    decreases |keys|
  {
    if keys != [] {
      var p := keys[..|keys| - 1];
      CompleteKeysSpec(m, p, page);
      assert keys == p + [keys[|keys| - 1]];
    }
  }

  /** One step of the full-content pass: skip, or fetch and store the text when one is found. */
  method CompleteOne(item: ScriptItem, page: string -> ThsCrawler.PageFetch) returns (r: ScriptItem, o: Outcome)
    ensures r == Completed(item, page) && o == OutcomeOf(item, page)
  {
    if item.fullContent != "" || item.url == "" {
      return item, Skipped;
    }
    var content, status := FetchFullContent(item.url, true, page);
    if content.Some? && content.value != "" {
      return item.(fullContent := content.value), Succeeded;
    }
    return item, Failed;
  }

  /** The loop of `fetch_all_full_contents` over the collected items, in collection order. */
  method CompleteAll(m: map<Json, ScriptItem>, keys: seq<Json>, page: string -> ThsCrawler.PageFetch)
    returns (news: map<Json, ScriptItem>, stats: Stats)
    requires NoDups(keys) && forall k :: k in keys ==> k in m
    ensures news == CompleteKeys(m, keys, page) && stats == Tally(keys, m, page)
  {
    news := m;
    stats := Stats(0, 0, 0);
    var i := 0;
    while i < |keys|
      invariant 0 <= i <= |keys|
      invariant news == CompleteKeys(m, keys[..i], page)
      invariant stats == Tally(keys[..i], m, page)
    {
      var key := keys[i];
      CompleteKeysNext(m, keys, page, i);
      TallyNext(keys, m, page, i);
      var item, o := CompleteOne(news[key], page);
      news := news[key := item];
      stats := Bump(stats, o);
      i := i + 1;
    }
    assert keys[..i] == keys;
  }

  // ---------------------------------------------------------------- crawler

  /** The prototype crawler: its seen-set and its collection of every news dict by seq. */
  class Crawler {
    var seenSeqs: set<Json>
    var allNews: map<Json, ScriptItem>
    /** The keys of `allNews` in insertion order, the order the dict iterates in. */
    var order: seq<Json>

    /** Every collected seq has been seen and every seen seq collected. */
    ghost predicate Valid()
      reads this
    {
      && allNews.Keys == seenSeqs
      && NoDups(order)
      && (forall k :: k in allNews <==> k in order)
    }

    constructor()
      ensures Valid() && seenSeqs == {} && allNews == map[] && order == []
    {
      seenSeqs := {};
      allNews := map[];
      order := [];
    }

    /**
     * `get_incremental_news`: None when it raises, leaving everything as it
     * was. Otherwise the new items are the batch's unseen truthy seqs,
     * which join the seen-set, and `all_news` gains the first version of each.
     */
    method GetIncrementalNews(fetch: RawFetch, loads: string -> Decoded, show: Json -> string)
      returns (r: Option<Incremental>)
      requires Valid()
      modifies this
      ensures Valid()
      ensures BatchOf(fetch, loads, show).None? <==> r.None?
      ensures r.None? ==> seenSeqs == old(seenSeqs) && allNews == old(allNews) && order == old(order)
      ensures r.Some? ==> var b := BatchOf(fetch, loads, show).value;
                          && r.value == b.(newItems := Fresh(b.allItems, old(seenSeqs)))
                          && seenSeqs == old(seenSeqs) + SeqsOf(b.allItems)
                          && allNews == AddFirst(old(allNews), b.allItems)
                          && order == old(order) + SeqList(r.value.newItems)
    {
      var b := BatchOf(fetch, loads, show);
      if b.None? {
        return None;
      }
      var newItems := Absorb(b.value.allItems);
      return Some(b.value.(newItems := newItems));
    }

    /** The loop of `get_incremental_news` over one batch. */
    method Absorb(items: seq<ScriptItem>) returns (newItems: seq<ScriptItem>)
      requires Valid()
      modifies this
      ensures Valid()
      ensures newItems == Fresh(items, old(seenSeqs))
      ensures seenSeqs == old(seenSeqs) + SeqsOf(items)
      ensures allNews == AddFirst(old(allNews), items)
      ensures order == old(order) + SeqList(newItems)
    {
      var b0 := Book(seenSeqs, allNews, order, []);
      var b := b0;
      var i := 0;
      while i < |items|
        invariant 0 <= i <= |items|
        invariant b == VisitAll(b0, items[..i])
      {
        var item := items[i];
        assert items[..i + 1][..i] == items[..i];
        if Truthy(item.seqNo) {
          if item.seqNo !in b.news {
            b := b.(news := b.news[item.seqNo := item], order := b.order + [item.seqNo]);
          }
          if item.seqNo !in b.seen {
            b := b.(seen := b.seen + {item.seqNo}, added := b.added + [item]);
          }
        }
        i := i + 1;
      }
      assert items[..i] == items;
      VisitAllTracks(b0.seen, b0.news, items);
      VisitAllOrder(b0.seen, b0.news, b0.order, items);
      seenSeqs, allNews, order, newItems := b.seen, b.news, b.order, b.added;
    }

    /**
     * `fetch_all_full_contents`: without the HTML parser every collected
     * item counts as skipped and nothing changes; otherwise each item
     * without text and with a URL is fetched, a found text is stored, and
     * the counters add up to the number of collected items.
     */
    method FetchAllFullContents(hasBs4: bool, page: string -> ThsCrawler.PageFetch) returns (stats: Stats)
      requires Valid()
      modifies this
      ensures Valid() && seenSeqs == old(seenSeqs) && order == old(order)
      ensures stats.success + stats.failed + stats.skipped == |allNews|
      ensures !hasBs4 ==> stats == Stats(0, 0, |allNews|) && allNews == old(allNews)
      ensures hasBs4 ==> stats == Tally(order, old(allNews), page)
      ensures hasBs4 ==> allNews.Keys == old(allNews).Keys
                         && forall k :: k in allNews ==> allNews[k] == Completed(old(allNews)[k], page)
    {
      NoDupsCard(order, allNews.Keys);
      if !hasBs4 {
        return Stats(0, 0, |allNews|);
      }
      var news;
      news, stats := CompleteAll(allNews, order, page);
      CompleteKeysSpec(old(allNews), order, page);
      allNews := news;
      TallyTotal(order, old(allNews), page);
    }
  }

  // ------------------------------------------------------------ formatting

  /** A summary cut to 200 characters plus "..." when longer. */
  function Excerpt(content: string): (r: string)
    ensures |content| <= 200 ==> r == content
    ensures |content| > 200 ==> |r| == 203 && r == content[..200] + "..."
  {
    if |content| > 200 then content[..200] + "..." else content
  }

  /** The lines of `format_news_detail`. */
  function DetailLines(it: ScriptItem, indent: string, show: Json -> string): (lines: seq<string>)
    ensures |lines| == 6 + (if Truthy(it.stockCode) then 1 else 0) + (if Truthy(it.implevel) then 1 else 0)
    ensures lines[0] == indent + "序号: " + Rendered(it.seqNo, show)
    ensures lines[4] == indent + "链接: " + it.url
    ensures lines[|lines| - 1] == indent + "内容摘要: " + Excerpt(it.content)
    ensures Truthy(it.stockCode) ==> lines[5] == indent + "相关股票: " + Rendered(it.stockCode, show)
    ensures Truthy(it.implevel) ==> lines[|lines| - 2] == indent + "重要程度: " + Rendered(it.implevel, show)
  {
    [indent + "序号: " + Rendered(it.seqNo, show),
     indent + "标题: " + it.title,
     indent + "发布时间: " + Rendered(it.pubDate, show),
     indent + "来源: " + Rendered(it.source, show),
     indent + "链接: " + it.url]
    + (if Truthy(it.stockCode) then [indent + "相关股票: " + Rendered(it.stockCode, show)] else [])
    + (if Truthy(it.implevel) then [indent + "重要程度: " + Rendered(it.implevel, show)] else [])
    + [indent + "内容摘要: " + Excerpt(it.content)]
  }

  /** `format_news_detail` */
  function FormatNewsDetail(it: ScriptItem, indent: string, show: Json -> string): string {
    Join(DetailLines(it, indent, show), "\n")
  }
}
