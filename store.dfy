/**
 * The crawler's persistent table of raw items, as a map keyed by
 * (source id, seq). The SQL upsert becomes a per-column merge of the stored
 * row with the incoming one; the content update and the retention sweeps
 * become operations on the map.
 */
module CrawlStore {
  import opened Common
  import opened CrawlerBase

  /** The UNIQUE(source_id, seq) key of the raw table. */
  datatype RowKey = RowKey(sourceId: string, seqNo: string)

  /** One stored row; `extraData` is the item's `extra` as JSON text, or "" when it is empty. */
  datatype Row = Row(
    sourceName: string,
    title: string,
    summary: string,
    fullContent: string,
    url: string,
    publishedAt: string,
    extraData: string,
    crawlTime: string,
    firstSeen: string,
    lastSeen: string,
    contentFetched: bool,
    contentFetchError: string,
    contentFetchTime: string)

  type Store = map<RowKey, Row>

  /** `json.dumps(extra, ensure_ascii=False)` */
  type JsonDumps = map<string, Json> -> string

  /** The row an item is inserted as, at time `now` (crawl, first-seen and last-seen time alike). */
  function IncomingRow(sourceName: string, it: NewsItem, dumps: JsonDumps, now: string): (r: Row)
    ensures r.firstSeen == now && r.lastSeen == now && r.crawlTime == now
    ensures r.title == it.title && r.fullContent == it.fullContent && r.contentFetched == it.contentFetched
    ensures it.extra == map[] ==> r.extraData == ""
  {
    Row(sourceName, it.title, it.summary, it.fullContent, it.url, it.publishedAt,
        if it.extra != map[] then dumps(it.extra) else "",
        now, now, now, it.contentFetched, it.contentFetchError, it.contentFetchTime)
  }

  /** The ON CONFLICT DO UPDATE rule: the stored row `cur` meets an incoming row `inc`. */
  function MergeRow(cur: Row, inc: Row): Row {
    cur.(
      title := inc.title,
      summary := inc.summary,
      fullContent := if inc.fullContent != "" then inc.fullContent else cur.fullContent,
      lastSeen := inc.lastSeen,
      contentFetched := if inc.contentFetched then true else cur.contentFetched,
      contentFetchError := if inc.contentFetchError != "" then inc.contentFetchError else cur.contentFetchError,
      contentFetchTime := if inc.contentFetchTime != "" then inc.contentFetchTime else cur.contentFetchTime)
  }

  /**
   * What a merge keeps and what it takes: title, summary and last-seen come
   * from the incoming row; the three content columns change only to a
   * non-empty incoming value; `content_fetched` never goes back to false;
   * every other column, first-seen included, is the stored one.
   */
  lemma MergeRowColumns(cur: Row, inc: Row)
    ensures var m := MergeRow(cur, inc);
            && m.title == inc.title && m.summary == inc.summary && m.lastSeen == inc.lastSeen
            && (m.fullContent == inc.fullContent || (inc.fullContent == "" && m.fullContent == cur.fullContent))
            && (cur.fullContent != "" ==> m.fullContent != "")
            && (m.contentFetchError == inc.contentFetchError || (inc.contentFetchError == "" && m.contentFetchError == cur.contentFetchError))
            && (m.contentFetchTime == inc.contentFetchTime || (inc.contentFetchTime == "" && m.contentFetchTime == cur.contentFetchTime))
            && (m.contentFetched <==> cur.contentFetched || inc.contentFetched)
            && m.sourceName == cur.sourceName && m.url == cur.url && m.publishedAt == cur.publishedAt
            && m.extraData == cur.extraData && m.crawlTime == cur.crawlTime && m.firstSeen == cur.firstSeen
  {
  }

  /** Saving the same incoming row twice is the same as saving it once. */
  lemma MergeRowIdempotent(cur: Row, inc: Row)
    ensures MergeRow(MergeRow(cur, inc), inc) == MergeRow(cur, inc)
  {
  }

  /** A stored row merged with itself is unchanged. */
  lemma MergeRowSelf(r: Row)
    ensures MergeRow(r, r) == r
  {
  }

  /** INSERT … ON CONFLICT(source_id, seq) DO UPDATE */
  function Upsert(s: Store, k: RowKey, inc: Row): (r: Store)
    ensures r.Keys == s.Keys + {k}
    ensures k in s ==> r[k] == MergeRow(s[k], inc)
    ensures k !in s ==> r[k] == inc
    ensures forall k' :: k' in s && k' != k ==> r[k'] == s[k']
  {
    if k in s then s[k := MergeRow(s[k], inc)] else s[k := inc]
  }

  /** The seqs an item list brings for a source. */
  function ItemKeys(sourceId: string, items: seq<NewsItem>): set<RowKey> {
    set i | 0 <= i < |items| :: RowKey(sourceId, items[i].seqNo)
  }

  /** The loop of `_save_items`: every item upserted, in list order, all at the same `now`. */
  function SaveItems(s: Store, sourceId: string, sourceName: string, items: seq<NewsItem>,
                     dumps: JsonDumps, now: string): Store
    decreases |items|
  {
    if items == [] then s
    else
      var n := |items|;
      Upsert(SaveItems(s, sourceId, sourceName, items[..n - 1], dumps, now),
             RowKey(sourceId, items[n - 1].seqNo), IncomingRow(sourceName, items[n - 1], dumps, now))
  }

  lemma ItemKeysSnoc(sourceId: string, items: seq<NewsItem>)
    requires items != []
    ensures ItemKeys(sourceId, items)
            == ItemKeys(sourceId, items[..|items| - 1]) + {RowKey(sourceId, items[|items| - 1].seqNo)}
  {
    var n := |items|;
    forall k | k in ItemKeys(sourceId, items)
      ensures k in ItemKeys(sourceId, items[..n - 1]) + {RowKey(sourceId, items[n - 1].seqNo)}
    {
      var i :| 0 <= i < n && k == RowKey(sourceId, items[i].seqNo);
      if i < n - 1 {
        assert items[..n - 1][i] == items[i];
      }
    }
    forall k | k in ItemKeys(sourceId, items[..n - 1]) ensures k in ItemKeys(sourceId, items) {
      var i :| 0 <= i < n - 1 && k == RowKey(sourceId, items[..n - 1][i].seqNo);
      assert items[..n - 1][i] == items[i];
    }
  }

  /**
   * After saving, the table holds exactly the old keys plus one key per
   * distinct seq of the list: a seq that repeats, or that was stored
   * before, still has a single row. Rows of other keys are untouched.
   */
  lemma {:induction false} SaveItemsKeys(s: Store, sourceId: string, sourceName: string, items: seq<NewsItem>,
                                         dumps: JsonDumps, now: string)
    ensures var r := SaveItems(s, sourceId, sourceName, items, dumps, now);
            && r.Keys == s.Keys + ItemKeys(sourceId, items)
            && (forall k :: k in s && k !in ItemKeys(sourceId, items) ==> r[k] == s[k])
    decreases |items|
  {
    if items != [] {
      SaveItemsKeys(s, sourceId, sourceName, items[..|items| - 1], dumps, now);
      ItemKeysSnoc(sourceId, items);
    }
  }

  /**
   * A row that existed keeps its first-seen time through a save; a row the
   * save creates has first-seen `now`.
   */
  lemma {:induction false} SaveItemsFirstSeen(s: Store, sourceId: string, sourceName: string, items: seq<NewsItem>,
                                              dumps: JsonDumps, now: string)
    ensures var r := SaveItems(s, sourceId, sourceName, items, dumps, now);
            && (forall k :: k in s ==> k in r && r[k].firstSeen == s[k].firstSeen)
            && (forall k :: k in r && k !in s ==> r[k].firstSeen == now)
    decreases |items|
  {
    if items != [] {
      SaveItemsFirstSeen(s, sourceId, sourceName, items[..|items| - 1], dumps, now);
    }
  }

  /** The seqs stored for one source, as `_load_seen_items` reads them back. */
  function SeqsInStore(s: Store, sourceId: string): (r: set<string>)
    ensures forall q :: q in r <==> RowKey(sourceId, q) in s
  {
    set k | k in s && k.sourceId == sourceId :: k.seqNo
  }

  /**
   * Every item saved for a source is among the seqs read back for it, so a
   * manager registered again over the same table does not report them as new.
   */
  lemma SavedSeqsAreSeen(s: Store, sourceId: string, sourceName: string, items: seq<NewsItem>,
                         dumps: JsonDumps, now: string)
    ensures forall i :: 0 <= i < |items| ==>
              items[i].seqNo in SeqsInStore(SaveItems(s, sourceId, sourceName, items, dumps, now), sourceId)
    ensures SeqsInStore(s, sourceId) <= SeqsInStore(SaveItems(s, sourceId, sourceName, items, dumps, now), sourceId)
  {
    SaveItemsKeys(s, sourceId, sourceName, items, dumps, now);
    var r := SaveItems(s, sourceId, sourceName, items, dumps, now);
    forall i | 0 <= i < |items| ensures RowKey(sourceId, items[i].seqNo) in r {
      assert RowKey(sourceId, items[i].seqNo) in ItemKeys(sourceId, items);
    }
  }

  /**
   * `_update_item_content`: the four content columns of the item's row are
   * overwritten unconditionally; an item without a row changes nothing.
   */
  function UpdateContent(s: Store, sourceId: string, it: NewsItem): (r: Store)
    ensures r.Keys == s.Keys
    ensures forall k :: k in s && k != RowKey(sourceId, it.seqNo) ==> r[k] == s[k]
    ensures RowKey(sourceId, it.seqNo) in s ==>
              var row := r[RowKey(sourceId, it.seqNo)];
              && row.fullContent == it.fullContent && row.contentFetched == it.contentFetched
              && row.contentFetchError == it.contentFetchError && row.contentFetchTime == it.contentFetchTime
              && row == s[RowKey(sourceId, it.seqNo)].(fullContent := row.fullContent, contentFetched := row.contentFetched,
                                                       contentFetchError := row.contentFetchError, contentFetchTime := row.contentFetchTime)
  {
    var k := RowKey(sourceId, it.seqNo);
    if k in s then
      s[k := s[k].(fullContent := it.fullContent, contentFetched := it.contentFetched,
                   contentFetchError := it.contentFetchError, contentFetchTime := it.contentFetchTime)]
    else s
  }

  /**
   * Unlike the upsert, the content update can clear stored content: an
   * empty fetched content replaces a non-empty stored one.
   */
  lemma UpdateContentCanClear(s: Store, sourceId: string, it: NewsItem)
    requires RowKey(sourceId, it.seqNo) in s && it.fullContent == ""
    ensures UpdateContent(s, sourceId, it)[RowKey(sourceId, it.seqNo)].fullContent == ""
  {
  }

  // ---------------------------------------------------------------- retention

  /** `DELETE … WHERE first_seen < cutoff`, comparing the ISO timestamps as text. */
  function DropBefore(s: Store, cutoff: string): (r: Store)
    ensures forall k :: k in r <==> k in s && LexLe(cutoff, s[k].firstSeen)
    ensures forall k :: k in r ==> r[k] == s[k]
  {
    map k | k in s && LexLe(cutoff, s[k].firstSeen) :: s[k]
  }

  lemma LexLeRefl(a: string)
    ensures LexLe(a, a)
  {
    LexLeTotal(a, a);
  }

  /** The row that `ORDER BY first_seen ASC LIMIT 1` picks: one with the smallest first-seen time. */
  method OldestKey(s: Store) returns (m: RowKey)
    requires s != map[]
    ensures m in s && forall k :: k in s ==> LexLe(s[m].firstSeen, s[k].firstSeen)
  {
    var todo := s.Keys;
    assert todo != {} by {
      var k0 :| k0 in s;
    }
    m :| m in todo;
    LexLeRefl(s[m].firstSeen);
    todo := todo - {m};
    while todo != {}
      invariant todo <= s.Keys && m in s && m !in todo
      invariant forall k :: k in s && k !in todo ==> LexLe(s[m].firstSeen, s[k].firstSeen)
      decreases |todo|
    {
      var k :| k in todo;
      LexLeTotal(s[m].firstSeen, s[k].firstSeen);
      if !LexLe(s[m].firstSeen, s[k].firstSeen) {
        forall k' | k' in s && k' !in todo
          ensures LexLe(s[k].firstSeen, s[k'].firstSeen)
        {
          LexLeTrans(s[k].firstSeen, s[m].firstSeen, s[k'].firstSeen);
        }
        LexLeRefl(s[k].firstSeen);
        m := k;
      }
      todo := todo - {k};
    }
  }
}
