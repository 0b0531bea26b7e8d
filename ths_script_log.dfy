/**
 * The earlier logging prototype of the 7x24 feed crawler: it only keeps a
 * seen-set, reports the unseen items of each poll, and formats items with
 * the same detail layout (a four-space indent). Its news dicts have no
 * `full_content` key; the shared item type carries an empty one, which this
 * prototype never reads.
 */
module ThsScriptLog {
  import opened Common
  import ThsScript

  /** The success line of this prototype: item count and latest seq. */
  function ParseMessage(data: map<string, Json>, show: Json -> string): Option<string> {
    match ThsScript.PyLen(Get(data, "item", JList([])))
    case None => None
    case Some(n) =>
      Some("解析成功, " + NatToString(n) + " 条新闻, 最新序号: " + Rendered(Get(data, "latestNewsSeq", JNull), show))
  }

  /** `parse_jsonp`: the same slicing, key quoting and failure messages as the newer prototype. */
  function ParseJsonp(raw: string, loads: string -> Decoded, show: Json -> string): Option<ThsScript.ScriptParse> {
    ThsScript.ParseWith(raw, loads, data => ParseMessage(data, show))
  }

  /** `get_all_news`'s answer: the items, the fetch status and the parse status. */
  datatype AllNews = AllNews(items: seq<ThsScript.ScriptItem>, fetchStatus: string, parseStatus: string)

  /** `get_all_news`; None when it raises. */
  function AllNewsOf(fetch: ThsScript.RawFetch, loads: string -> Decoded, show: Json -> string): (r: Option<AllNews>)
    ensures r.Some? && r.value.items != [] ==>
              && fetch.RawText? && ParseJsonp(fetch.text, loads, show).Some?
              && ParseJsonp(fetch.text, loads, show).value.Parsed?
              && ThsScript.ItemsOf(ParseJsonp(fetch.text, loads, show).value.data) == Some(r.value.items)
  {
    var (raw, fs) := ThsScript.FetchRaw(fetch);
    if raw.None? || raw.value == "" then Some(AllNews([], fs, "未执行"))
    else
      match ParseJsonp(raw.value, loads, show)
      case None => None
      case Some(NotParsed(st)) => Some(AllNews([], fs, st))
      case Some(Parsed(data, st)) =>
        if data == map[] then Some(AllNews([], fs, st))
        else
          (match ThsScript.ItemsOf(data)
           case None => None
           case Some(items) => Some(AllNews(items, fs, st)))
  }

  /** A failed or empty fetch gives no items and the "not run" parse status. */
  lemma FailedFetch(fetch: ThsScript.RawFetch, loads: string -> Decoded, show: Json -> string)
    requires !fetch.RawText? || fetch.text == ""
    ensures AllNewsOf(fetch, loads, show) == Some(AllNews([], ThsScript.FetchRaw(fetch).1, "未执行"))
  {
  }

  /** One pass of the loop body over the seen-set and the new items so far. */
  function Mark(seen: set<Json>, added: seq<ThsScript.ScriptItem>, x: ThsScript.ScriptItem)
    : (set<Json>, seq<ThsScript.ScriptItem>)
  {
    if Truthy(x.seqNo) && x.seqNo !in seen then (seen + {x.seqNo}, added + [x]) else (seen, added)
  }

  function MarkAll(seen: set<Json>, items: seq<ThsScript.ScriptItem>): (set<Json>, seq<ThsScript.ScriptItem>)
    decreases |items|
  {
    if items == [] then (seen, [])
    else
      var (s, a) := MarkAll(seen, items[..|items| - 1]);
      Mark(s, a, items[|items| - 1])
  }

  /** One more item of the loop is one more `Mark`. */
  lemma MarkAllNext(seen: set<Json>, items: seq<ThsScript.ScriptItem>, i: int)
    requires 0 <= i < |items|
    ensures MarkAll(seen, items[..i + 1]) == Mark(MarkAll(seen, items[..i]).0, MarkAll(seen, items[..i]).1, items[i])
  {
    assert items[..i + 1][..i] == items[..i];
  }

  /** The loop reports exactly the fresh items and adds the batch's truthy seqs to the seen-set. */
  lemma {:induction false} MarkAllSpec(s0: set<Json>, items: seq<ThsScript.ScriptItem>)
    ensures MarkAll(s0, items) == (s0 + ThsScript.SeqsOf(items), ThsScript.Fresh(items, s0))
    decreases |items|
  {
    if items != [] {
      var p := items[..|items| - 1];
      var x := items[|items| - 1];
      MarkAllSpec(s0, p);
      assert items == p + [x];
      ThsScript.SeqsOfSnoc(p, x);
      var fp := ThsScript.Fresh(p, s0);
      assert MarkAll(s0, items) == Mark(s0 + ThsScript.SeqsOf(p), fp, x);
      if Truthy(x.seqNo) && x.seqNo !in s0 + ThsScript.SeqsOf(p) {
        assert ThsScript.Fresh(items, s0) == fp + [x];
        assert s0 + ThsScript.SeqsOf(items) == s0 + ThsScript.SeqsOf(p) + {x.seqNo};
      } else {
        assert ThsScript.Fresh(items, s0) == fp;
        assert s0 + ThsScript.SeqsOf(items) == s0 + ThsScript.SeqsOf(p);
      }
    } else {
      assert s0 + ThsScript.SeqsOf(items) == s0;
    }
  }

  /** The logging prototype's crawler: only its seen-set survives between polls. */
  class Crawler {
    var seenSeqs: set<Json>

    constructor()
      ensures seenSeqs == {}
    {
      seenSeqs := {};
    }

    /**
     * `get_incremental_news`: the new items are the batch's truthy seqs not
     * seen before, each at its first occurrence, and they join the seen-set.
     */
    method GetIncrementalNews(fetch: ThsScript.RawFetch, loads: string -> Decoded, show: Json -> string)
      returns (r: Option<(seq<ThsScript.ScriptItem>, AllNews)>)
      modifies this
      ensures AllNewsOf(fetch, loads, show).None? <==> r.None?
      ensures r.None? ==> seenSeqs == old(seenSeqs)
      ensures r.Some? ==> var all := AllNewsOf(fetch, loads, show).value;
                          && r.value == (ThsScript.Fresh(all.items, old(seenSeqs)), all)
                          && seenSeqs == old(seenSeqs) + ThsScript.SeqsOf(all.items)
    {
      var all := AllNewsOf(fetch, loads, show);
      if all.None? {
        return None;
      }
      var items := all.value.items;
      var s0 := seenSeqs;
      var seen := s0;
      var newItems: seq<ThsScript.ScriptItem> := [];
      var i := 0;
      while i < |items|
        invariant 0 <= i <= |items|
        invariant (seen, newItems) == MarkAll(s0, items[..i])
      {
        var item := items[i];
        MarkAllNext(s0, items, i);
        if Truthy(item.seqNo) && item.seqNo !in seen {
          seen := seen + {item.seqNo};
          newItems := newItems + [item];
        }
        i := i + 1;
      }
      assert items[..i] == items;
      MarkAllSpec(s0, items);
      seenSeqs := seen;
      return Some((newItems, all.value));
    }
  }
}
