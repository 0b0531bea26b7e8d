/**
 * The 10jqka TAPP JSON crawler (`THSTappCrawler`): the list endpoint's
 * response checks, the extraction of each entry (timestamp, stocks,
 * sectors, tags, importance and colour) and the newest-first stable sort.
 * Its full-content fetch is the JSONP crawler's, modelled in `ThsCrawler`.
 *
 * The time-zone formatting of a Unix timestamp is a parameter: it gives the
 * formatted text, or None where `fromtimestamp` raises.
 */
module ThsTapp {
  import opened Common
  import opened CrawlerBase

  const SourceId := "ths-realtime"
  const SourceName := "同花顺7x24"
  const DefaultSource := "同花顺"

  // ------------------------------------------------------------ stable sort

  predicate SortedDesc<T>(s: seq<T>, key: T -> int) {
    forall i, j :: 0 <= i < j < |s| ==> key(s[i]) >= key(s[j])
  }

  /** The elements whose key is `k`. */
  function HasKey<T>(key: T -> int, k: int): T -> bool {
    y => key(y) == k
  }

  /** Inserts `x` after every element whose key is at least its own. */
  function InsertDesc<T>(r: seq<T>, x: T, key: T -> int): (q: seq<T>)
    ensures |q| == |r| + 1
    decreases |r|
  {
    if r == [] then [x]
    else if key(r[0]) >= key(x) then [r[0]] + InsertDesc(r[1..], x, key)
    else [x] + r
  }

  /** `list.sort(key=key, reverse=True)`: descending by key, equal keys in their original order. */
  function SortDesc<T>(s: seq<T>, key: T -> int): (r: seq<T>)
    ensures |r| == |s|
    decreases |s|
  {
    if s == [] then []
    else InsertDesc(SortDesc(s[..|s| - 1], key), s[|s| - 1], key)
  }

  /** Keeping from a sequence with one element in front. */
  lemma KeepIfCons<T>(a: T, t: seq<T>, p: T -> bool)
    ensures KeepIf([a] + t, p) == (if p(a) then [a] else []) + KeepIf(t, p)
  {
    assert ([a] + t)[0] == a && ([a] + t)[1..] == t;
  }

  /** The tail of a sorted sequence is sorted. */
  lemma SortedDescTail<T>(r: seq<T>, key: T -> int)
    requires SortedDesc(r, key) && r != []
    ensures SortedDesc(r[1..], key)
    ensures forall y :: y in r[1..] ==> key(y) <= key(r[0])
  {
    var t := r[1..];
    forall i, j | 0 <= i < j < |t| ensures key(t[i]) >= key(t[j]) {
      assert t[i] == r[i + 1] && t[j] == r[j + 1];
    }
    forall y | y in t ensures key(y) <= key(r[0]) {
      var j :| 0 <= j < |t| && t[j] == y;
      assert r[j + 1] == y;
    }
  }

  /** Inserting adds exactly `x`. */
  lemma {:induction false} InsertDescPerm<T>(r: seq<T>, x: T, key: T -> int)
    ensures multiset(InsertDesc(r, x, key)) == multiset(r) + multiset{x}
    decreases |r|
  {
    if r != [] && key(r[0]) >= key(x) {
      InsertDescPerm(r[1..], x, key);
      assert r == [r[0]] + r[1..];
    }
  }

  /** Inserting keeps the order sorted. */
  /** An element no smaller than every key of a sorted sequence can go in front of it. */
  lemma SortedDescCons<T>(a: T, t: seq<T>, key: T -> int)
    requires SortedDesc(t, key)
    requires forall y :: y in t ==> key(y) <= key(a)
    ensures SortedDesc([a] + t, key)
  {
    var q := [a] + t;
    forall i, j | 0 <= i < j < |q| ensures key(q[i]) >= key(q[j]) {
      assert q[j] == t[j - 1];
      if i > 0 {
        assert q[i] == t[i - 1];
      } else {
        assert t[j - 1] in t;
      }
    }
  }

  lemma {:induction false} InsertDescSorted<T>(r: seq<T>, x: T, key: T -> int)
    requires SortedDesc(r, key)
    ensures SortedDesc(InsertDesc(r, x, key), key)
    ensures forall y :: y in InsertDesc(r, x, key) ==> y == x || y in r
    decreases |r|
  {
    if r != [] && key(r[0]) >= key(x) {
      var t := r[1..];
      SortedDescTail(r, key);
      InsertDescSorted(t, x, key);
      assert InsertDesc(r, x, key) == [r[0]] + InsertDesc(t, x, key);
      SortedDescCons(r[0], InsertDesc(t, x, key), key);
    } else if r != [] {
      SortedDescTail(r, key);
      assert r == [r[0]] + r[1..];
      SortedDescCons(x, r, key);
    }
  }

  /** The keyed elements after inserting `x`: those before plus `x` when it has the key. */
  function KeyedAfter<T>(r: seq<T>, x: T, key: T -> int, k: int): seq<T> {
    KeepIf(r, HasKey(key, k)) + (if key(x) == k then [x] else [])
  }

  /** Prefixing both sides of `u == v + w` with `h` regroups the right side. */
  lemma PrefixRegroup<T>(h: seq<T>, u: seq<T>, v: seq<T>, w: seq<T>)
    requires u == v + w
    ensures h + u == (h + v) + w
  {
  }

  /** Putting the same element in front of two sequences keeps their filtered parts apart by the same suffix. */
  lemma KeepIfConsAppend<T>(a: T, q: seq<T>, t: seq<T>, p: T -> bool, added: seq<T>)
    requires KeepIf(q, p) == KeepIf(t, p) + added
    ensures KeepIf([a] + q, p) == KeepIf([a] + t, p) + added
  {
    KeepIfCons(a, q, p);
    KeepIfCons(a, t, p);
    PrefixRegroup(if p(a) then [a] else [], KeepIf(q, p), KeepIf(t, p), added);
  }

  /** Inserting behind the head: the head is kept or dropped as before, the rest by induction. */
  lemma InsertDescStableBehind<T>(r: seq<T>, x: T, key: T -> int, k: int)
    requires r != [] && key(r[0]) >= key(x)
    requires KeepIf(InsertDesc(r[1..], x, key), HasKey(key, k)) == KeyedAfter(r[1..], x, key, k)
    ensures KeepIf(InsertDesc(r, x, key), HasKey(key, k)) == KeyedAfter(r, x, key, k)
  {
    var t := r[1..];
    assert InsertDesc(r, x, key) == [r[0]] + InsertDesc(t, x, key);
    assert r == [r[0]] + t;
    KeepIfConsAppend(r[0], InsertDesc(t, x, key), t, HasKey(key, k), if key(x) == k then [x] else []);
  }

  /** Inserting in front of a head with a smaller key. */
  lemma InsertDescStableFront<T>(r: seq<T>, x: T, key: T -> int, k: int)
    requires SortedDesc(r, key) && r != [] && key(r[0]) < key(x)
    ensures KeepIf(InsertDesc(r, x, key), HasKey(key, k)) == KeyedAfter(r, x, key, k)
  {
    var p := HasKey(key, k);
    assert InsertDesc(r, x, key) == [x] + r;
    KeepIfCons(x, r, p);
    if key(x) == k {
      KeepIfNone(r, key, k);
      assert KeepIf([x] + r, p) == [x] + [];
    } else {
      assert KeepIf([x] + r, p) == [] + KeepIf(r, p);
    }
  }

  /** Inserting puts `x` behind every element of its own key. */
  lemma {:induction false} InsertDescStable<T>(r: seq<T>, x: T, key: T -> int, k: int)
    requires SortedDesc(r, key)
    ensures KeepIf(InsertDesc(r, x, key), HasKey(key, k)) == KeepIf(r, HasKey(key, k)) + (if key(x) == k then [x] else [])
    decreases |r|
  {
    if r == [] {
      KeepIfCons(x, [], HasKey(key, k));
      assert [x] + [] == [x];
    } else if key(r[0]) >= key(x) {
      SortedDescTail(r, key);
      InsertDescStable(r[1..], x, key, k);
      InsertDescStableBehind(r, x, key, k);
    } else {
      InsertDescStableFront(r, x, key, k);
    }
  }

  /** In a sorted sequence whose first key is below `k`, nothing has key `k`. */
  lemma KeepIfNone<T>(r: seq<T>, key: T -> int, k: int)
    requires SortedDesc(r, key) && r != [] && key(r[0]) < k
    ensures KeepIf(r, HasKey(key, k)) == []
  {
    forall y | y in r ensures !HasKey(key, k)(y) {
      var j :| 0 <= j < |r| && r[j] == y;
      assert j == 0 || key(r[0]) >= key(r[j]);
    }
    KeepIfNothing(r, HasKey(key, k));
  }

  /** Nothing is kept when no element qualifies. */
  lemma {:induction false} KeepIfNothing<T>(s: seq<T>, p: T -> bool)
    requires forall y :: y in s ==> !p(y)
    ensures KeepIf(s, p) == []
  {
    if s != [] {
      assert s[0] in s;
      KeepIfNothing(s[1..], p);
    }
  }

  /**
   * The sort is sorted, a permutation of its input, and stable: the
   * elements of each key keep their relative order.
   */
  lemma {:induction false} SortDescSpec<T>(s: seq<T>, key: T -> int)
    ensures SortedDesc(SortDesc(s, key), key)
    ensures multiset(SortDesc(s, key)) == multiset(s)
    ensures forall k :: KeepIf(SortDesc(s, key), HasKey(key, k)) == KeepIf(s, HasKey(key, k))
    decreases |s|
  {
    if s != [] {
      var n := |s|;
      var pre := s[..n - 1];
      SortDescSpec(pre, key);
      InsertDescSorted(SortDesc(pre, key), s[n - 1], key);
      InsertDescPerm(SortDesc(pre, key), s[n - 1], key);
      assert s == pre + [s[n - 1]];
      forall k ensures KeepIf(SortDesc(s, key), HasKey(key, k)) == KeepIf(s, HasKey(key, k)) {
        InsertDescStable(SortDesc(pre, key), s[n - 1], key, k);
        KeepIfSnoc(pre, s[n - 1], HasKey(key, k));
      }
    }
  }

  // ---------------------------------------------------------- entry fields

  /** `item.get(key, default)` read as text; None when the value is not a string. */
  function TextField(f: map<string, Json>, key: string, default: Json): Option<string> {
    match Get(f, key, default)
    case JStr(s) => Some(s)
    case _ => None
  }

  /**
   * `published_at`: empty when `ctime` is falsy or `int()` or the formatting
   * raises a ValueError or OSError; None when `int()` raises a TypeError,
   * which the `except` does not catch.
   */
  function PublishedAt(ctime: Json, format: int -> Option<string>): (r: Option<string>)
    ensures r.None? <==> Truthy(ctime) && PyInt(ctime).TypeErr?
    ensures !Truthy(ctime) ==> r == Some("")
  {
    if !Truthy(ctime) then Some("")
    else match PyInt(ctime)
      case IntOk(n) => Some(match format(n) case Some(t) => t case None => "")
      case ValueErr => Some("")
      case TypeErr => None
  }

  /** `_ctime` as written: `int(ctime) if ctime else 0`, outside any `try`. None when it raises. */
  function SortKeyAsWritten(ctime: Json): Option<int> {
    if !Truthy(ctime) then Some(0)
    else match PyInt(ctime)
      case IntOk(n) => Some(n)
      case _ => None
  }

  /** `_ctime` as intended: a timestamp `int()` rejects with a ValueError sorts as 0, like a missing one. */
  function SortKey(ctime: Json): Option<int> {
    if !Truthy(ctime) then Some(0)
    else match PyInt(ctime)
      case IntOk(n) => Some(n)
      case ValueErr => Some(0)
      case TypeErr => None
  }

  /**
   * The intended sort key raises exactly when the timestamp formatting
   * does, and agrees with the code as written wherever that does not raise.
   */
  lemma SortKeySpec(ctime: Json, format: int -> Option<string>)
    ensures SortKey(ctime).Some? <==> PublishedAt(ctime, format).Some?
    ensures SortKeyAsWritten(ctime).Some? ==> SortKey(ctime) == SortKeyAsWritten(ctime)
    ensures PyInt(ctime).IntOk? && Truthy(ctime) ==> SortKey(ctime) == Some(PyInt(ctime).n)
  {
  }

  /** `int("abc")` raises a ValueError. */
  lemma NotANumber()
    ensures PyInt(JStr("abc")) == ValueErr
  {
    var t := "abc";
    assert TrimLeft(t) == t by {
      assert !IsSpace(t[0]);
    }
    assert TrimRight(t) == t by {
      assert !IsSpace(t[2]);
    }
    assert !DigitRun(t) by {
      assert !IsDecimal(t[0]) && t[0] != '_';
    }
  }

  /** A timestamp text that is not a number: tolerated by the formatting, fatal for the sort key. */
  lemma SortKeyAsWrittenRaises(format: int -> Option<string>)
    ensures PublishedAt(JStr("abc"), format) == Some("")
    ensures SortKeyAsWritten(JStr("abc")).None?
    ensures SortKey(JStr("abc")) == Some(0)
  {
    NotANumber();
  }

  /** `int(v) if v else default`, with a ValueError or TypeError giving the default. */
  function IntOr(v: Json, default: int): (r: int)
    ensures !Truthy(v) ==> r == default
    ensures Truthy(v) && PyInt(v).IntOk? ==> r == PyInt(v).n
    ensures Truthy(v) && !PyInt(v).IntOk? ==> r == default
  {
    if !Truthy(v) then default
    else match PyInt(v)
      case IntOk(n) => n
      case _ => default
  }

  /** One stock of the `stock` list; None when the entry is not a dict. */
  function StockEntry(s: Json): Option<Option<Json>> {
    if !s.JObj? then None
    else Some(Some(JObj(map["name" := Get(s.fields, "name", JNull), "code" := Get(s.fields, "stockCode", JNull),
                            "market" := Get(s.fields, "stockMarket", JNull)])))
  }

  /** One sector of the `field` list. */
  function FieldEntry(s: Json): Option<Option<Json>> {
    if !s.JObj? then None
    else Some(Some(JObj(map["name" := Get(s.fields, "name", JNull), "code" := Get(s.fields, "stockCode", JNull)])))
  }

  /** One tag of the `tags` list: its name. */
  function TagEntry(s: Json): Option<Option<Json>> {
    if !s.JObj? then None else Some(Some(Get(s.fields, "name", JNull)))
  }

  /** A list comprehension over a truthy value: None when iterating it or reading an element raises. */
  function ListOf(v: Json, entry: Json -> Option<Option<Json>>): Option<Json> {
    match DictEntries(v)
    case None => None
    case Some(es) =>
      match TryCollect(es, entry)
      case None => None
      case Some(vs) => Some(JList(vs))
  }

  /** Adds `key := v` when `v` is Some; None propagates. */
  function PutIf(m: Option<map<string, Json>>, cond: bool, key: string, v: Option<Json>): Option<map<string, Json>> {
    if m.None? then None
    else if !cond then m
    else if v.None? then None
    else Some(m.value[key := v.value])
  }

  /**
   * The `extra` map of an entry, with `sortKey` as `_ctime`; None when
   * building the stock, sector or tag list raises.
   */
  function TappExtra(f: map<string, Json>, sortKey: int): Option<map<string, Json>> {
    var stocks := Get(f, "stock", JList([]));
    var fields := Get(f, "field", JList([]));
    var tags := Get(f, "tags", JList([]));
    var importance := IntOr(Get(f, "import", JInt(0)), 0);
    var color := IntOr(Get(f, "color", JInt(1)), 1);
    var m0 := PutIf(Some(map[]), Truthy(stocks), "stocks", ListOf(stocks, StockEntry));
    var m1 := PutIf(m0, Truthy(fields), "fields", ListOf(fields, FieldEntry));
    var m2 := PutIf(m1, Truthy(tags), "tags", ListOf(tags, TagEntry));
    var m3 := PutIf(m2, importance != 0, "importance", Some(JInt(importance)));
    var m4 := PutIf(m3, color > 1, "highlight", Some(JBool(true)));
    PutIf(m4, true, "_ctime", Some(JInt(sortKey)))
  }

  /**
   * The extra map has the sort key, an importance exactly when it is a
   * non-zero integer, a highlight exactly when the colour is above 1, and
   * each list exactly when its source value is truthy.
   */
  lemma TappExtraSpec(f: map<string, Json>, sortKey: int)
    ensures TappExtra(f, sortKey).Some? ==>
              var m := TappExtra(f, sortKey).value;
              && m["_ctime"] == JInt(sortKey)
              && ("importance" in m <==> IntOr(Get(f, "import", JInt(0)), 0) != 0)
              && ("importance" in m ==> m["importance"] == JInt(IntOr(Get(f, "import", JInt(0)), 0)))
              && ("highlight" in m <==> IntOr(Get(f, "color", JInt(1)), 1) > 1)
              && ("stocks" in m <==> Truthy(Get(f, "stock", JList([]))))
              && ("fields" in m <==> Truthy(Get(f, "field", JList([]))))
              && ("tags" in m <==> Truthy(Get(f, "tags", JList([]))))
    ensures TappExtra(f, sortKey).None? <==>
              || (Truthy(Get(f, "stock", JList([]))) && ListOf(Get(f, "stock", JList([])), StockEntry).None?)
              || (Truthy(Get(f, "field", JList([]))) && ListOf(Get(f, "field", JList([])), FieldEntry).None?)
              || (Truthy(Get(f, "tags", JList([]))) && ListOf(Get(f, "tags", JList([])), TagEntry).None?)
  {
  }

  /**
   * One entry of `data.list`, with `key` computing `_ctime`: None when
   * reading it raises, Some(None) when it has no truthy seq, else the item.
   */
  function EntryWith(e: Json, format: int -> Option<string>, key: Json -> Option<int>): Option<Option<NewsItem>> {
    if !e.JObj? then None
    else if !Truthy(Get(e.fields, "seq", JNull)) then Some(None)
    else match EntryItem(e.fields, format, key)
      case Some(it) => Some(Some(it))
      case None => None
  }

  /** The item of an entry with a seq; None when a field read raises. */
  function EntryItem(f: map<string, Json>, format: int -> Option<string>, key: Json -> Option<int>): Option<NewsItem>
    requires "seq" in f
  {
    var ctime := Get(f, "ctime", JInt(0));
    match (PyStr(f["seq"]), PublishedAt(ctime, format), key(ctime))
    case (Some(sq), Some(published), Some(k)) =>
      (match (TappExtra(f, k), TextField(f, "title", JStr("")),
              TextField(f, "digest", Get(f, "short", JStr(""))), TextField(f, "url", JStr("")))
       case (Some(extra), Some(title), Some(summary), Some(url)) =>
         (match Or(Get(f, "source", JStr("")), JStr(DefaultSource))
          case JStr(src) =>
            Some(NewsItem(sq, Strip(title), Strip(summary), "", url, published, src, "", extra,
                          false, "", "", [], false, "", "", ""))
          case _ => None)
       case _ => None)
    case _ => None
  }

  /** An entry as the code is written. */
  function EntryAsWritten(e: Json, format: int -> Option<string>): Option<Option<NewsItem>> {
    EntryWith(e, format, SortKeyAsWritten)
  }

  /** An entry with the intended sort key. */
  function TappEntry(format: int -> Option<string>): Json -> Option<Option<NewsItem>> {
    e => EntryWith(e, format, SortKey)
  }

  /** A sort key that raises makes the whole entry raise. */
  lemma EntryKeyRaises(f: map<string, Json>, format: int -> Option<string>, key: Json -> Option<int>)
    requires "seq" in f && key(Get(f, "ctime", JInt(0))).None?
    ensures EntryItem(f, format, key).None?
  {
  }

  /** An entry whose timestamp is not a number makes the code as written raise, but not the intended one. */
  lemma EntryAsWrittenRaises(format: int -> Option<string>)
    ensures var e := JObj(map["seq" := JStr("1"), "ctime" := JStr("abc")]);
            && EntryAsWritten(e, format).None?
            && EntryWith(e, format, SortKey).Some? && EntryWith(e, format, SortKey).value.Some?
  {
    var f := map["seq" := JStr("1"), "ctime" := JStr("abc")];
    var e := JObj(f);
    assert Get(f, "ctime", JInt(0)) == JStr("abc");
    assert Truthy(Get(f, "seq", JNull));
    SortKeyAsWrittenRaises(format);
    assert EntryAsWritten(e, format).None? by {
      EntryKeyRaises(f, format, SortKeyAsWritten);
    }
    assert f.Keys == {"seq", "ctime"};
    PlainEntryItem(f, format);
  }

  /**
   * An entry with a seq, a timestamp the formatting accepts, and none of
   * the other keys gives an item.
   */
  lemma PlainEntryItem(f: map<string, Json>, format: int -> Option<string>)
    requires f.Keys == {"seq", "ctime"} && f["seq"] == JStr("1")
    requires PublishedAt(f["ctime"], format).Some? && SortKey(f["ctime"]).Some?
    ensures EntryItem(f, format, SortKey).Some?
  {
    var absent := ["stock", "field", "tags", "import", "color", "title", "digest", "short", "url", "source"];
    assert forall k :: k in absent ==> k !in f;
    PlainExtra(f, SortKey(f["ctime"]).value);
    assert TextField(f, "title", JStr("")) == Some("");
    assert TextField(f, "digest", Get(f, "short", JStr(""))) == Some("");
    assert TextField(f, "url", JStr("")) == Some("");
    assert Or(Get(f, "source", JStr("")), JStr(DefaultSource)) == JStr(DefaultSource);
    assert PyStr(f["seq"]) == Some("1");
  }

  /** Without the list, importance and colour keys the extra map is just the sort key. */
  lemma PlainExtra(f: map<string, Json>, sortKey: int)
    requires "stock" !in f && "field" !in f && "tags" !in f && "import" !in f && "color" !in f
    ensures TappExtra(f, sortKey) == Some(map["_ctime" := JInt(sortKey)])
  {
  }

  /**
   * An item from an entry carries the entry's seq as text (never empty),
   * its stripped title, its digest (else short text) stripped, the intended
   * sort key as `_ctime`, and a source that falls back to the default when
   * empty or missing.
   */
  lemma TappEntrySpec(e: Json, format: int -> Option<string>)
    ensures e.JObj? && !Truthy(Get(e.fields, "seq", JNull)) ==> TappEntry(format)(e) == Some(None)
    ensures TappEntry(format)(e).Some? && TappEntry(format)(e).value.Some? ==>
              var it := TappEntry(format)(e).value.value;
              var f := e.fields;
              && e.JObj? && Truthy(Get(f, "seq", JNull))
              && Some(it.seqNo) == PyStr(f["seq"]) && it.seqNo != ""
              && Some(it.title) == StripText(TextField(f, "title", JStr("")))
              && Some(it.summary) == StripText(TextField(f, "digest", Get(f, "short", JStr(""))))
              && Some(it.publishedAt) == PublishedAt(Get(f, "ctime", JInt(0)), format)
              && it.extra["_ctime"] == JInt(SortKey(Get(f, "ctime", JInt(0))).value)
              && it.source != ""
              && !it.contentFetched
  {
    if e.JObj? && Truthy(Get(e.fields, "seq", JNull)) {
      TruthySeqText(e.fields["seq"]);
      var f := e.fields;
      var ctime := Get(f, "ctime", JInt(0));
      if SortKey(ctime).Some? {
        TappExtraSpec(f, SortKey(ctime).value);
      }
    }
  }

  /** `Strip` lifted to an optional text. */
  function StripText(s: Option<string>): Option<string> {
    match s
    case Some(t) => Some(Strip(t))
    case None => None
  }

  /** `str` of a truthy scalar is never empty. */
  lemma TruthySeqText(j: Json)
    requires Truthy(j)
    ensures PyStr(j).Some? ==> PyStr(j).value != ""
  {
    if j.JInt? {
      var n := if j.i < 0 then -j.i else j.i;
      assert |NatToString(n)| >= 1;
    }
  }

  /** The sort key of an item: its `_ctime`, else 0. */
  function CtimeOf(it: NewsItem): int {
    match Get(it.extra, "_ctime", JInt(0))
    case JInt(n) => n
    case _ => 0
  }

  /** The items of the entries, sorted newest first; None when some entry raises. */
  function ExtractAll(es: seq<Json>, format: int -> Option<string>): Option<seq<NewsItem>> {
    match TryCollect(es, TappEntry(format))
    case None => None
    case Some(items) => Some(SortDesc(items, CtimeOf))
  }

  /**
   * The extracted items are newest first, exactly the items of the entries
   * with a seq (as a multiset), and items of equal time stay in feed order;
   * extraction raises exactly when some entry does.
   */
  lemma ExtractAllSpec(es: seq<Json>, format: int -> Option<string>)
    ensures ExtractAll(es, format).None? <==> exists k :: 0 <= k < |es| && TappEntry(format)(es[k]).None?
    ensures ExtractAll(es, format).Some? ==>
              var items := ExtractAll(es, format).value;
              var unsorted := TryCollect(es, TappEntry(format)).value;
              && SortedDesc(items, CtimeOf)
              && multiset(items) == multiset(unsorted)
              && (forall k :: KeepIf(items, HasKey(CtimeOf, k)) == KeepIf(unsorted, HasKey(CtimeOf, k)))
              && (forall it :: it in items <==> exists k :: 0 <= k < |es| && TappEntry(format)(es[k]) == Some(Some(it)))
  {
    TryCollectFails(es, TappEntry(format));
    if ExtractAll(es, format).Some? {
      var unsorted := TryCollect(es, TappEntry(format)).value;
      var items := ExtractAll(es, format).value;
      SortDescSpec(unsorted, CtimeOf);
      forall it ensures it in items <==> exists k :: 0 <= k < |es| && TappEntry(format)(es[k]) == Some(Some(it)) {
        assert it in items <==> it in multiset(items);
        assert it in unsorted <==> it in multiset(unsorted);
        if it in unsorted {
          TryCollectSound(es, TappEntry(format), it);
        }
        if exists k :: 0 <= k < |es| && TappEntry(format)(es[k]) == Some(Some(it)) {
          var k :| 0 <= k < |es| && TappEntry(format)(es[k]) == Some(Some(it));
          TryCollectComplete(es, TappEntry(format), k);
        }
      }
    }
  }

  /** `_extract_news_items`: None when it raises. */
  method ExtractNewsItems(data: map<string, Json>, format: int -> Option<string>) returns (r: Option<seq<NewsItem>>)
    ensures r == (match Get(data, "data", JObj(map[]))
                  case JObj(d) =>
                    (match DictEntries(Get(d, "list", JList([])))
                     case Some(es) => ExtractAll(es, format)
                     case None => None)
                  case _ => None)
  {
    var payload := Get(data, "data", JObj(map[]));
    if !payload.JObj? {
      return None;
    }
    var entries := DictEntries(Get(payload.fields, "list", JList([])));
    if entries.None? {
      return None;
    }
    var es := entries.value;
    var entry := TappEntry(format);
    var items: seq<NewsItem> := [];
    var i := 0;
    while i < |es|
      invariant 0 <= i <= |es|
      invariant TryCollect(es[..i], entry) == Some(items)
    {
      TryCollectNext(es, entry, i);
      var e := entry(es[i]);
      if e.None? {
        TryCollectRaised(es, entry, i + 1);
        return None;
      }
      if e.value.Some? {
        items := items + [e.value.value];
      }
      i := i + 1;
    }
    assert es[..i] == es;
    return Some(SortDesc(items, CtimeOf));
  }

  // ---------------------------------------------------------------- the list

  /** What the GET of the list endpoint did; a response carries the outcome of `resp.json()`. */
  datatype TappResponse =
    | Response(statusCode: int, body: Decoded)
    | RequestTimeout
    | ConnectionFailed(message: string)
    | RequestFailed(message: string)

  function ListFailure(status: FetchStatus, message: string, now: string): CrawlResult {
    MakeCrawlResult(SourceId, SourceName, [], status, message, "", "", 0, 0, now)
  }

  /** The items and API time of a decoded body whose code is "200"; None when reading them raises. */
  function ItemsOf(data: map<string, Json>, format: int -> Option<string>): Option<(seq<NewsItem>, string)> {
    match Get(data, "data", JObj(map[]))
    case JObj(d) =>
      (match (DictEntries(Get(d, "list", JList([]))), TextField(data, "time", JStr("")))
       case (Some(es), Some(t)) =>
         (match ExtractAll(es, format)
          case Some(items) => Some((items, t))
          case None => None)
       case _ => None)
    case _ => None
  }

  /**
   * `fetch_news_list`: `raisedText` is the text of an exception raised
   * while the body is read, `render` renders a non-scalar `msg`.
   */
  function NewsListOf(resp: TappResponse, format: int -> Option<string>, render: Json -> string,
                      raisedText: string, now: string): CrawlResult
  {
    match resp
    case RequestTimeout => ListFailure(Timeout, "请求超时", now)
    case ConnectionFailed(m) => ListFailure(NetworkError, "连接错误: " + Take(m, 100), now)
    case RequestFailed(m) => ListFailure(UnknownError, "未知错误: " + Take(m, 100), now)
    case Response(code, body) =>
      if code != 200 then ListFailure(NetworkError, "HTTP " + IntToString(code), now)
      else match body
        case DecodeFailed(m) => ListFailure(UnknownError, "未知错误: " + Take(m, 100), now)
        case DecodeOk(JObj(data)) =>
          if Get(data, "code", JNull) != JStr("200") then
            ListFailure(ParseError, "API 错误: " + Rendered(Get(data, "msg", JStr("unknown")), render), now)
          else
            (match ItemsOf(data, format)
             case None => ListFailure(UnknownError, "未知错误: " + Take(raisedText, 100), now)
             case Some((items, t)) => MakeCrawlResult(SourceId, SourceName, items, Success, "", "", t, |items|, 0, now))
        case DecodeOk(_) => ListFailure(UnknownError, "未知错误: " + Take(raisedText, 100), now)
  }

  /**
   * The API code must be the text "200" (a number 200 is refused) for the
   * list to succeed; a success carries the extracted items and counts them,
   * and every failure has no items.
   */
  lemma NewsListStatus(resp: TappResponse, format: int -> Option<string>, render: Json -> string,
                       raisedText: string, now: string)
    ensures var r := NewsListOf(resp, format, render, raisedText, now);
            && (r.status == Success <==>
                  && resp.Response? && resp.statusCode == 200 && resp.body.DecodeOk? && resp.body.value.JObj?
                  && Get(resp.body.value.fields, "code", JNull) == JStr("200")
                  && ItemsOf(resp.body.value.fields, format).Some?)
            && (r.status == Success ==> r.items == ItemsOf(resp.body.value.fields, format).value.0
                                        && r.totalCount == |r.items|)
            && (r.status != Success ==> r.items == [] && r.totalCount == 0)
            && (&& resp.Response? && resp.statusCode == 200 && resp.body.DecodeOk? && resp.body.value.JObj?
                && Get(resp.body.value.fields, "code", JNull) == JInt(200)
                ==> r.status == ParseError)
  {
  }

  /** `fetch_news_list` as a method: it runs the extraction loop. */
  method FetchNewsList(resp: TappResponse, format: int -> Option<string>, render: Json -> string,
                       raisedText: string, now: string) returns (r: CrawlResult)
    ensures r == NewsListOf(resp, format, render, raisedText, now)
  {
    match resp {
      case RequestTimeout => return ListFailure(Timeout, "请求超时", now);
      case ConnectionFailed(m) => return ListFailure(NetworkError, "连接错误: " + Take(m, 100), now);
      case RequestFailed(m) => return ListFailure(UnknownError, "未知错误: " + Take(m, 100), now);
      case Response(code, body) =>
        if code != 200 {
          return ListFailure(NetworkError, "HTTP " + IntToString(code), now);
        }
        if body.DecodeFailed? {
          return ListFailure(UnknownError, "未知错误: " + Take(body.message, 100), now);
        }
        if !body.value.JObj? {
          return ListFailure(UnknownError, "未知错误: " + Take(raisedText, 100), now);
        }
        var data := body.value.fields;
        if Get(data, "code", JNull) != JStr("200") {
          return ListFailure(ParseError, "API 错误: " + Rendered(Get(data, "msg", JStr("unknown")), render), now);
        }
        var items := ExtractNewsItems(data, format);
        var apiTime := TextField(data, "time", JStr(""));
        if items.None? || apiTime.None? {
          return ListFailure(UnknownError, "未知错误: " + Take(raisedText, 100), now);
        }
        return MakeCrawlResult(SourceId, SourceName, items.value, Success, "", "", apiTime.value, |items.value|, 0, now);
    }
  }
}
