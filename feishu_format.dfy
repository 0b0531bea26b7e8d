/**
 * The rich-text ("post") messages the Feishu push service builds from a
 * queue file: a list of rows, each a list of text and link segments. Each
 * formatter is a function of the decoded file; `None` stands for the
 * exception Python raises on a field of the wrong shape, which the service
 * turns into a failed file. `render` is how an f-string shows a list or a
 * dict (scalars are rendered as Python's `str`).
 */
module FeishuFormat {
  import opened Common
  import opened PushText

  /** One element of a rich-text row: `{"tag": "text", ...}` or `{"tag": "a", ...}`. */
  datatype Segment = Text(text: string) | Link(text: string, href: Json)

  type Row = seq<Segment>

  /** The title and rows `send_post` receives. */
  datatype Message = Message(title: Json, rows: seq<Row>)

  const LinkLabel := "查看原文"
  const OverflowPrefix := "\n... 还有 "

  function Line(t: string): Row {
    [Text(t)]
  }

  /** The closing row of a raw message that counts the unlisted items. */
  predicate IsOverflow(row: Row) {
    |row| == 1 && row[0].Text? && StartsWith(row[0].text, OverflowPrefix)
  }

  /** Concatenates two row lists; raising in either raises. */
  function Cat(a: Option<seq<Row>>, b: Option<seq<Row>>): (r: Option<seq<Row>>)
    ensures r.Some? <==> a.Some? && b.Some?
    ensures r.Some? ==> r.value == a.value + b.value
  {
    if a.Some? && b.Some? then Some(a.value + b.value) else None
  }

  /** A text row that does not begin with a newline is not an overflow row. */
  lemma NotOverflowLine(t: string)
    requires t != [] && t[0] != '\n'
    ensures !IsOverflow(Line(t))
  {
    assert OverflowPrefix[0] == '\n';
  }

  lemma {:induction false} NatToStringLeadingDigit(n: nat)
    ensures '0' <= NatToString(n)[0] <= '9'
    decreases n
  {
    if n >= 10 {
      NatToStringLeadingDigit(n / 10);
    }
  }

  // ------------------------------------------------------------ raw message

  /** The rows `_format_raw_message` writes for the `i`-th listed item. */
  function RawItemRows(i: nat, item: map<string, Json>, render: Json -> string): (r: Option<seq<Row>>)
    ensures r.None? <==> KeywordTag(Get(item, "matched_keywords", JList([]))).None?
    ensures r.Some? ==> |r.value| == 1 + (if Truthy(Get(item, "published_at", JStr(""))) then 1 else 0)
                                     + (if Truthy(Get(item, "url", JStr(""))) then 1 else 0)
    ensures r.Some? ==> forall k :: 0 <= k < |r.value| ==> !IsOverflow(r.value[k])
    ensures r.Some? && Truthy(Get(item, "url", JStr(""))) ==>
      r.value[|r.value| - 1] == [Text("   🔗 "), Link(LinkLabel, Get(item, "url", JStr(""))), Text("\n")]
  {
    var title := Get(item, "title", JStr(""));
    var url := Get(item, "url", JStr(""));
    var published := Get(item, "published_at", JStr(""));
    match KeywordTag(Get(item, "matched_keywords", JList([])))
    case None => None
    case Some(tag) =>
      NatToStringLeadingDigit(i);
      var head := NatToString(i) + ". " + Rendered(title, render) + tag + "\n";
      assert head[0] == NatToString(i)[0];
      NotOverflowLine(head);
      NotOverflowLine("   🕐 " + Rendered(published, render) + "\n");
      var rows := [Line(head)]
        + (if Truthy(published) then [Line("   🕐 " + Rendered(published, render) + "\n")] else [])
        + (if Truthy(url) then [[Text("   🔗 "), Link(LinkLabel, url), Text("\n")]] else []);
      Some(rows)
  }

  /** The rows of the listed items, numbered from `first`; a non-dict item raises at its `.get`. */
  function ListedRows(items: seq<Json>, first: nat, render: Json -> string): (r: Option<seq<Row>>)
    decreases |items|
    ensures r.Some? ==> |items| <= |r.value| <= 3 * |items|
    ensures r.Some? ==> forall k :: 0 <= k < |r.value| ==> !IsOverflow(r.value[k])
  {
    if items == [] then Some([])
    else if !items[0].JObj? then None
    else Cat(RawItemRows(first, items[0].fields, render), ListedRows(items[1..], first + 1, render))
  }

  /** The listed rows raise exactly when some listed item is not a dict or has keywords that cannot be joined. */
  lemma {:induction false} ListedRowsRaise(items: seq<Json>, first: nat, render: Json -> string)
    ensures ListedRows(items, first, render).None? <==>
      exists k :: 0 <= k < |items| && BadRawItem(items[k])
    decreases |items|
  {
    if items != [] {
      ListedRowsRaise(items[1..], first + 1, render);
      if BadRawItem(items[0]) {
        assert BadRawItem(items[0]);
      } else {
        forall k | 0 < k < |items| ensures BadRawItem(items[k]) <==> BadRawItem(items[1..][k - 1]) { }
        if exists k :: 0 <= k < |items| && BadRawItem(items[k]) {
          var k :| 0 <= k < |items| && BadRawItem(items[k]);
          assert BadRawItem(items[1..][k - 1]);
        }
      }
    }
  }

  /** An item of a raw message that makes the formatter raise. */
  predicate BadRawItem(item: Json) {
    !item.JObj? || KeywordTag(Get(item.fields, "matched_keywords", JList([]))).None?
  }

  /** `_format_raw_message(data)` */
  function RawRows(data: map<string, Json>, render: Json -> string): (r: Option<seq<Row>>)
    ensures ItemsOf(Get(data, "items", JList([]))).None? ==> r.None?
    ensures r.Some? ==> |r.value| >= 2 && r.value[1] == Line(Rule + "\n")
  {
    var header := [Line("📰 " + Rendered(Get(data, "subject", JStr("新消息")), render) + "\n"), Line(Rule + "\n")];
    match ItemsOf(Get(data, "items", JList([])))
    case None => None
    case Some(es) =>
      var overflow := if |es| > MaxListed then [Line(OverflowPrefix + NatToString(Unlisted(es)) + " 条消息")] else [];
      Cat(Cat(Some(header), ListedRows(Listed(es), 1, render)), Some(overflow))
  }

  /**
   * A raw message: the subject and rule rows, one to three rows per listed
   * item (at most ten), and, last, an overflow row naming the number of
   * unlisted items exactly when there are more than ten.
   */
  lemma RawRowsShape(data: map<string, Json>, render: Json -> string)
    requires RawRows(data, render).Some?
    ensures ItemsOf(Get(data, "items", JList([]))).Some?
    ensures var es := ItemsOf(Get(data, "items", JList([]))).value;
            var r := RawRows(data, render).value;
            var extra := if |es| > MaxListed then 1 else 0;
            && 2 + |Listed(es)| + extra <= |r| <= 2 + 3 * |Listed(es)| + extra
            && r[0] == Line("📰 " + Rendered(Get(data, "subject", JStr("新消息")), render) + "\n")
            && r[1] == Line(Rule + "\n")
            && (IsOverflow(r[|r| - 1]) <==> |es| > MaxListed)
            && (|es| > MaxListed ==> r[|r| - 1] == Line(OverflowPrefix + NatToString(|es| - MaxListed) + " 条消息"))
            && (forall k :: 0 <= k < |r| - 1 ==> !IsOverflow(r[k]))
  {
    var es := ItemsOf(Get(data, "items", JList([]))).value;
    var r := RawRows(data, render).value;
    var listed := ListedRows(Listed(es), 1, render).value;
    var head := "📰 " + Rendered(Get(data, "subject", JStr("新消息")), render) + "\n";
    assert head[0] == '📰';
    NotOverflowLine(head);
    NotOverflowLine(Rule + "\n");
  }

  /** A raw message raises exactly when `items` cannot be sliced or a listed item is bad. */
  lemma RawRowsRaise(data: map<string, Json>, render: Json -> string)
    ensures RawRows(data, render).None? <==>
      match ItemsOf(Get(data, "items", JList([])))
      case None => true
      case Some(es) => exists k :: 0 <= k < |Listed(es)| && BadRawItem(Listed(es)[k])
  {
    match ItemsOf(Get(data, "items", JList([])))
    case None =>
    case Some(es) => ListedRowsRaise(Listed(es), 1, render);
  }

  // ------------------------------------------------------------- AI message

  /** A row for an analysis field that is shown only when truthy; `text` is None when building it raises. */
  function FieldRow(v: Json, text: Option<string>): (r: Option<seq<Row>>)
    ensures !Truthy(v) ==> r == Some([])
    ensures Truthy(v) ==> (r.Some? <==> text.Some?) && (r.Some? ==> r.value == [Line(text.value)])
  {
    if !Truthy(v) then Some([])
    else if text.None? then None
    else Some([Line(text.value)])
  }

  /** The rows for the analysed item: its title, then its time and link rows when truthy, then a blank row. */
  function AiItemRows(items: Json, render: Json -> string): (r: Option<seq<Row>>)
    ensures !Truthy(items) ==> r == Some([])
  {
    if !Truthy(items) then Some([])
    else match ItemsOf(items)
      case None => None
      case Some(es) =>
        if es == [] || !es[0].JObj? then None
        else
          var item := es[0].fields;
          var url := Get(item, "url", JStr(""));
          var published := Get(item, "published_at", JStr(""));
          Some([Line("📰 " + Rendered(Get(item, "title", JStr("AI分析")), render) + "\n")]
            + (if Truthy(published) then [Line("🕐 发布时间: " + Rendered(published, render) + "\n")] else [])
            + (if Truthy(url) then [[Text("🔗 "), Link(LinkLabel, url), Text("\n")]] else []))
  }

  /** The rows for the analysis result dict: summary, keywords, sentiment and importance, each when truthy. */
  function AiResultRows(ai: map<string, Json>, render: Json -> string): (r: Option<seq<Row>>)
  {
    var summary := Get(ai, "summary", JNull);
    var keywords := Get(ai, "keywords", JNull);
    var sentiment := Get(ai, "sentiment", JNull);
    var importance := Get(ai, "importance", JNull);
    var words := match JoinedWords(keywords) case Some(t) => Some("🏷️ 关键词: " + t + "\n") case None => None;
    var mood := match EmojiOf(sentiment) case Some(e) => Some(e + " 情感: " + Rendered(sentiment, render) + "\n") case None => None;
    var stars := match StarsOf(importance) case Some(s) => Some("重要性: " + s + "\n") case None => None;
    Cat(Cat(FieldRow(summary, Some("📝 摘要: " + Rendered(summary, render) + "\n")), FieldRow(keywords, words)),
        Cat(FieldRow(sentiment, mood), FieldRow(importance, stars)))
  }

  /** `_format_ai_message(data)` */
  function AiRows(data: map<string, Json>, render: Json -> string): (r: Option<seq<Row>>)
    ensures !Get(data, "ai_result", JObj(map[])).JObj? ==> r.None?
    ensures r.Some? ==> |r.value| >= 3 && r.value[..2] == [Line("🤖 AI 分析报告\n"), Line(Rule + "\n")]
  {
    var header := [Line("🤖 AI 分析报告\n"), Line(Rule + "\n")];
    var rest := match Get(data, "ai_result", JObj(map[]))
      case JObj(ai) => AiResultRows(ai, render)
      case _ => None;
    Cat(Cat(Some(header), AiItemRows(Get(data, "items", JList([])), render)), Cat(Some([Line("\n")]), rest))
  }

  function Flag(b: bool): nat {
    if b then 1 else 0
  }

  /**
   * An AI message: two header rows, the item's one to three rows when
   * `items` is non-empty, a blank row, and one row for each truthy field of
   * the analysis result.
   */
  lemma AiRowsShape(data: map<string, Json>, render: Json -> string)
    requires AiRows(data, render).Some?
    ensures Get(data, "ai_result", JObj(map[])).JObj?
    ensures var r := AiRows(data, render).value;
            var ai := Get(data, "ai_result", JObj(map[])).fields;
            var items := Get(data, "items", JList([]));
            var fields := Flag(Truthy(Get(ai, "summary", JNull))) + Flag(Truthy(Get(ai, "keywords", JNull)))
                          + Flag(Truthy(Get(ai, "sentiment", JNull))) + Flag(Truthy(Get(ai, "importance", JNull)));
            && r[0] == Line("🤖 AI 分析报告\n") && r[1] == Line(Rule + "\n")
            && (!Truthy(items) ==> |r| == 3 + fields && r[2] == Line("\n"))
            && (Truthy(items) ==> 4 + fields <= |r| <= 6 + fields)
  {
    var ai := Get(data, "ai_result", JObj(map[])).fields;
    var items := Get(data, "items", JList([]));
    var summary := Get(ai, "summary", JNull);
    var keywords := Get(ai, "keywords", JNull);
    var sentiment := Get(ai, "sentiment", JNull);
    var importance := Get(ai, "importance", JNull);
    var rest := AiResultRows(ai, render).value;
    assert |rest| == Flag(Truthy(summary)) + Flag(Truthy(keywords)) + Flag(Truthy(sentiment)) + Flag(Truthy(importance));
  }

  /** An AI message raises exactly when a field it shows has the wrong shape. */
  lemma AiRowsRaise(data: map<string, Json>, render: Json -> string)
    ensures AiRows(data, render).None? <==>
      || !Get(data, "ai_result", JObj(map[])).JObj?
      || BadAiItems(Get(data, "items", JList([])))
      || BadAiResult(Get(data, "ai_result", JObj(map[])).fields)
  {
  }

  /** Non-empty `items` whose first element cannot be read as a dict. */
  predicate BadAiItems(items: Json) {
    Truthy(items) && (ItemsOf(items).None? || !ItemsOf(items).value[0].JObj?)
  }

  /** A truthy keywords value that cannot be joined, a sentiment that cannot be looked up, or an importance that cannot repeat a star. */
  predicate BadAiResult(ai: map<string, Json>) {
    || (Truthy(Get(ai, "keywords", JNull)) && JoinedWords(Get(ai, "keywords", JNull)).None?)
    || (Truthy(Get(ai, "sentiment", JNull)) && EmojiOf(Get(ai, "sentiment", JNull)).None?)
    || (Truthy(Get(ai, "importance", JNull)) && StarsOf(Get(ai, "importance", JNull)).None?)
  }

  // ----------------------------------------------------------- daily report

  /** The text of a one-segment row without its final newline. */
  function Unlined(row: Row): string {
    if |row| == 1 && row[0].Text? && EndsWith(row[0].text, "\n") then row[0].text[..|row[0].text| - 1] else ""
  }

  /** Two rows per listed item of a daily report: its number and title, and its source. */
  function DailyItemRows(items: seq<Json>, first: nat, render: Json -> string): (r: Option<seq<Row>>)
    decreases |items|
    ensures r.Some? <==> forall k :: 0 <= k < |items| ==> items[k].JObj?
    ensures r.Some? ==> |r.value| == 2 * |items|
  {
    if items == [] then Some([])
    else if !items[0].JObj? then None
    else
      var item := items[0].fields;
      var rows := [Line(NatToString(first) + ". " + Rendered(Get(item, "title", JStr("")), render) + "\n"),
                   Line("   📍 " + Rendered(Get(item, "source", JStr("未知")), render) + "\n")];
      var rest := DailyItemRows(items[1..], first + 1, render);
      assert rest.Some? <==> forall k :: 1 <= k < |items| ==> items[k].JObj? by {
        assert forall k :: 1 <= k < |items| ==> items[k] == items[1..][k - 1];
      }
      Cat(Some(rows), rest)
  }

  /** `_format_daily_report(data)` */
  function DailyRows(data: map<string, Json>, render: Json -> string): (r: Option<seq<Row>>)
    ensures Truthy(Get(data, "message", JStr(""))) && !Get(data, "message", JStr("")).JStr? ==> r.None?
    ensures Get(data, "message", JStr("")).JStr? && Get(data, "message", JStr("")).s != "" ==> r.Some? && r.value != []
    ensures !Truthy(Get(data, "message", JStr(""))) && r.Some? ==>
              |r.value| >= 2 && r.value[..2] == [Line("📰 TrendRadar 财经日报\n"), Line(Rule + "\n")]
  {
    var message := Get(data, "message", JStr(""));
    if Truthy(message) then
      if !message.JStr? then None
      else
        var ls := SplitOn(message.s, "\n");
        Some(seq(|ls|, k requires 0 <= k < |ls| => Line(ls[k] + "\n")))
    else
      var header := [Line("📰 TrendRadar 财经日报\n"), Line(Rule + "\n")];
      match ItemsOf(Get(data, "items", JList([])))
      case None => None
      case Some(es) => Cat(Some(header), DailyItemRows(Listed(es), 1, render))
  }

  /**
   * A pre-formatted daily message is sent line by line: one row per line,
   * and the rows' texts, joined back with newlines, are the message itself.
   */
  lemma DailyRowsMessage(data: map<string, Json>, render: Json -> string)
    requires "message" in data && data["message"].JStr? && data["message"].s != ""
    ensures DailyRows(data, render).Some?
    ensures var r := DailyRows(data, render).value;
            && |r| == |SplitOn(data["message"].s, "\n")|
            && Join(seq(|r|, k requires 0 <= k < |r| => Unlined(r[k])), "\n") == data["message"].s
  {
    var m := data["message"].s;
    var ls := SplitOn(m, "\n");
    var r := DailyRows(data, render).value;
    var texts := seq(|r|, k requires 0 <= k < |r| => Unlined(r[k]));
    forall k | 0 <= k < |r| ensures texts[k] == ls[k] {
      assert r[k] == Line(ls[k] + "\n");
      assert (ls[k] + "\n")[..|ls[k]|] == ls[k];
    }
    assert texts == ls;
    JoinSplit(m, "\n");
  }

  /** Without a message, a daily report lists at most ten items in two rows each under a fixed header. */
  lemma DailyRowsItems(data: map<string, Json>, render: Json -> string)
    requires !Truthy(Get(data, "message", JStr("")))
    ensures DailyRows(data, render).Some? <==>
      match ItemsOf(Get(data, "items", JList([])))
      case None => false
      case Some(es) => forall k :: 0 <= k < |Listed(es)| ==> Listed(es)[k].JObj?
    ensures DailyRows(data, render).Some? ==>
      var es := ItemsOf(Get(data, "items", JList([]))).value;
      var r := DailyRows(data, render).value;
      && |r| == 2 + 2 * |Listed(es)| <= 2 + 2 * MaxListed
      && r[0] == Line("📰 TrendRadar 财经日报\n") && r[1] == Line(Rule + "\n")
  {
  }

  // --------------------------------------------------------------- dispatch

  /** The post title and rows `_process_file` builds for a decoded file; None when formatting raises. */
  function Format(data: map<string, Json>, render: Json -> string): (m: Option<Message>)
    ensures LayoutOf(data) == AiLayout ==> (m.Some? <==> AiRows(data, render).Some?)
    ensures LayoutOf(data) == DailyLayout ==> (m.Some? <==> DailyRows(data, render).Some?)
    ensures LayoutOf(data) == RawLayout ==> (m.Some? <==> RawRows(data, render).Some?)
    ensures m.Some? && LayoutOf(data) == AiLayout ==> m.value.title == JStr("AI 分析报告")
    ensures m.Some? && LayoutOf(data) == DailyLayout && "subject" !in data ==> m.value.title == JStr("TrendRadar 日报")
    ensures m.Some? && LayoutOf(data) == RawLayout && "subject" !in data ==> m.value.title == JStr("同花顺快讯")
  {
    match LayoutOf(data)
    case AiLayout =>
      (match AiRows(data, render) case Some(rows) => Some(Message(JStr("AI 分析报告"), rows)) case None => None)
    case DailyLayout =>
      (match DailyRows(data, render)
       case Some(rows) => Some(Message(Get(data, "subject", JStr("TrendRadar 日报")), rows))
       case None => None)
    case RawLayout =>
      (match RawRows(data, render)
       case Some(rows) => Some(Message(Get(data, "subject", JStr("同花顺快讯")), rows))
       case None => None)
  }
}
