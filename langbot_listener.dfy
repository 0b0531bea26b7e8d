/**
 * The LangBot push-queue listener: it builds one plain-text message per
 * queue file (the same three layouts as the Feishu service, written as
 * newline-joined lines), sends it through the bot, and counts processed,
 * sent and failed files. Polling starts only when the plugin configuration
 * names both a bot and a target.
 *
 * The file system and the bot are parameters: `load` is the decoded content
 * of a queue file, `send` whether delivering a message returns without
 * raising, `renamed` whether moving a file to the processed directory
 * succeeds, and `render` how an f-string shows a list or a dict.
 */
module LangbotListener {
  import opened Common
  import opened PushText

  const OverflowLead := "\n... 还有 "

  /** The closing line of a raw message that counts the unlisted items. */
  predicate IsOverflowLine(l: string) {
    StartsWith(l, OverflowLead)
  }

  /** Concatenates two line lists; raising in either raises. */
  function Cat(a: Option<seq<string>>, b: Option<seq<string>>): (r: Option<seq<string>>)
    ensures r.Some? <==> a.Some? && b.Some?
    ensures r.Some? ==> r.value == a.value + b.value
  {
    if a.Some? && b.Some? then Some(a.value + b.value) else None
  }

  lemma NotOverflow(l: string)
    requires l != [] && (l[0] != '\n' || (|l| > 1 && l[1] != '.'))
    ensures !IsOverflowLine(l)
  {
    assert OverflowLead[0] == '\n' && OverflowLead[1] == '.';
  }

  lemma {:induction false} LeadingDigit(n: nat)
    ensures '0' <= NatToString(n)[0] <= '9'
    decreases n
  {
    if n >= 10 {
      LeadingDigit(n / 10);
    }
  }

  // ------------------------------------------------------------ raw message

  /** The lines `_build_raw_message` writes for the `i`-th listed item. */
  function RawItemLines(i: nat, item: map<string, Json>, render: Json -> string): (r: Option<seq<string>>)
    ensures r.None? <==> KeywordTag(Get(item, "matched_keywords", JList([]))).None?
    ensures r.Some? ==> |r.value| == 1 + (if Truthy(Get(item, "published_at", JStr(""))) then 1 else 0)
                                     + (if Truthy(Get(item, "url", JStr(""))) then 1 else 0)
    ensures r.Some? ==> forall k :: 0 <= k < |r.value| ==> !IsOverflowLine(r.value[k])
  {
    var url := Get(item, "url", JStr(""));
    var published := Get(item, "published_at", JStr(""));
    match KeywordTag(Get(item, "matched_keywords", JList([])))
    case None => None
    case Some(tag) =>
      LeadingDigit(i);
      var head := "\n" + NatToString(i) + ". " + Rendered(Get(item, "title", JStr("")), render) + tag;
      assert head[1] == NatToString(i)[0];
      NotOverflow(head);
      var time := "   🕐 " + Rendered(published, render);
      var link := "   🔗 " + Rendered(url, render);
      NotOverflow(time);
      NotOverflow(link);
      Some([head] + (if Truthy(published) then [time] else []) + (if Truthy(url) then [link] else []))
  }

  /** The lines of the listed items, numbered from `first`; a non-dict item raises at its `.get`. */
  function ListedLines(items: seq<Json>, first: nat, render: Json -> string): (r: Option<seq<string>>)
    decreases |items|
    ensures r.Some? ==> |items| <= |r.value| <= 3 * |items|
    ensures r.Some? ==> forall k :: 0 <= k < |r.value| ==> !IsOverflowLine(r.value[k])
    ensures r.Some? <==> forall k :: 0 <= k < |items| ==> items[k].JObj? && KeywordTag(Get(items[k].fields, "matched_keywords", JList([]))).Some?
  {
    if items == [] then Some([])
    else if !items[0].JObj? then None
    else
      var rest := ListedLines(items[1..], first + 1, render);
      assert forall k :: 1 <= k < |items| ==> items[k] == items[1..][k - 1];
      Cat(RawItemLines(first, items[0].fields, render), rest)
  }

  /** The lines of `_build_raw_message`; the message is their newline join. */
  function RawLines(data: map<string, Json>, render: Json -> string): (r: Option<seq<string>>)
    ensures ItemsOf(Get(data, "items", JList([]))).None? ==> r.None?
    ensures r.Some? ==> |r.value| >= 2 && r.value[1] == Rule
  {
    var header := ["📰 " + Rendered(Get(data, "subject", JStr("新消息")), render), Rule];
    match ItemsOf(Get(data, "items", JList([])))
    case None => None
    case Some(es) =>
      var overflow := if |es| > MaxListed then [OverflowLead + NatToString(Unlisted(es)) + " 条消息"] else [];
      Cat(Cat(Some(header), ListedLines(Listed(es), 1, render)), Some(overflow))
  }

  /**
   * A raw message: subject and rule, one to three lines per listed item (at
   * most ten), and, last, a line naming the number of unlisted items exactly
   * when there are more than ten.
   */
  lemma RawLinesShape(data: map<string, Json>, render: Json -> string)
    requires RawLines(data, render).Some?
    ensures ItemsOf(Get(data, "items", JList([]))).Some?
    ensures var es := ItemsOf(Get(data, "items", JList([]))).value;
            var r := RawLines(data, render).value;
            var extra := if |es| > MaxListed then 1 else 0;
            && 2 + |Listed(es)| + extra <= |r| <= 2 + 3 * |Listed(es)| + extra
            && r[0] == "📰 " + Rendered(Get(data, "subject", JStr("新消息")), render) && r[1] == Rule
            && (IsOverflowLine(r[|r| - 1]) <==> |es| > MaxListed)
            && (|es| > MaxListed ==> r[|r| - 1] == OverflowLead + NatToString(|es| - MaxListed) + " 条消息")
            && (forall k :: 0 <= k < |r| - 1 ==> !IsOverflowLine(r[k]))
  {
    var head := "📰 " + Rendered(Get(data, "subject", JStr("新消息")), render);
    assert head[0] == '📰';
    NotOverflow(head);
    assert Rule[0] == '━';
    NotOverflow(Rule);
  }

  // ------------------------------------------------------------- AI message

  /** A line for an analysis field shown only when truthy; `text` is None when building it raises. */
  function FieldLine(v: Json, text: Option<string>): (r: Option<seq<string>>)
    ensures !Truthy(v) ==> r == Some([])
    ensures Truthy(v) ==> (r.Some? <==> text.Some?) && (r.Some? ==> r.value == [text.value])
  {
    if !Truthy(v) then Some([])
    else if text.None? then None
    else Some([text.value])
  }

  /** The lines for the analysed item: title, then time and link when truthy, then an empty line. */
  function AiItemLines(items: Json, render: Json -> string): (r: Option<seq<string>>)
    ensures !Truthy(items) ==> r == Some([])
    ensures Truthy(items) && r.Some? ==> 2 <= |r.value| <= 4 && r.value[|r.value| - 1] == ""
  {
    if !Truthy(items) then Some([])
    else match ItemsOf(items)
      case None => None
      case Some(es) =>
        if es == [] || !es[0].JObj? then None
        else
          var item := es[0].fields;
          var url := Get(item, "url", JNull);
          var published := Get(item, "published_at", JNull);
          Some(["📰 " + Rendered(Get(item, "title", JStr("AI分析")), render)]
            + (if Truthy(published) then ["🕐 发布时间: " + Rendered(published, render)] else [])
            + (if Truthy(url) then ["🔗 " + Rendered(url, render)] else [])
            + [""])
  }

  /** The lines for the analysis result dict: summary, keywords, sentiment and importance, each when truthy. */
  function AiResultLines(ai: map<string, Json>, render: Json -> string): (r: Option<seq<string>>)
  {
    var summary := Get(ai, "summary", JNull);
    var keywords := Get(ai, "keywords", JNull);
    var sentiment := Get(ai, "sentiment", JNull);
    var importance := Get(ai, "importance", JNull);
    var words := match JoinedWords(keywords) case Some(t) => Some("🏷️ 关键词: " + t) case None => None;
    var mood := match EmojiOf(sentiment) case Some(e) => Some(e + " 情感: " + Rendered(sentiment, render)) case None => None;
    var stars := match StarsOf(importance) case Some(s) => Some("⭐ 重要性: " + s) case None => None;
    Cat(Cat(FieldLine(summary, Some("📝 摘要: " + Rendered(summary, render))), FieldLine(keywords, words)),
        Cat(FieldLine(sentiment, mood), FieldLine(importance, stars)))
  }

  /** The lines of `_build_ai_message`. */
  function AiLines(data: map<string, Json>, render: Json -> string): (r: Option<seq<string>>)
    ensures !Get(data, "ai_result", JObj(map[])).JObj? ==> r.None?
    ensures r.Some? ==> |r.value| >= 2 && r.value[..2] == ["🤖 AI 分析报告", Rule]
  {
    var rest := match Get(data, "ai_result", JObj(map[]))
      case JObj(ai) => AiResultLines(ai, render)
      case _ => None;
    Cat(Cat(Some(["🤖 AI 分析报告", Rule]), AiItemLines(Get(data, "items", JList([])), render)), rest)
  }

  function Flag(b: bool): nat {
    if b then 1 else 0
  }

  /**
   * An AI message: two header lines, the item's two to four lines when
   * `items` is non-empty, and one line for each truthy field of the
   * analysis result.
   */
  lemma AiLinesShape(data: map<string, Json>, render: Json -> string)
    requires AiLines(data, render).Some?
    ensures Get(data, "ai_result", JObj(map[])).JObj?
    ensures var r := AiLines(data, render).value;
            var ai := Get(data, "ai_result", JObj(map[])).fields;
            var fields := Flag(Truthy(Get(ai, "summary", JNull))) + Flag(Truthy(Get(ai, "keywords", JNull)))
                          + Flag(Truthy(Get(ai, "sentiment", JNull))) + Flag(Truthy(Get(ai, "importance", JNull)));
            && r[0] == "🤖 AI 分析报告" && r[1] == Rule
            && (!Truthy(Get(data, "items", JList([]))) ==> |r| == 2 + fields)
            && (Truthy(Get(data, "items", JList([]))) ==> 4 + fields <= |r| <= 6 + fields)
  {
    var ai := Get(data, "ai_result", JObj(map[])).fields;
    var rest := AiResultLines(ai, render).value;
    assert |rest| == Flag(Truthy(Get(ai, "summary", JNull))) + Flag(Truthy(Get(ai, "keywords", JNull)))
                     + Flag(Truthy(Get(ai, "sentiment", JNull))) + Flag(Truthy(Get(ai, "importance", JNull)));
  }

  // ----------------------------------------------------------- daily report

  /** Two lines per listed item of a daily report: its number and title, and its source. */
  function DailyItemLines(items: seq<Json>, first: nat, render: Json -> string): (r: Option<seq<string>>)
    decreases |items|
    ensures r.Some? <==> forall k :: 0 <= k < |items| ==> items[k].JObj?
    ensures r.Some? ==> |r.value| == 2 * |items|
  {
    if items == [] then Some([])
    else if !items[0].JObj? then None
    else
      var item := items[0].fields;
      var lines := [NatToString(first) + ". " + Rendered(Get(item, "title", JStr("")), render),
                    "   📍 " + Rendered(Get(item, "source", JStr("未知")), render)];
      var rest := DailyItemLines(items[1..], first + 1, render);
      assert forall k :: 1 <= k < |items| ==> items[k] == items[1..][k - 1];
      Cat(Some(lines), rest)
  }

  /** The text `_build_daily_report` sends. */
  function DailyText(data: map<string, Json>, render: Json -> string): (r: Option<string>)
    ensures "message" in data && data["message"].JStr? && data["message"].s != "" ==> r == Some(data["message"].s)
    ensures Truthy(Get(data, "message", JStr(""))) && !Get(data, "message", JStr("")).JStr? ==> r.None?
  {
    var message := Get(data, "message", JStr(""));
    if Truthy(message) then
      if message.JStr? then Some(message.s) else None
    else
      var header := ["📰 " + Rendered(Get(data, "subject", JStr("TrendRadar 日报")), render), Rule];
      match ItemsOf(Get(data, "items", JList([])))
      case None => None
      case Some(es) =>
        match Cat(Some(header), DailyItemLines(Listed(es), 1, render))
        case None => None
        case Some(lines) => Some(Join(lines, "\n"))
  }

  /** Without a message, the daily report's lines are the header and two lines per listed item, at most ten. */
  lemma DailyTextItems(data: map<string, Json>, render: Json -> string)
    requires !Truthy(Get(data, "message", JStr("")))
    ensures DailyText(data, render).Some? <==>
      match ItemsOf(Get(data, "items", JList([])))
      case None => false
      case Some(es) => forall k :: 0 <= k < |Listed(es)| ==> Listed(es)[k].JObj?
    ensures DailyText(data, render).Some? ==>
      var es := ItemsOf(Get(data, "items", JList([]))).value;
      var lines := DailyItemLines(Listed(es), 1, render).value;
      && |lines| == 2 * |Listed(es)| <= 2 * MaxListed
      && DailyText(data, render).value
         == Join(["📰 " + Rendered(Get(data, "subject", JStr("TrendRadar 日报")), render), Rule] + lines, "\n")
  {
  }

  // --------------------------------------------------------------- dispatch

  /** The text of the message `_build_message` builds; None when building raises. */
  function BuildText(data: map<string, Json>, render: Json -> string): (t: Option<string>)
    ensures LayoutOf(data) == DailyLayout ==> t == DailyText(data, render)
    ensures LayoutOf(data) == AiLayout ==> (t.Some? <==> AiLines(data, render).Some?)
    ensures LayoutOf(data) == RawLayout ==> (t.Some? <==> RawLines(data, render).Some?)
    ensures LayoutOf(data) == AiLayout && t.Some? ==> t.value == Join(AiLines(data, render).value, "\n")
    ensures LayoutOf(data) == RawLayout && t.Some? ==> t.value == Join(RawLines(data, render).value, "\n")
  {
    match LayoutOf(data)
    case AiLayout => (match AiLines(data, render) case Some(ls) => Some(Join(ls, "\n")) case None => None)
    case DailyLayout => DailyText(data, render)
    case RawLayout => (match RawLines(data, render) case Some(ls) => Some(Join(ls, "\n")) case None => None)
  }

  // --------------------------------------------------------------- listener

  /** One `send_message` call of the plugin. */
  datatype Delivery = Delivery(botUuid: Json, targetType: Json, targetId: Json, text: string)

  /** How one queue file ends. */
  datatype FileOutcome =
    | BuildFailed            // loading, a non-dict top level or building raised: nothing sent
    | SendFailed             // the bot raised while sending
    | SentNotMoved           // sent, then the rename raised
    | Done                   // sent and moved

  /** The text built from a loaded queue file; None when loading, a non-dict top level or building raises. */
  function Built(loaded: Decoded, render: Json -> string): (t: Option<string>)
    ensures t.Some? ==> loaded.DecodeOk? && loaded.value.JObj? && t == BuildText(loaded.value.fields, render)
    ensures loaded.DecodeOk? && loaded.value.JObj? ==> t == BuildText(loaded.value.fields, render)
  {
    if !loaded.DecodeOk? || !loaded.value.JObj? then None else BuildText(loaded.value.fields, render)
  }

  /** The outcome for one file. */
  function Outcome(d: Delivery -> bool, botUuid: Json, targetType: Json, targetId: Json,
                   loaded: Decoded, render: Json -> string, renamed: bool): (o: FileOutcome)
    ensures o != BuildFailed ==> Built(loaded, render).Some?
    ensures o == Done ==> renamed
  {
    match Built(loaded, render)
    case None => BuildFailed
    case Some(text) =>
      if !d(Delivery(botUuid, targetType, targetId, text)) then SendFailed
      else if !renamed then SentNotMoved
      else Done
  }

  datatype Counters = Counters(processed: nat, sent: nat, failed: nat)

  /** Sent files that were then moved are processed; every other file fails, even after it was sent. */
  predicate Consistent(c: Counters) {
    c.processed <= c.sent <= c.processed + c.failed
  }

  /** `self.stats` after one file: exactly one of processed and failed grows; sent grows when the bot accepted it. */
  function Counted(c: Counters, o: FileOutcome): (r: Counters)
    ensures r.processed + r.failed == c.processed + c.failed + 1
    ensures r.sent == c.sent + (if o == SentNotMoved || o == Done then 1 else 0)
    ensures r.processed == c.processed + (if o == Done then 1 else 0)
    ensures Consistent(c) ==> Consistent(r)
  {
    match o
    case BuildFailed => c.(failed := c.failed + 1)
    case SendFailed => c.(failed := c.failed + 1)
    case SentNotMoved => c.(sent := c.sent + 1, failed := c.failed + 1)
    case Done => c.(sent := c.sent + 1, processed := c.processed + 1)
  }

  /** The outcomes of the queue files, in order. */
  function QueueOutcomes(d: Delivery -> bool, botUuid: Json, targetType: Json, targetId: Json, files: seq<string>,
                         load: string -> Decoded, render: Json -> string, renamed: string -> bool): (os: seq<FileOutcome>)
    ensures |os| == |files|
  {
    seq(|files|, i requires 0 <= i < |files| => Outcome(d, botUuid, targetType, targetId, load(files[i]), render, renamed(files[i])))
  }

  /** The counters after the outcomes in turn, starting from `c`. */
  function CountAll(c: Counters, os: seq<FileOutcome>): Counters
    decreases |os|
  {
    if os == [] then c else Counted(CountAll(c, os[..|os| - 1]), os[|os| - 1])
  }

  /** A file the bot accepted, whether or not it was then moved. */
  predicate WasSent(o: FileOutcome) {
    o == SentNotMoved || o == Done
  }

  /** One more outcome of a prefix is one more `Counted`. */
  lemma CountAllNext(c: Counters, os: seq<FileOutcome>, i: int)
    requires 0 <= i < |os|
    ensures CountAll(c, os[..i + 1]) == Counted(CountAll(c, os[..i]), os[i])
  {
    assert os[..i + 1][..i] == os[..i];
  }

  /**
   * Over a whole queue, every file adds one to `processed` or to `failed`;
   * `sent` grows by the files the bot accepted, `processed` by those also
   * moved; and the counters stay consistent.
   */
  lemma {:induction false} CountAllTotals(c: Counters, os: seq<FileOutcome>)
    ensures var r := CountAll(c, os);
            && r.processed + r.failed == c.processed + c.failed + |os|
            && r.sent == c.sent + |KeepIf(os, WasSent)|
            && r.processed == c.processed + |KeepIf(os, (o: FileOutcome) => o == Done)|
            && (Consistent(c) ==> Consistent(r))
    decreases |os|
  {
    if os != [] {
      var n := |os|;
      CountAllTotals(c, os[..n - 1]);
      KeepIfSnoc(os[..n - 1], os[n - 1], WasSent);
      KeepIfSnoc(os[..n - 1], os[n - 1], (o: FileOutcome) => o == Done);
      assert os[..n - 1] + [os[n - 1]] == os;
    }
  }

  class PushQueueListener {
    var botUuid: Json
    var targetType: Json
    var targetId: Json
    var running: bool
    /** `self.stats`: the processed, sent and failed counts. */
    var stats: Counters

    function Stats(): Counters
      reads this
    {
      stats
    }

    predicate Valid()
      reads this
    {
      Consistent(Stats())
    }

    constructor()
      ensures botUuid == JNull && targetType == JStr("group") && targetId == JNull && !running
      ensures Stats() == Counters(0, 0, 0) && Valid()
    {
      botUuid, targetType, targetId := JNull, JStr("group"), JNull;
      running := false;
      stats := Counters(0, 0, 0);
    }

    /** `initialize`: reads the plugin configuration; polling starts only when both a bot and a target are named. */
    method Initialize(config: map<string, Json>)
      modifies this
      ensures botUuid == Get(config, "bot_uuid", JNull) && targetId == Get(config, "target_id", JNull)
      ensures targetType == Get(config, "target_type", JStr("group"))
      ensures running <==> old(running) || (Truthy(botUuid) && Truthy(targetId))
      ensures Stats() == old(Stats())
    {
      botUuid := Get(config, "bot_uuid", JNull);
      targetType := Get(config, "target_type", JStr("group"));
      targetId := Get(config, "target_id", JNull);
      if !Truthy(botUuid) || !Truthy(targetId) {
        return;
      }
      running := true;
    }

    /** `_process_file` */
    method ProcessFile(loaded: Decoded, render: Json -> string, d: Delivery -> bool, renamed: bool)
      modifies this
      ensures Stats() == Counted(old(Stats()), Outcome(d, botUuid, targetType, targetId, loaded, render, renamed))
      ensures botUuid == old(botUuid) && targetType == old(targetType) && targetId == old(targetId) && running == old(running)
    {
      var text := Built(loaded, render);
      if text.None? {
        stats := stats.(failed := stats.failed + 1);
        return;
      }
      if !d(Delivery(botUuid, targetType, targetId, text.value)) {
        stats := stats.(failed := stats.failed + 1);
        return;
      }
      stats := stats.(sent := stats.sent + 1);
      if !renamed {
        stats := stats.(failed := stats.failed + 1);
        return;
      }
      stats := stats.(processed := stats.processed + 1);
    }

    /**
     * `_process_queue`: nothing when the queue directory is missing;
     * otherwise each pending file once, in sorted order, the counters ending
     * as each file's outcome counted in turn.
     */
    method ProcessQueue(queueExists: bool, listing: seq<string>, load: string -> Decoded, render: Json -> string,
                        d: Delivery -> bool, renamed: string -> bool)
      requires Valid()
      modifies this
      ensures Valid()
      ensures Stats() == if queueExists
                         then CountAll(old(Stats()), QueueOutcomes(d, botUuid, targetType, targetId, PendingFiles(listing),
                                                                  load, render, renamed))
                         else old(Stats())
      ensures botUuid == old(botUuid) && targetType == old(targetType) && targetId == old(targetId) && running == old(running)
    {
      if !queueExists {
        return;
      }
      var files := PendingFiles(listing);
      ghost var os := QueueOutcomes(d, botUuid, targetType, targetId, files, load, render, renamed);
      var i := 0;
      while i < |files|
        invariant 0 <= i <= |files|
        invariant Valid()
        invariant Stats() == CountAll(old(Stats()), os[..i])
        invariant botUuid == old(botUuid) && targetType == old(targetType) && targetId == old(targetId) && running == old(running)
      {
        CountAllNext(old(Stats()), os, i);
        ProcessFile(load(files[i]), render, d, renamed(files[i]));
        i := i + 1;
      }
      assert os[..i] == os;
    }
  }
}
