/**
 * The scheduled daily report a LangBot timer task sends: a header with the
 * date, an optional statistics block, up to eight recent news items, and a
 * footer; or a fixed placeholder when there is nothing to report. The
 * database reads, the file count and the clock are parameters: the recent
 * rows and the statistics as the queries return them, the number of
 * processed push files, and the date and time already formatted.
 */
module DailyPush {
  import opened Common

  /** A recent news row; `source` is None when the row has no source key (the report then shows "未知"). */
  datatype NewsRow = NewsRow(title: string, source: Option<string>)

  /** One `(source_name, count)` pair of the per-source statistics. */
  datatype SourceCount = SourceCount(name: string, count: int)

  /** `get_daily_stats`: the crawl total and the per-source counts, largest first. */
  datatype DailyStats = DailyStats(total: int, sources: seq<SourceCount>)

  const Placeholder := "📰 TrendRadar 日报\n\n暂无新的财经快讯"
  const FailurePrefix := "❌ 生成财经日报失败: "
  const ReportListed := 8
  const TitleCut := 45
  const SummaryCut := 50
  const TopSourceCount := 3
  const MoreLead := "   ... 还有 "
  const ReportRule := "━━━━━━━━━━━━━━━━━━━━"
  const SummaryRule := "━━━━━━━━━━━━━━━━"

  /** A title longer than 45 characters becomes its first 45 followed by "...". */
  function CutTitle(t: string): (r: string)
    ensures |t| <= TitleCut ==> r == t
    ensures |t| > TitleCut ==> |r| == TitleCut + 3 && r[..TitleCut] == t[..TitleCut] && EndsWith(r, "...")
    ensures |r| <= TitleCut + 3
  {
    if |t| > TitleCut then t[..TitleCut] + "..." else t
  }

  function SourceText(n: NewsRow): string {
    match n.source
    case Some(s) => s
    case None => "未知"
  }

  /** `f"{s[0]}({s[1]})"` */
  function SourceLabel(s: SourceCount): string {
    s.name + "(" + IntToString(s.count) + ")"
  }

  /** The sources the statistics block names: the first three. */
  function TopSources(sources: seq<SourceCount>): (r: seq<string>)
    ensures |r| == if |sources| < TopSourceCount then |sources| else TopSourceCount
    ensures forall k :: 0 <= k < |r| ==> r[k] == SourceLabel(sources[k])
  {
    var top := Take(sources, TopSourceCount);
    seq(|top|, k requires 0 <= k < |top| => SourceLabel(top[k]))
  }

  /** The statistics block: present only for non-empty statistics; the source line only when there are sources. */
  function StatsLines(stats: Option<DailyStats>, processed: nat): (r: seq<string>)
    ensures stats.None? ==> r == []
    ensures stats.Some? ==> |r| == (if stats.value.sources == [] then 4 else 5) && r[|r| - 1] == ""
    ensures stats.Some? && stats.value.sources != [] ==>
      r[3] == "   • 主要来源: " + Join(TopSources(stats.value.sources), ", ")
  {
    match stats
    case None => []
    case Some(s) =>
      ["📊 **今日统计**", "   • 抓取新闻: " + IntToString(s.total) + " 条", "   • 推送消息: " + NatToString(processed) + " 条"]
      + (if s.sources != [] then ["   • 主要来源: " + Join(TopSources(s.sources), ", ")] else [])
      + [""]
  }

  /** A listed row's first line: its number and its cut title. */
  function HeadLine(n: nat, row: NewsRow): string {
    NatToString(n) + ". " + CutTitle(row.title)
  }

  /** A listed row's second line: its source. */
  function SourceLine(row: NewsRow): string {
    "   📍 " + SourceText(row)
  }

  /** Two lines per listed row, numbered from 1: number and cut title, then the source. */
  function ItemLines(items: seq<NewsRow>): (r: seq<string>)
    ensures |r| == 2 * |items|
  {
    if items == [] then []
    else ItemLines(items[..|items| - 1]) + [HeadLine(|items|, items[|items| - 1]), SourceLine(items[|items| - 1])]
  }

  /** The `k`-th listed row is numbered `k + 1` and shows its cut title and its source. */
  lemma {:induction false} ItemLinesAt(items: seq<NewsRow>, k: nat)
    requires k < |items|
    ensures ItemLines(items)[2 * k] == HeadLine(k + 1, items[k])
    ensures ItemLines(items)[2 * k + 1] == SourceLine(items[k])
  {
    var init := items[..|items| - 1];
    if k < |items| - 1 {
      ItemLinesAt(init, k);
      assert ItemLines(items)[2 * k] == ItemLines(init)[2 * k];
      assert ItemLines(items)[2 * k + 1] == ItemLines(init)[2 * k + 1];
    }
  }

  /** The news block: present only when there are rows; at most eight listed, then a count of the rest. */
  function NewsLines(news: seq<NewsRow>): (r: seq<string>)
    ensures news == [] ==> r == []
    ensures news != [] ==> |r| >= 3
  {
    if news == [] then []
    else [NewsHeader(|news|), ""] + ItemLines(Take(news, ReportListed)) + MoreLines(|news|) + [""]
  }

  /** `f"📌 **热门快讯** (最近 {len(news_items)} 条)"` */
  function NewsHeader(n: nat): string {
    "📌 **热门快讯** (最近 " + NatToString(n) + " 条)"
  }

  /** The line counting the unlisted rows, present only beyond eight rows. */
  function MoreLines(n: nat): (r: seq<string>)
    ensures |r| == if n > ReportListed then 1 else 0
  {
    if n > ReportListed then [MoreLead + NatToString(n - ReportListed) + " 条"] else []
  }

  predicate IsMoreLine(l: string) {
    StartsWith(l, MoreLead)
  }

  lemma SourceLineIsNotMore(row: NewsRow)
    ensures !IsMoreLine(SourceLine(row))
  {
    assert SourceLine(row)[3] == '📍' && MoreLead[3] == '.';
  }

  /** The news block lists the first eight rows, numbered from 1, each title cut at 45 characters. */
  lemma NewsLinesListed(news: seq<NewsRow>)
    requires news != []
    ensures var r := NewsLines(news);
            var n := if |news| < ReportListed then |news| else ReportListed;
            && |r| == 3 + 2 * n + (if |news| > ReportListed then 1 else 0)
            && (forall k :: 0 <= k < n ==> r[2 + 2 * k] == HeadLine(k + 1, news[k]) && r[3 + 2 * k] == SourceLine(news[k]))
  {
    forall k | 0 <= k < |Take(news, ReportListed)|
      ensures NewsLines(news)[2 + 2 * k] == HeadLine(k + 1, news[k]) && NewsLines(news)[3 + 2 * k] == SourceLine(news[k])
    {
      NewsLineAt(news, k);
    }
  }

  lemma NewsLineAt(news: seq<NewsRow>, k: nat)
    requires k < |Take(news, ReportListed)|
    ensures |NewsLines(news)| > 3 + 2 * k
    ensures NewsLines(news)[2 + 2 * k] == HeadLine(k + 1, news[k]) && NewsLines(news)[3 + 2 * k] == SourceLine(news[k])
  {
    var listed := Take(news, ReportListed);
    var items := ItemLines(listed);
    var r := NewsLines(news);
    var pre: seq<string> := [NewsHeader(|news|), ""];
    var rest := items + (MoreLines(|news|) + [""]);
    assert r == pre + rest;
    ItemLinesAt(listed, k);
    assert listed[k] == news[k];
    assert rest[2 * k] == items[2 * k] && rest[2 * k + 1] == items[2 * k + 1];
    assert r[2 + 2 * k] == rest[2 * k];
    assert r[3 + 2 * k] == rest[2 * k + 1];
  }

  /**
   * Just before its closing empty line, the news block has a line counting
   * the unlisted rows exactly when there are more than eight.
   */
  lemma NewsLinesMore(news: seq<NewsRow>)
    requires news != []
    ensures var r := NewsLines(news);
            && |r| >= 3
            && (IsMoreLine(r[|r| - 2]) <==> |news| > ReportListed)
            && (|news| > ReportListed ==> r[|r| - 2] == MoreLead + NatToString(|news| - ReportListed) + " 条")
            && r[|r| - 1] == ""
  {
    var listed := Take(news, ReportListed);
    var items := ItemLines(listed);
    var r := NewsLines(news);
    if |news| <= ReportListed {
      assert r == [NewsHeader(|news|), ""] + items + [""];
      ItemLinesAt(listed, |listed| - 1);
      assert r[|r| - 2] == items[2 * (|listed| - 1) + 1];
      SourceLineIsNotMore(listed[|listed| - 1]);
    } else {
      assert r[|r| - 2] == MoreLines(|news|)[0];
      assert StartsWith(MoreLines(|news|)[0], MoreLead);
    }
  }

  /** The lines of `format_daily_report`: header, statistics, news, footer. */
  function ReportLines(news: seq<NewsRow>, stats: Option<DailyStats>, processed: nat, date: string, time: string): (r: seq<string>)
    ensures |r| == 6 + |StatsLines(stats, processed)| + |NewsLines(news)|
    ensures r[..4] == ["📰 **TrendRadar 财经日报**", ReportRule, "📅 " + date + "  🕐 " + time, ""]
    ensures r[|r| - 2..] == [ReportRule, "💡 输入 `!tr status` 查看详情"]
  {
    ["📰 **TrendRadar 财经日报**", ReportRule, "📅 " + date + "  🕐 " + time, ""]
    + StatsLines(stats, processed) + NewsLines(news)
    + [ReportRule, "💡 输入 `!tr status` 查看详情"]
  }

  /** `format_daily_report(news_items, stats)` */
  function FormatDailyReport(news: seq<NewsRow>, stats: Option<DailyStats>, processed: nat, date: string, time: string)
    : (r: string)
    ensures StartsWith(r, "📰 **TrendRadar 财经日报**\n")
  {
    var ls := ReportLines(news, stats, processed, date, time);
    assert ls[0] == ls[..4][0];
    JoinedHead(ls, "\n");
    Join(ls, "\n")
  }

  /** The report holds the statistics block exactly when there are statistics, and the news block exactly when there are rows. */
  lemma ReportBlocks(news: seq<NewsRow>, stats: Option<DailyStats>, processed: nat, date: string, time: string)
    ensures var r := ReportLines(news, stats, processed, date, time);
            && (stats.None? && news == [] <==> |r| == 6)
            && (stats.None? ==> r[4..|r| - 2] == NewsLines(news))
            && (news == [] ==> r[4..|r| - 2] == StatsLines(stats, processed))
  {
    var r := ReportLines(news, stats, processed, date, time);
    var head: seq<string> := ["📰 **TrendRadar 财经日报**", ReportRule, "📅 " + date + "  🕐 " + time, ""];
    var st, nl := StatsLines(stats, processed), NewsLines(news);
    var foot: seq<string> := [ReportRule, "💡 输入 `!tr status` 查看详情"];
    assert r == head + st + nl + foot;
    assert r[4..|r| - 2] == st + nl;
    assert |r| == 6 + |st| + |nl|;
  }

  /**
   * `execute`: the text of an exception raised while gathering, the
   * placeholder when there are neither rows nor statistics, otherwise the
   * report.
   */
  function Execute(news: seq<NewsRow>, stats: Option<DailyStats>, processed: nat, date: string, time: string,
                   failure: Option<string>): (r: string)
    ensures failure.Some? ==> r == FailurePrefix + failure.value
    ensures failure.None? && news == [] && stats.None? ==> r == Placeholder
    ensures failure.None? && (news != [] || stats.Some?) ==> r == FormatDailyReport(news, stats, processed, date, time)
  {
    if failure.Some? then FailurePrefix + failure.value
    else if news == [] && stats.None? then Placeholder
    else FormatDailyReport(news, stats, processed, date, time)
  }

  // ---------------------------------------------------------- news summary

  /** Three lines per listed row, numbered from 1: number and title cut to 50 characters (no ellipsis), source, and an empty line. */
  function SummaryItemLines(items: seq<NewsRow>): (r: seq<string>)
    ensures |r| == 3 * |items|
  {
    if items == [] then []
    else SummaryItemLines(items[..|items| - 1])
         + [SummaryHead(|items|, items[|items| - 1]), SourceLine(items[|items| - 1]), ""]
  }

  /** A summary row's first line: its number and the title's first 50 characters, with nothing appended. */
  function SummaryHead(n: nat, row: NewsRow): string {
    NatToString(n) + ". " + Take(row.title, SummaryCut)
  }

  /** The `k`-th listed row of the summary: its number and title prefix, its source, an empty line. */
  lemma {:induction false} SummaryItemLinesAt(items: seq<NewsRow>, k: nat)
    requires k < |items|
    ensures SummaryItemLines(items)[3 * k] == SummaryHead(k + 1, items[k])
    ensures SummaryItemLines(items)[3 * k + 1] == SourceLine(items[k])
    ensures SummaryItemLines(items)[3 * k + 2] == ""
  {
    var init := items[..|items| - 1];
    if k < |items| - 1 {
      SummaryItemLinesAt(init, k);
      assert SummaryItemLines(items)[3 * k] == SummaryItemLines(init)[3 * k];
      assert SummaryItemLines(items)[3 * k + 1] == SummaryItemLines(init)[3 * k + 1];
      assert SummaryItemLines(items)[3 * k + 2] == SummaryItemLines(init)[3 * k + 2];
    }
  }

  /** The lines of `format_news_summary`. */
  function SummaryLines(items: seq<NewsRow>, now: string): seq<string> {
    ["📰 **TrendRadar 财经快讯**", SummaryRule, "🕐 " + now, ""]
    + SummaryItemLines(Take(items, ReportListed))
    + [SummaryRule, "💡 输入 `!tr status` 查看更多"]
  }

  /** `format_news_summary(items)` */
  function FormatNewsSummary(items: seq<NewsRow>, now: string): (r: string)
    ensures StartsWith(r, "📰 **TrendRadar 财经快讯**\n")
  {
    var ls := SummaryLines(items, now);
    JoinedHead(ls, "\n");
    Join(ls, "\n")
  }

  /** A join of two or more parts starts with the first part and the separator. */
  lemma JoinedHead(parts: seq<string>, sep: string)
    requires |parts| >= 2
    ensures StartsWith(Join(parts, sep), parts[0] + sep)
  {
    var j := Join(parts, sep);
    assert j == (parts[0] + sep) + Join(parts[1..], sep);
    assert j[..|parts[0] + sep|] == parts[0] + sep;
  }

  /** The summary lists the first eight rows, each title cut to at most 50 characters with no ellipsis added. */
  lemma SummaryShape(items: seq<NewsRow>, now: string)
    ensures var r := SummaryLines(items, now);
            var n := if |items| < ReportListed then |items| else ReportListed;
            && |r| == 6 + 3 * n
            && (forall k :: 0 <= k < n ==> r[4 + 3 * k] == SummaryHead(k + 1, items[k]) && r[5 + 3 * k] == SourceLine(items[k]))
  {
    var listed := Take(items, ReportListed);
    var body := SummaryItemLines(listed);
    var r := SummaryLines(items, now);
    assert r == ["📰 **TrendRadar 财经快讯**", SummaryRule, "🕐 " + now, ""] + body + [SummaryRule, "💡 输入 `!tr status` 查看更多"];
    forall k | 0 <= k < |listed| ensures r[4 + 3 * k] == SummaryHead(k + 1, items[k]) && r[5 + 3 * k] == SourceLine(items[k]) {
      SummaryItemLinesAt(listed, k);
      assert listed[k] == items[k];
      assert r[4 + 3 * k] == body[3 * k];
      assert r[5 + 3 * k] == body[3 * k + 1];
    }
  }
}
