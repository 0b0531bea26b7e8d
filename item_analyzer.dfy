/**
 * The per-item AI analyzer of the custom crawler: its enable flag, the
 * lazily built client, the guards and truncation before the chat call, the
 * reply parsing into an analysis result, and the two item fields written
 * back on success.
 *
 * The chat call, `json.loads`, `json.dumps` of the result and the clock are
 * parameters; whether building the client succeeds is a parameter too. The
 * result's fields hold the JSON values the reply carried, unconverted, as
 * the code assigns them.
 */
module ItemAnalyzer {
  import opened Common
  import opened CrawlerBase
  import opened LlmText
  import Config

  /** `NewsAnalysisResult` as this analyzer fills it. */
  datatype ItemAnalysis = ItemAnalysis(
    newsId: string,
    success: bool,
    error: string,
    rawResponse: string,
    sentiment: Json,
    importance: int,
    entities: Json,
    summary: Json,
    tags: Json,
    analyzedAt: string)

  const NotEnabledError := "AI 分析未启用"
  const NoClientError := "AI 客户端初始化失败"
  const NoContentError := "无可分析内容"
  const ParseErrorPrefix := "解析响应失败: "
  const AnalysisErrorPrefix := "分析失败: "

  /** The longest content sent as it is; longer content is cut to this and marked with "...". */
  const MaxContent := 1000

  /**
   * `NewsAnalysisResult(news_id=..., raw_response=...)` followed by
   * `success = False`: sentiment "neutral", importance 3, empty lists.
   */
  function Unsuccessful(newsId: string, rawResponse: string, now: string): (r: ItemAnalysis)
    ensures !r.success && r.error == "" && r.newsId == newsId && r.rawResponse == rawResponse
    ensures r.sentiment == JStr("neutral") && r.importance == 3 && r.analyzedAt == now
  {
    ItemAnalysis(newsId, false, "", rawResponse, JStr("neutral"), 3, JList([]), JStr(""), JList([]), now)
  }

  /** What `_parse_response` does: a result, or an exception it does not catch (with its text). */
  datatype ParseOutcome = ParseDone(result: ItemAnalysis) | ParseRaised(message: string)

  /**
   * `_parse_response(news_id, response)`. The fence cut of the stripped
   * reply is stripped and decoded; a decode error or an `int()` value error
   * is caught and recorded. `errorText` is the text of any other exception:
   * `.get` on a decoded value that is not a dict, `int()` of a list or null.
   * The sentiment is assigned before `int()` runs, so a failed conversion
   * keeps it.
   */
  function ParseResponse(newsId: string, response: string, loads: string -> Decoded,
                         errorText: string, now: string): (r: ParseOutcome)
    ensures r.ParseDone? ==> (r.result.success <==> r.result.error == "")
  {
    DecodedKeeps(newsId, response, loads(JsonText(response)), errorText, now);
    ParseDecoded(newsId, response, loads(JsonText(response)), errorText, now)
  }

  /** `_parse_response` once `json.loads` has given `decoded`. */
  function ParseDecoded(newsId: string, response: string, decoded: Decoded, errorText: string, now: string): ParseOutcome
  {
    var start := Unsuccessful(newsId, response, now);
    match decoded
    case DecodeFailed(msg) => ParseDone(start.(error := ParseErrorPrefix + Take(msg, 50)))
    case DecodeOk(data) =>
      if !data.JObj? then ParseRaised(errorText)
      else
        var d := data.fields;
        var withSentiment := start.(sentiment := Get(d, "sentiment", JStr("neutral")));
        match PyInt(Get(d, "importance", JInt(5)))
        case ValueErr => ParseDone(withSentiment.(error := ParseErrorPrefix + Take(errorText, 50)))
        case TypeErr => ParseRaised(errorText)
        case IntOk(n) =>
          ParseDone(withSentiment.(importance := n, entities := Get(d, "entities", JList([])),
                                   summary := Get(d, "summary", JStr("")), tags := Get(d, "tags", JList([])),
                                   success := true))
  }

  /** An error text built from a prefix starts with it. */
  lemma PrefixedStarts(p: string, x: string)
    ensures StartsWith(p + x, p)
  {
    assert (p + x)[..|p|] == p;
  }

  /** A parsed result keeps the id, the raw reply and the time; a decode error is always caught as a parse error. */
  lemma ParseResponseKeeps(newsId: string, response: string, loads: string -> Decoded, errorText: string, now: string)
    ensures var o := ParseResponse(newsId, response, loads, errorText, now);
            && (loads(JsonText(response)).DecodeFailed? ==>
                  o.ParseDone? && !o.result.success && StartsWith(o.result.error, ParseErrorPrefix))
            && (o.ParseDone? ==> o.result.newsId == newsId && o.result.rawResponse == response
                                 && o.result.analyzedAt == now)
  {
    DecodedKeeps(newsId, response, loads(JsonText(response)), errorText, now);
  }

  /** `ParseResponseKeeps` for a given decoded value. */
  lemma DecodedKeeps(newsId: string, response: string, decoded: Decoded, errorText: string, now: string)
    ensures var o := ParseDecoded(newsId, response, decoded, errorText, now);
            && (decoded.DecodeFailed? ==> o.ParseDone? && !o.result.success && StartsWith(o.result.error, ParseErrorPrefix))
            && (o.ParseDone? ==> o.result.newsId == newsId && o.result.rawResponse == response && o.result.analyzedAt == now)
            && (o.ParseDone? ==> (o.result.success <==> o.result.error == ""))
  {
    if decoded.DecodeFailed? {
      PrefixedStarts(ParseErrorPrefix, Take(decoded.message, 50));
    } else if decoded.value.JObj? {
      var conv := PyInt(Get(decoded.value.fields, "importance", JInt(5)));
      match conv {
        case IntOk(n) =>
        case ValueErr =>
        case TypeErr =>
      }
    }
  }

  /** A parse succeeds exactly when the text decodes to a dict whose importance converts to an integer. */
  lemma ParseSuccessIff(newsId: string, response: string, loads: string -> Decoded, errorText: string, now: string)
    ensures var o := ParseResponse(newsId, response, loads, errorText, now);
            var decoded := loads(JsonText(response));
            (o.ParseDone? && o.result.success) <==>
              (decoded.DecodeOk? && decoded.value.JObj?
               && PyInt(Get(decoded.value.fields, "importance", JInt(5))).IntOk?)
  {
  }

  /**
   * A successful parse takes the sentiment (default "neutral") and the
   * converted importance (default 5) from the decoded dict, with no error.
   */
  lemma ParseSuccessFields(newsId: string, response: string, loads: string -> Decoded, errorText: string, now: string,
                           d: map<string, Json>, n: int)
    requires loads(JsonText(response)) == DecodeOk(JObj(d)) && PyInt(Get(d, "importance", JInt(5))) == IntOk(n)
    ensures var o := ParseResponse(newsId, response, loads, errorText, now);
            && o.ParseDone? && o.result.success && o.result.error == "" && o.result.importance == n
            && ("sentiment" !in d ==> o.result.sentiment == JStr("neutral"))
            && ("importance" !in d ==> n == 5)
  {
  }

  /** A caught failure carries a parse error and keeps the default importance 3. */
  lemma ParseFailureFields(newsId: string, response: string, loads: string -> Decoded, errorText: string, now: string)
    ensures var o := ParseResponse(newsId, response, loads, errorText, now);
            o.ParseDone? && !o.result.success ==>
              StartsWith(o.result.error, ParseErrorPrefix) && o.result.importance == 3
  {
    DecodedFailure(newsId, response, loads(JsonText(response)), errorText, now);
  }

  /** `ParseFailureFields` for a given decoded value. */
  lemma DecodedFailure(newsId: string, response: string, decoded: Decoded, errorText: string, now: string)
    ensures var o := ParseDecoded(newsId, response, decoded, errorText, now);
            o.ParseDone? && !o.result.success ==>
              StartsWith(o.result.error, ParseErrorPrefix) && o.result.importance == 3
  {
    if decoded.DecodeFailed? {
      PrefixedStarts(ParseErrorPrefix, Take(decoded.message, 50));
    } else {
      PrefixedStarts(ParseErrorPrefix, Take(errorText, 50));
    }
  }

  /** The analysed text: `full_content or summary or ""`. */
  function ContentOf(item: NewsItem): (c: string)
    ensures c == "" <==> item.fullContent == "" && item.summary == ""
  {
    if item.fullContent != "" then item.fullContent else item.summary
  }

  /** Content over 1000 characters becomes its first 1000 followed by "...". */
  function Clipped(c: string): (r: string)
    ensures |r| <= MaxContent + 3
    ensures |c| <= MaxContent ==> r == c
    ensures |c| > MaxContent ==> |r| == MaxContent + 3 && r[..MaxContent] == c[..MaxContent] && r[MaxContent..] == "..."
  {
    if |c| > MaxContent then c[..MaxContent] + "..." else c
  }

  const PromptHead := "分析以下财经新闻，返回 JSON 格式结果：\n\n标题: "
  const PromptMiddle := "\n内容: "
  const PromptTail := "\n\n返回格式:\n{\n    \"sentiment\": \"positive/negative/neutral\",\n    \"importance\": 1-10,\n    \"entities\": [\"实体1\", \"实体2\"],\n    \"summary\": \"50字以内摘要\",\n    \"tags\": [\"标签1\", \"标签2\"]\n}\n\n只返回 JSON，不要其他内容。"

  /** `DEFAULT_PROMPT.format(title=..., content=...)` */
  function Prompt(title: string, content: string): string {
    PromptHead + title + PromptMiddle + content + PromptTail
  }

  /** What one `analyze_item_sync` call gives: the result and the item as it leaves it. */
  datatype Analyzed = Analyzed(result: ItemAnalysis, item: NewsItem)

  /**
   * `analyze_item_sync(item)` once the client has (or has not) been built:
   * the three guards, the chat call with the clipped content, the parse, and
   * on a parsed reply the analysis JSON and its time written into the item.
   * An exception from the chat call or the parse is caught into the
   * initial result.
   */
  function AnalyzeItem(enabled: bool, hasClient: bool, item: NewsItem, chat: string -> ChatOutcome,
                       loads: string -> Decoded, errorText: string, dumps: ItemAnalysis -> string,
                       now: string): (a: Analyzed)
    ensures a.result.newsId == item.seqNo
  {
    var start := Unsuccessful(item.seqNo, "", now);
    if !enabled then Analyzed(start.(error := NotEnabledError), item)
    else if !hasClient then Analyzed(start.(error := NoClientError), item)
    else if ContentOf(item) == "" then Analyzed(start.(error := NoContentError), item)
    else
      match chat(Prompt(item.title, Clipped(ContentOf(item))))
      case ChatRaised(msg) => Analyzed(start.(error := AnalysisErrorPrefix + Take(msg, 100)), item)
      case Replied(response) =>
        ParseResponseKeeps(item.seqNo, response, loads, errorText, now);
        match ParseResponse(item.seqNo, response, loads, errorText, now)
        case ParseRaised(msg) => Analyzed(start.(error := AnalysisErrorPrefix + Take(msg, 100)), item)
        case ParseDone(r) => Analyzed(r, item.(aiAnalysis := dumps(r), aiAnalysisTime := r.analyzedAt))
  }

  /**
   * The result always belongs to the item. A disabled analyzer, a missing
   * client or an item without text fail with their own messages and leave
   * the item alone. Otherwise the item is either left alone or changed in
   * exactly `ai_analysis` (the rendered result) and `ai_analysis_time`,
   * which happens for every successful result.
   */
  lemma AnalyzeItemSpec(enabled: bool, hasClient: bool, item: NewsItem, chat: string -> ChatOutcome,
                        loads: string -> Decoded, errorText: string, dumps: ItemAnalysis -> string, now: string)
    ensures var a := AnalyzeItem(enabled, hasClient, item, chat, loads, errorText, dumps, now);
            && a.result.newsId == item.seqNo
            && (!enabled ==> !a.result.success && a.result.error == NotEnabledError && a.item == item)
            && (enabled && !hasClient ==> !a.result.success && a.result.error == NoClientError && a.item == item)
            && (enabled && hasClient && item.fullContent == "" && item.summary == "" ==>
                  !a.result.success && a.result.error == NoContentError && a.item == item)
            && (a.item == item
                || a.item == item.(aiAnalysis := dumps(a.result), aiAnalysisTime := a.result.analyzedAt))
            && (a.result.success ==>
                  a.item == item.(aiAnalysis := dumps(a.result), aiAnalysisTime := a.result.analyzedAt))
  {
    if enabled && hasClient && ContentOf(item) != "" {
      var c := chat(Prompt(item.title, Clipped(ContentOf(item))));
      if c.Replied? {
        ParseResponseKeeps(item.seqNo, c.text, loads, errorText, now);
      }
    }
  }

  /** `ai_config.get("ENABLED", False) if ai_config else False` */
  function EnabledFlag(aiConfig: map<string, Json>): (e: Json)
    ensures Truthy(e) <==> "ENABLED" in aiConfig && Truthy(aiConfig["ENABLED"])
  {
    if aiConfig != map[] then Get(aiConfig, "ENABLED", JBool(false)) else JBool(false)
  }

  /** `NewsItemAnalyzer`: its configuration, its enable flag and whether its client exists. */
  class NewsItemAnalyzer {
    const aiConfig: map<string, Json>
    const enabled: Json
    var hasClient: bool

    /** `NewsItemAnalyzer(ai_config)`; a missing configuration is the empty one. */
    constructor (aiConfig: map<string, Json>)
      ensures this.aiConfig == aiConfig && enabled == EnabledFlag(aiConfig) && !hasClient
    {
      this.aiConfig := aiConfig;
      enabled := EnabledFlag(aiConfig);
      hasClient := false;
    }

    /** `_init_client`: nothing when the client exists or the analyzer is disabled; else the client if it builds. */
    method InitClient(builds: bool)
      modifies this
      ensures hasClient == (old(hasClient) || (Truthy(enabled) && builds))
    {
      if hasClient {
        return;
      }
      if !Truthy(enabled) {
        return;
      }
      hasClient := builds;
    }

    /** `analyze_item_sync(item)`: the client is built first when enabled, then the item is analysed. */
    method AnalyzeItemSync(item: NewsItem, builds: bool, chat: string -> ChatOutcome, loads: string -> Decoded,
                           errorText: string, dumps: ItemAnalysis -> string, now: string)
      returns (r: ItemAnalysis, updated: NewsItem)
      modifies this
      ensures hasClient == (old(hasClient) || (Truthy(enabled) && builds))
      ensures Analyzed(r, updated) == AnalyzeItem(Truthy(enabled), hasClient, item, chat, loads, errorText, dumps, now)
    {
      if Truthy(enabled) {
        InitClient(builds);
      }
      var a := AnalyzeItem(Truthy(enabled), hasClient, item, chat, loads, errorText, dumps, now);
      r, updated := a.result, a.item;
    }

    /**
     * `analyze_batch(items)`, one item after another: one result per item,
     * in order, each item analysed with the client state the first call
     * leaves.
     */
    method AnalyzeBatch(items: seq<NewsItem>, builds: bool, chat: string -> ChatOutcome, loads: string -> Decoded,
                        errorText: string, dumps: ItemAnalysis -> string, now: string)
      returns (rs: seq<ItemAnalysis>, updated: seq<NewsItem>)
      modifies this
      ensures items == [] ==> hasClient == old(hasClient)
      ensures items != [] ==> hasClient == (old(hasClient) || (Truthy(enabled) && builds))
      ensures |rs| == |items| && |updated| == |items|
      ensures forall i :: 0 <= i < |items| ==>
                Analyzed(rs[i], updated[i])
                == AnalyzeItem(Truthy(enabled), hasClient, items[i], chat, loads, errorText, dumps, now)
    {
      rs, updated := [], [];
      var i := 0;
      while i < |items|
        invariant 0 <= i <= |items| && |rs| == i && |updated| == i
        invariant i == 0 ==> hasClient == old(hasClient)
        invariant i > 0 ==> hasClient == (old(hasClient) || (Truthy(enabled) && builds))
        invariant forall j :: 0 <= j < i ==>
                    Analyzed(rs[j], updated[j])
                    == AnalyzeItem(Truthy(enabled), hasClient, items[j], chat, loads, errorText, dumps, now)
      {
        var r, u := AnalyzeItemSync(items[i], builds, chat, loads, errorText, dumps, now);
        rs, updated := rs + [r], updated + [u];
        i := i + 1;
      }
    }
  }

  /**
   * The configuration `create_news_item_analyzer` builds: the AI section
   * with `ENABLED` taken from the analysis section. `None` when either
   * section is present but not a dict.
   */
  function MergedConfig(config: map<string, Json>): Option<map<string, Json>> {
    match (Config.SubDict(config, "AI"), Config.SubDict(config, "AI_ANALYSIS"))
    case (Some(ai), Some(analysis)) => Some(ai["ENABLED" := Get(analysis, "ENABLED", JBool(false))])
    case _ => None
  }

  /**
   * The merged analyzer is enabled exactly when `AI_ANALYSIS.ENABLED` is
   * truthy (absent means disabled), whatever the AI section says; every
   * other AI key is kept.
   */
  lemma MergedConfigSpec(config: map<string, Json>)
    ensures MergedConfig(config).None? <==>
              ("AI" in config && !config["AI"].JObj?) || ("AI_ANALYSIS" in config && !config["AI_ANALYSIS"].JObj?)
    ensures MergedConfig(config).Some? ==>
              var analysis := Config.SubDict(config, "AI_ANALYSIS").value;
              var ai := Config.SubDict(config, "AI").value;
              var m := MergedConfig(config).value;
              && (Truthy(EnabledFlag(m)) <==> "ENABLED" in analysis && Truthy(analysis["ENABLED"]))
              && m.Keys == ai.Keys + {"ENABLED"}
              && forall k :: k in ai && k != "ENABLED" ==> m[k] == ai[k]
  {
  }

  /** `create_news_item_analyzer(config)`: an analyzer over the merged configuration. */
  method CreateNewsItemAnalyzer(config: map<string, Json>) returns (a: Option<NewsItemAnalyzer>)
    ensures a.Some? <==> MergedConfig(config).Some?
    ensures a.Some? ==> fresh(a.value) && a.value.aiConfig == MergedConfig(config).value && !a.value.hasClient
  {
    var m := MergedConfig(config);
    if m.None? {
      return None;
    }
    var analyzer := new NewsItemAnalyzer(m.value);
    a := Some(analyzer);
  }
}
