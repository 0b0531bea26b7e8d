/**
 * The simple LLM analyzer: its normalised configuration (upper- or
 * lower-case keys), prompt selection, the analysis call with its content
 * cut, the reply parsing with its plain-text fallback, the summary and
 * keyword calls, and the result's dict form.
 *
 * The analyzer's two spellings of the fence cut agree with `FenceBody`
 * (`LlmText.SimpleFenceBody`, `LlmText.KeywordsFenceBody`), so the text
 * it decodes is `JsonText`. The prompt files, `str.format` of a template, the chat call,
 * `json.loads` and the clock are parameters; whether building the client
 * succeeds is a parameter too. Result fields hold the JSON values the reply
 * carried, unconverted, as the code assigns them.
 */
module SimpleAnalyzer {
  import opened Common
  import opened LlmText
  import Config

  /** `AnalysisResult` */
  datatype AnalysisResult = AnalysisResult(
    newsId: string,
    summary: Json,
    keywords: Json,
    sentiment: Json,
    importance: int,
    category: Json,
    rawResponse: string,
    success: bool,
    error: string,
    analyzedAt: string,
    modelUsed: Json)

  /** `AnalysisResult(news_id=..., model_used=...)` at time `now`: successful until something raises. */
  function NewResult(newsId: string, modelUsed: Json, now: string): (r: AnalysisResult)
    ensures r.success && r.error == "" && r.rawResponse == "" && r.newsId == newsId && r.modelUsed == modelUsed
    ensures r.sentiment == JStr("neutral") && r.importance == 3 && r.summary == JStr("")
  {
    AnalysisResult(newsId, JStr(""), JList([]), JStr("neutral"), 3, JStr(""), "", true, "", now, modelUsed)
  }

  /** `to_dict()`: ten entries, every field but the raw response. */
  function ResultDict(r: AnalysisResult): (d: map<string, Json>)
    ensures d.Keys == {"news_id", "summary", "keywords", "sentiment", "importance", "category",
                       "success", "error", "analyzed_at", "model_used"}
    ensures d["news_id"] == JStr(r.newsId) && d["success"] == JBool(r.success) && d["importance"] == JInt(r.importance)
    ensures d["summary"] == r.summary && d["error"] == JStr(r.error)
  {
    map["news_id" := JStr(r.newsId), "summary" := r.summary, "keywords" := r.keywords,
        "sentiment" := r.sentiment, "importance" := JInt(r.importance), "category" := r.category,
        "success" := JBool(r.success), "error" := JStr(r.error), "analyzed_at" := JStr(r.analyzedAt),
        "model_used" := r.modelUsed]
  }

  /** The raw response never reaches the dict: results differing only there have the same dict. */
  lemma ResultDictOmitsRaw(r: AnalysisResult, raw: string)
    ensures "raw_response" !in ResultDict(r)
    ensures ResultDict(r.(rawResponse := raw)) == ResultDict(r)
  {
  }

  // ---------------------------------------------------------------- configuration

  /** `ai_config.get(upper) or ai_config.get(lower, default)` */
  function Pick(ai: map<string, Json>, upper: string, lower: string, default: Json): (v: Json)
    ensures upper in ai && Truthy(ai[upper]) ==> v == ai[upper]
    ensures !(upper in ai && Truthy(ai[upper])) ==> v == (if lower in ai then ai[lower] else default)
  {
    Or(Get(ai, upper, JNull), Get(ai, lower, default))
  }

  /**
   * The `ai_config` the constructor builds (the float TEMPERATURE aside):
   * from the AI section when there is one, else from the configuration
   * itself. `None` when the AI entry is not a dict.
   */
  function NormalizedConfig(config: map<string, Json>): Option<map<string, Json>> {
    var source := if "AI" in config then config["AI"] else JObj(config);
    if !source.JObj? then None
    else
      var ai := source.fields;
      Some(map["MODEL" := Pick(ai, "MODEL", "model", JStr("")),
               "API_KEY" := Pick(ai, "API_KEY", "api_key", JStr("")),
               "API_BASE" := Pick(ai, "API_BASE", "api_base", JStr("")),
               "MAX_TOKENS" := Pick(ai, "MAX_TOKENS", "max_tokens", JInt(2000)),
               "TIMEOUT" := Pick(ai, "TIMEOUT", "timeout", JInt(60))])
  }

  /**
   * The normalised configuration has exactly the five keys. A truthy
   * upper-case entry wins; otherwise the lower-case entry, otherwise the
   * default (2000 tokens, 60 s). A configuration without an AI section is
   * read as the AI section itself.
   */
  lemma NormalizedConfigSpec(config: map<string, Json>)
    ensures NormalizedConfig(config).None? <==> "AI" in config && !config["AI"].JObj?
    ensures NormalizedConfig(config).Some? ==>
              var ai := if "AI" in config then config["AI"].fields else config;
              var m := NormalizedConfig(config).value;
              && m.Keys == {"MODEL", "API_KEY", "API_BASE", "MAX_TOKENS", "TIMEOUT"}
              && ("MAX_TOKENS" !in ai && "max_tokens" !in ai ==> m["MAX_TOKENS"] == JInt(2000))
              && ("TIMEOUT" !in ai && "timeout" !in ai ==> m["TIMEOUT"] == JInt(60))
              && ("MODEL" in ai && Truthy(ai["MODEL"]) ==> m["MODEL"] == ai["MODEL"])
              && ("MODEL" !in ai ==> m["MODEL"] == Get(ai, "model", JStr("")))
  {
  }

  // ---------------------------------------------------------------- prompts and parsing

  const DefaultPrompt := "你是一位专业的财经新闻分析师。请分析以下新闻，返回 JSON 格式结果。\n\n标题: {title}\n内容: {content}\n\n请返回以下格式的 JSON（只返回 JSON，不要其他内容）:\n{{\n    \"summary\": \"一句话摘要（不超过50字）\",\n    \"keywords\": [\"关键词1\", \"关键词2\", \"关键词3\"],\n    \"sentiment\": \"positive/negative/neutral\",\n    \"importance\": 1-5的整数,\n    \"category\": \"分类\"\n}}"

  /** The longest content passed into a prompt. */
  const MaxContent := 1500

  /** `content[:1500] if len(content) > 1500 else content` */
  function CutContent(c: string): (r: string)
    ensures |r| <= MaxContent && |r| <= |c| && r == c[..|r|]
    ensures |c| <= MaxContent ==> r == c
    ensures |c| > MaxContent ==> |r| == MaxContent
  {
    if |c| > MaxContent then c[..MaxContent] else c
  }

  /** What `template.format(title=..., content=...)` does: the text, or an exception with its text. */
  datatype Formatted = FormatOk(text: string) | FormatRaised(message: string)

  const JsonWarningPrefix := "JSON 解析警告: "

  /** The plain-text fallback after a caught parse error: the reply's first 100 characters as summary, still successful. */
  function JsonFallback(r: AnalysisResult, response: string, message: string): (f: AnalysisResult)
    ensures f.success && f.summary == JStr(Take(response, 100)) && StartsWith(f.error, JsonWarningPrefix)
    ensures f.rawResponse == r.rawResponse && f.importance == r.importance && f.newsId == r.newsId
    ensures f.modelUsed == r.modelUsed
  {
    assert (JsonWarningPrefix + Take(message, 50))[..|JsonWarningPrefix|] == JsonWarningPrefix;
    r.(summary := JStr(Take(response, 100)), success := true, error := JsonWarningPrefix + Take(message, 50))
  }

  /** `_parse_response` ends normally with a result, or lets an exception escape after some fields were set. */
  datatype ParseStep = Finished(result: AnalysisResult) | Escaped(partial: AnalysisResult, message: string)

  /**
   * `_parse_response(result, response)`: decode the stripped fence cut; set
   * summary, keywords and sentiment, then the converted importance
   * (default 3) and the category. A decode error or an `int()` value error
   * falls back to the plain-text summary; `.get` on a non-dict and `int()`
   * of a list or null escape with `errorText`.
   */
  function ParseInto(r: AnalysisResult, response: string, loads: string -> Decoded, errorText: string): ParseStep {
    ParseDecoded(r, response, loads(JsonText(response)), errorText)
  }

  /** `_parse_response` once `json.loads` has given `decoded`. */
  function ParseDecoded(r: AnalysisResult, response: string, decoded: Decoded, errorText: string): ParseStep {
    match decoded
    case DecodeFailed(msg) => Finished(JsonFallback(r, response, msg))
    case DecodeOk(data) =>
      if !data.JObj? then Escaped(r, errorText)
      else
        var d := data.fields;
        var r1 := r.(summary := Get(d, "summary", JStr("")), keywords := Get(d, "keywords", JList([])),
                     sentiment := Get(d, "sentiment", JStr("neutral")));
        match PyInt(Get(d, "importance", JInt(3)))
        case ValueErr => Finished(JsonFallback(r1, response, errorText))
        case TypeErr => Escaped(r1, errorText)
        case IntOk(n) => Finished(r1.(importance := n, category := Get(d, "category", JStr("")), success := true))
  }

  /** A parse keeps the raw response, the id and the model, and one that finishes is successful. */
  lemma ParseIntoKeeps(r: AnalysisResult, response: string, loads: string -> Decoded, errorText: string)
    ensures var p := ParseInto(r, response, loads, errorText);
            && (p.Finished? ==> p.result.success && p.result.rawResponse == r.rawResponse && p.result.newsId == r.newsId
                                && p.result.modelUsed == r.modelUsed)
            && (p.Escaped? ==> p.partial.rawResponse == r.rawResponse && p.partial.newsId == r.newsId
                               && p.partial.modelUsed == r.modelUsed)
  {
    DecodedKeeps(r, response, loads(JsonText(response)), errorText);
  }

  /** `ParseIntoKeeps` for a given decoded value. */
  lemma DecodedKeeps(r: AnalysisResult, response: string, decoded: Decoded, errorText: string)
    ensures var p := ParseDecoded(r, response, decoded, errorText);
            && (p.Finished? ==> p.result.success && p.result.rawResponse == r.rawResponse && p.result.newsId == r.newsId
                                && p.result.modelUsed == r.modelUsed)
            && (p.Escaped? ==> p.partial.rawResponse == r.rawResponse && p.partial.newsId == r.newsId
                               && p.partial.modelUsed == r.modelUsed)
  {
    if decoded.DecodeOk? && decoded.value.JObj? {
      var conv := PyInt(Get(decoded.value.fields, "importance", JInt(3)));
      match conv {
        case IntOk(n) =>
        case ValueErr =>
        case TypeErr =>
      }
    }
  }

  /** A reply whose cut does not decode falls back to its first 100 characters with a JSON warning. */
  lemma ParseIntoFallback(r: AnalysisResult, response: string, loads: string -> Decoded, errorText: string)
    requires loads(JsonText(response)).DecodeFailed?
    ensures var p := ParseInto(r, response, loads, errorText);
            && p.Finished? && p.result.success && p.result.summary == JStr(Take(response, 100))
            && StartsWith(p.result.error, JsonWarningPrefix)
  {
  }

  /** An exception escapes the parse exactly when the cut decodes to a non-dict, or its importance is a list or null. */
  lemma ParseIntoEscapes(r: AnalysisResult, response: string, loads: string -> Decoded, errorText: string)
    ensures var decoded := loads(JsonText(response));
            ParseInto(r, response, loads, errorText).Escaped? <==>
              decoded.DecodeOk? && (!decoded.value.JObj? || PyInt(Get(decoded.value.fields, "importance", JInt(3))).TypeErr?)
  {
    DecodedEscapes(r, response, loads(JsonText(response)), errorText);
  }

  /** `ParseIntoEscapes` for a given decoded value. */
  lemma DecodedEscapes(r: AnalysisResult, response: string, decoded: Decoded, errorText: string)
    ensures ParseDecoded(r, response, decoded, errorText).Escaped? <==>
              decoded.DecodeOk? && (!decoded.value.JObj? || PyInt(Get(decoded.value.fields, "importance", JInt(3))).TypeErr?)
  {
    if decoded.DecodeOk? && decoded.value.JObj? {
      var conv := PyInt(Get(decoded.value.fields, "importance", JInt(3)));
      match conv {
        case IntOk(n) =>
        case ValueErr =>
        case TypeErr =>
      }
    }
  }

  /** A reply whose cut decodes to a dict with a convertible importance fills the result from it. */
  lemma ParseIntoFields(r: AnalysisResult, response: string, loads: string -> Decoded, errorText: string,
                        d: map<string, Json>, n: int)
    requires loads(JsonText(response)) == DecodeOk(JObj(d))
    requires PyInt(Get(d, "importance", JInt(3))) == IntOk(n)
    ensures var p := ParseInto(r, response, loads, errorText);
            && p.Finished? && p.result.success && p.result.error == r.error && p.result.importance == n
            && p.result.summary == Get(d, "summary", JStr("")) && p.result.category == Get(d, "category", JStr(""))
            && ("sentiment" !in d ==> p.result.sentiment == JStr("neutral"))
            && ("importance" !in d ==> n == 3)
  {
    var r1 := r.(summary := Get(d, "summary", JStr("")), keywords := Get(d, "keywords", JList([])),
                 sentiment := Get(d, "sentiment", JStr("neutral")));
    assert ParseInto(r, response, loads, errorText)
        == Finished(r1.(importance := n, category := Get(d, "category", JStr("")), success := true));
  }

  /**
   * `analyze(...)` once the client exists or failed to build (`hasClient`):
   * format the prompt with the cut content, chat, record the raw reply,
   * parse. Any exception on the way fails the result with the first 200
   * characters of its text; `errorText` is that of a failed client build.
   */
  function Analysis(aiConfig: map<string, Json>, prompt: string, hasClient: bool, newsId: string, title: string,
                    content: string, format: (string, string, string) -> Formatted, chat: string -> ChatOutcome,
                    loads: string -> Decoded, errorText: string, now: string): AnalysisResult
  {
    var start := NewResult(newsId, Get(aiConfig, "MODEL", JStr("unknown")), now);
    if !hasClient then start.(success := false, error := Take(errorText, 200))
    else
      match format(prompt, title, CutContent(content))
      case FormatRaised(m) => start.(success := false, error := Take(m, 200))
      case FormatOk(text) =>
        match chat(text)
        case ChatRaised(m) => start.(success := false, error := Take(m, 200))
        case Replied(response) =>
          match ParseInto(start.(rawResponse := response), response, loads, errorText)
          case Finished(r) => r
          case Escaped(r, m) => r.(success := false, error := Take(m, 200))
  }

  /**
   * An analysis fails exactly when something raised, and then its error is
   * at most 200 characters; without a client it always fails.
   */
  lemma AnalysisFailure(aiConfig: map<string, Json>, prompt: string, hasClient: bool, newsId: string, title: string,
                        content: string, format: (string, string, string) -> Formatted, chat: string -> ChatOutcome,
                        loads: string -> Decoded, errorText: string, now: string)
    ensures var r := Analysis(aiConfig, prompt, hasClient, newsId, title, content, format, chat, loads, errorText, now);
            && (!r.success ==> |r.error| <= 200)
            && (!hasClient ==> !r.success)
  {
    var start := NewResult(newsId, Get(aiConfig, "MODEL", JStr("unknown")), now);
    if hasClient {
      match format(prompt, title, CutContent(content)) {
        case FormatRaised(m) =>
        case FormatOk(text) =>
          match chat(text) {
            case ChatRaised(m) =>
            case Replied(response) =>
              ParseIntoKeeps(start.(rawResponse := response), response, loads, errorText);
          }
      }
    }
  }

  /**
   * An analysis records the news id and the configured model, and the raw
   * reply whenever the chat answered. The prompt is formatted with at most
   * 1500 characters of content.
   */
  lemma AnalysisRecords(aiConfig: map<string, Json>, prompt: string, hasClient: bool, newsId: string, title: string,
                        content: string, format: (string, string, string) -> Formatted, chat: string -> ChatOutcome,
                        loads: string -> Decoded, errorText: string, now: string)
    ensures var r := Analysis(aiConfig, prompt, hasClient, newsId, title, content, format, chat, loads, errorText, now);
            && r.newsId == newsId
            && ("MODEL" in aiConfig ==> r.modelUsed == aiConfig["MODEL"])
            && (hasClient && format(prompt, title, CutContent(content)).FormatOk?
                && chat(format(prompt, title, CutContent(content)).text).Replied? ==>
                  r.rawResponse == chat(format(prompt, title, CutContent(content)).text).text)
  {
    var start := NewResult(newsId, Get(aiConfig, "MODEL", JStr("unknown")), now);
    if hasClient {
      match format(prompt, title, CutContent(content)) {
        case FormatRaised(m) =>
        case FormatOk(text) =>
          match chat(text) {
            case ChatRaised(m) =>
            case Replied(response) =>
              ParseIntoKeeps(start.(rawResponse := response), response, loads, errorText);
          }
      }
    }
  }

  /** `summarize(...)`: the stripped reply, or "" when anything raises. */
  function Summary(prompt: string, hasClient: bool, title: string, content: string,
                   format: (string, string, string) -> Formatted, chat: string -> ChatOutcome): (s: string)
    ensures !hasClient ==> s == ""
    ensures s == [] || (!IsSpace(s[0]) && !IsSpace(s[|s| - 1]))
  {
    if !hasClient then ""
    else
      match format(prompt, title, CutContent(content))
      case FormatRaised(_) => ""
      case FormatOk(text) =>
        match chat(text)
        case ChatRaised(_) => ""
        case Replied(response) => Strip(response)
  }

  /** `extract_keywords(...)`: the decoded fence cut of the reply, or `[]` when anything raises. */
  function Keywords(prompt: string, hasClient: bool, title: string, content: string,
                    format: (string, string, string) -> Formatted, chat: string -> ChatOutcome,
                    loads: string -> Decoded): Json
  {
    if !hasClient then JList([])
    else
      match format(prompt, title, CutContent(content))
      case FormatRaised(_) => JList([])
      case FormatOk(text) =>
        match chat(text)
        case ChatRaised(_) => JList([])
        case Replied(response) =>
          match loads(JsonText(response))
          case DecodeFailed(_) => JList([])
          case DecodeOk(v) => v
  }

  /**
   * Keyword extraction gives `[]` whenever the client, the formatting, the
   * chat or the decoding fails, and otherwise the decoded cut, the same cut
   * the analysis decodes.
   */
  lemma KeywordsSpec(prompt: string, hasClient: bool, title: string, content: string,
                     format: (string, string, string) -> Formatted, chat: string -> ChatOutcome,
                     loads: string -> Decoded)
    ensures var k := Keywords(prompt, hasClient, title, content, format, chat, loads);
            var f := format(prompt, title, CutContent(content));
            && (!hasClient || f.FormatRaised? || (f.FormatOk? && chat(f.text).ChatRaised?) ==> k == JList([]))
            && (hasClient && f.FormatOk? && chat(f.text).Replied? ==>
                  var decoded := loads(JsonText(chat(f.text).text));
                  k == if decoded.DecodeOk? then decoded.value else JList([]))
  {
  }

  /** `SimpleAnalyzer`: the normalised configuration, the loaded prompt files, and whether its client exists. */
  class SimpleAnalyzer {
    const aiConfig: map<string, Json>
    const prompts: map<string, string>
    var hasClient: bool

    /** The constructor once the configuration is normalised and the prompt files are read. */
    constructor (aiConfig: map<string, Json>, prompts: map<string, string>)
      ensures this.aiConfig == aiConfig && this.prompts == prompts && !hasClient
    {
      this.aiConfig := aiConfig;
      this.prompts := prompts;
      hasClient := false;
    }

    /** `_get_prompt(name)`: the loaded prompt of that name, else the default prompt. */
    function GetPrompt(name: string): (p: string)
      ensures name in prompts ==> p == prompts[name]
      ensures name !in prompts ==> p == DefaultPrompt
    {
      if name in prompts then prompts[name] else DefaultPrompt
    }

    /** The `model` property: the configured model, "unknown" only when there is no MODEL entry. */
    function Model(): (m: Json)
      ensures "MODEL" in aiConfig ==> m == aiConfig["MODEL"]
    {
      Get(aiConfig, "MODEL", JStr("unknown"))
    }

    /** `_init_client`: nothing when the client exists; else the client if it builds. */
    method InitClient(builds: bool)
      modifies this
      ensures hasClient == (old(hasClient) || builds)
    {
      if hasClient {
        return;
      }
      hasClient := builds;
    }

    /** `analyze(news_id, title, content, prompt_name)` */
    method Analyze(newsId: string, title: string, content: string, promptName: string, builds: bool,
                   format: (string, string, string) -> Formatted, chat: string -> ChatOutcome,
                   loads: string -> Decoded, errorText: string, now: string) returns (r: AnalysisResult)
      modifies this
      ensures hasClient == (old(hasClient) || builds)
      ensures r == Analysis(aiConfig, GetPrompt(promptName), hasClient, newsId, title, content, format, chat,
                            loads, errorText, now)
    {
      InitClient(builds);
      r := Analysis(aiConfig, GetPrompt(promptName), hasClient, newsId, title, content, format, chat,
                    loads, errorText, now);
    }

    /** `summarize(news_id, title, content)` with the "summarize" prompt. */
    method Summarize(title: string, content: string, builds: bool,
                     format: (string, string, string) -> Formatted, chat: string -> ChatOutcome) returns (s: string)
      modifies this
      ensures hasClient == (old(hasClient) || builds)
      ensures s == Summary(GetPrompt("summarize"), hasClient, title, content, format, chat)
    {
      InitClient(builds);
      s := Summary(GetPrompt("summarize"), hasClient, title, content, format, chat);
    }

    /** `extract_keywords(news_id, title, content)` with the "keywords" prompt. */
    method ExtractKeywords(title: string, content: string, builds: bool,
                           format: (string, string, string) -> Formatted, chat: string -> ChatOutcome,
                           loads: string -> Decoded) returns (k: Json)
      modifies this
      ensures hasClient == (old(hasClient) || builds)
      ensures k == Keywords(GetPrompt("keywords"), hasClient, title, content, format, chat, loads)
    {
      InitClient(builds);
      k := Keywords(GetPrompt("keywords"), hasClient, title, content, format, chat, loads);
    }
  }

  /** `create_analyzer(config)` / `SimpleAnalyzer(config)`: `None` when the AI entry is not a dict. */
  method CreateAnalyzer(config: map<string, Json>, prompts: map<string, string>) returns (a: Option<SimpleAnalyzer>)
    ensures a.Some? <==> NormalizedConfig(config).Some?
    ensures a.Some? ==> fresh(a.value) && a.value.aiConfig == NormalizedConfig(config).value
                        && a.value.prompts == prompts && !a.value.hasClient
  {
    var m := NormalizedConfig(config);
    if m.None? {
      return None;
    }
    var analyzer := new SimpleAnalyzer(m.value, prompts);
    a := Some(analyzer);
  }
}
