/**
 * The typed configuration layer over the raw configuration dict: one
 * frozen record per section, each built by looking its keys up with a
 * default; a manager that validates the raw dict once, builds each section
 * on first access and caches it; and the backward-compatible dict access.
 *
 * Values are copied through unconverted, so every field holds the raw JSON
 * value (a default when the key is absent). Looking a key up in a nested
 * section that is present but not a dict raises, as `.get` on a non-dict
 * does; the builders return `None` for that.
 */
module Config {
  import opened Common

  function S(s: string): Json { JStr(s) }
  function I(i: int): Json { JInt(i) }
  function B(b: bool): Json { JBool(b) }

  /** `data.get(key, {})` used as a dict: the nested dict, `{}` when absent, `None` when it would raise. */
  function SubDict(data: map<string, Json>, key: string): (r: Option<map<string, Json>>)
    ensures key !in data ==> r == Some(map[])
    ensures r.None? <==> key in data && !data[key].JObj?
  {
    if key !in data then Some(map[])
    else if data[key].JObj? then Some(data[key].fields)
    else None
  }

  // ------------------------------------------------------------------ AI

  datatype AIQueueConfig = AIQueueConfig(maxSize: Json, workers: Json, retryCount: Json)

  /** `AIConfig` without the float `temperature`. */
  datatype AIConfig = AIConfig(
    model: Json, apiKey: Json, apiBase: Json, timeout: Json, maxTokens: Json, numRetries: Json,
    fallbackModels: Json, extraParams: Json, queue: AIQueueConfig)

  const DefaultAIConfig := AIConfig(S("deepseek/deepseek-chat"), S(""), S(""), I(120), I(5000), I(2),
                                    JList([]), JObj(map[]), AIQueueConfig(I(100), I(2), I(3)))

  /** `AIConfig.from_dict(data)` */
  function AIConfigFrom(data: map<string, Json>): Option<AIConfig> {
    match SubDict(data, "QUEUE")
    case None => None
    case Some(q) =>
      Some(AIConfig(
        Get(data, "MODEL", S("deepseek/deepseek-chat")), Get(data, "API_KEY", S("")),
        Get(data, "API_BASE", S("")), Get(data, "TIMEOUT", I(120)), Get(data, "MAX_TOKENS", I(5000)),
        Get(data, "NUM_RETRIES", I(2)), Get(data, "FALLBACK_MODELS", JList([])),
        Get(data, "EXTRA_PARAMS", JObj(map[])),
        AIQueueConfig(Get(q, "MAX_SIZE", I(100)), Get(q, "WORKERS", I(2)), Get(q, "RETRY_COUNT", I(3)))))
  }

  /**
   * `from_dict` raises only on a non-dict QUEUE; every key that is present
   * is copied through, every absent one takes the dataclass default.
   */
  lemma AIConfigFromSpec(data: map<string, Json>)
    ensures AIConfigFrom(data).None? <==> "QUEUE" in data && !data["QUEUE"].JObj?
    ensures AIConfigFrom(map[]) == Some(DefaultAIConfig)
    ensures var r := AIConfigFrom(data);
            r.Some? ==>
              && ("MODEL" in data ==> r.value.model == data["MODEL"])
              && ("MODEL" !in data ==> r.value.model == DefaultAIConfig.model)
              && ("TIMEOUT" in data ==> r.value.timeout == data["TIMEOUT"])
              && ("TIMEOUT" !in data ==> r.value.timeout == I(120))
              && ("MAX_TOKENS" in data ==> r.value.maxTokens == data["MAX_TOKENS"])
              && ("MAX_TOKENS" !in data ==> r.value.maxTokens == I(5000))
              && ("QUEUE" !in data ==> r.value.queue == DefaultAIConfig.queue)
  {
  }

  datatype AIAnalysisWindowConfig = AIAnalysisWindowConfig(enabled: Json, start: Json, end: Json, oncePerDay: Json)

  datatype AIAnalysisConfig = AIAnalysisConfig(
    enabled: Json, language: Json, promptFile: Json, mode: Json, maxNewsForAnalysis: Json,
    includeRss: Json, includeRankTimeline: Json, analysisWindow: AIAnalysisWindowConfig)

  const DefaultAIAnalysisConfig := AIAnalysisConfig(
    B(false), S("Chinese"), S("ai_analysis_prompt.txt"), S("follow_report"), I(50), B(true), B(false),
    AIAnalysisWindowConfig(B(false), S("09:00"), S("22:00"), B(false)))

  /** `AIAnalysisConfig.from_dict(data)`: the window's times come from its TIME_RANGE dict. */
  function AIAnalysisConfigFrom(data: map<string, Json>): Option<AIAnalysisConfig> {
    match SubDict(data, "ANALYSIS_WINDOW")
    case None => None
    case Some(w) =>
      match SubDict(w, "TIME_RANGE")
      case None => None
      case Some(t) =>
        Some(AIAnalysisConfig(
          Get(data, "ENABLED", B(false)), Get(data, "LANGUAGE", S("Chinese")),
          Get(data, "PROMPT_FILE", S("ai_analysis_prompt.txt")), Get(data, "MODE", S("follow_report")),
          Get(data, "MAX_NEWS_FOR_ANALYSIS", I(50)), Get(data, "INCLUDE_RSS", B(true)),
          Get(data, "INCLUDE_RANK_TIMELINE", B(false)),
          AIAnalysisWindowConfig(Get(w, "ENABLED", B(false)), Get(t, "START", S("09:00")),
                                 Get(t, "END", S("22:00")), Get(w, "ONCE_PER_DAY", B(false)))))
  }

  /** The analysis window reads START and END from TIME_RANGE, 09:00 and 22:00 when absent. */
  lemma AnalysisWindowSpec(data: map<string, Json>, w: map<string, Json>, t: map<string, Json>)
    requires SubDict(data, "ANALYSIS_WINDOW") == Some(w) && SubDict(w, "TIME_RANGE") == Some(t)
    ensures AIAnalysisConfigFrom(data).Some?
    ensures var win := AIAnalysisConfigFrom(data).value.analysisWindow;
            && win.start == (if "START" in t then t["START"] else S("09:00"))
            && win.end == (if "END" in t then t["END"] else S("22:00"))
            && ("ONCE_PER_DAY" !in w ==> win.oncePerDay == B(false))
    ensures AIAnalysisConfigFrom(map[]) == Some(DefaultAIAnalysisConfig)
  {
  }

  datatype AITranslationConfig = AITranslationConfig(enabled: Json, language: Json, promptFile: Json)

  const DefaultAITranslationConfig := AITranslationConfig(B(false), S("English"), S("ai_translation_prompt.txt"))

  /** `AITranslationConfig.from_dict(data)` */
  function AITranslationConfigFrom(data: map<string, Json>): AITranslationConfig {
    AITranslationConfig(Get(data, "ENABLED", B(false)), Get(data, "LANGUAGE", S("English")),
                        Get(data, "PROMPT_FILE", S("ai_translation_prompt.txt")))
  }

  // ------------------------------------------------------------------ notification

  datatype PushWindowConfig = PushWindowConfig(enabled: Json, start: Json, end: Json, oncePerDay: Json)

  const DefaultPushWindow := PushWindowConfig(B(false), S("08:00"), S("22:00"), B(true))

  /** `PushWindowConfig.from_dict(data)` */
  function PushWindowFrom(data: map<string, Json>): Option<PushWindowConfig> {
    match SubDict(data, "TIME_RANGE")
    case None => None
    case Some(t) =>
      Some(PushWindowConfig(Get(data, "ENABLED", B(false)), Get(t, "START", S("08:00")),
                            Get(t, "END", S("22:00")), Get(data, "ONCE_PER_DAY", B(true))))
  }

  /** The push window reads START and END from TIME_RANGE, 08:00 and 22:00 when absent, and is once a day by default. */
  lemma PushWindowSpec(data: map<string, Json>, t: map<string, Json>)
    requires SubDict(data, "TIME_RANGE") == Some(t)
    ensures PushWindowFrom(data).Some?
    ensures var win := PushWindowFrom(data).value;
            && win.start == (if "START" in t then t["START"] else S("08:00"))
            && win.end == (if "END" in t then t["END"] else S("22:00"))
            && ("ONCE_PER_DAY" !in data ==> win.oncePerDay == B(true))
    ensures PushWindowFrom(map[]) == Some(DefaultPushWindow)
  {
  }

  /** `NotificationConfig` without the float `batch_send_interval`. */
  datatype NotificationConfig = NotificationConfig(
    enabled: Json,
    messageBatchSize: Json, dingtalkBatchSize: Json, feishuBatchSize: Json, barkBatchSize: Json, slackBatchSize: Json,
    feishuMessageSeparator: Json, maxAccountsPerChannel: Json,
    feishuWebhookUrl: Json, dingtalkWebhookUrl: Json, weworkWebhookUrl: Json, weworkMsgType: Json,
    telegramBotToken: Json, telegramChatId: Json,
    emailEnabled: Json, emailFrom: Json, emailPassword: Json, emailTo: Json, emailSmtpServer: Json, emailSmtpPort: Json,
    ntfyServerUrl: Json, ntfyTopic: Json, ntfyToken: Json,
    barkUrl: Json, slackWebhookUrl: Json, genericWebhookUrl: Json, genericWebhookTemplate: Json,
    pushWindow: PushWindowConfig)

  /** The dataclass field defaults of `NotificationConfig`. */
  predicate NotificationDefaults(n: NotificationConfig) {
    && n.enabled == B(true) && n.messageBatchSize == I(4000) && n.dingtalkBatchSize == I(20000)
    && n.feishuBatchSize == I(29000) && n.barkBatchSize == I(3600) && n.slackBatchSize == I(4000)
    && n.feishuMessageSeparator == S("---") && n.maxAccountsPerChannel == I(3)
    && n.feishuWebhookUrl == S("") && n.dingtalkWebhookUrl == S("") && n.weworkWebhookUrl == S("")
    && n.weworkMsgType == S("markdown") && n.telegramBotToken == S("") && n.telegramChatId == S("")
    && n.emailEnabled == B(true) && n.emailFrom == S("") && n.emailPassword == S("") && n.emailTo == S("")
    && n.emailSmtpServer == S("") && n.emailSmtpPort == S("")
    && n.ntfyServerUrl == S("https://ntfy.sh") && n.ntfyTopic == S("") && n.ntfyToken == S("")
    && n.barkUrl == S("") && n.slackWebhookUrl == S("") && n.genericWebhookUrl == S("")
    && n.genericWebhookTemplate == S("") && n.pushWindow == DefaultPushWindow
  }

  /** `NotificationConfig.from_raw_config(config)`: top-level keys of the raw dict. */
  function NotificationFrom(c: map<string, Json>): Option<NotificationConfig> {
    match SubDict(c, "PUSH_WINDOW")
    case None => None
    case Some(pw) =>
      match PushWindowFrom(pw)
      case None => None
      case Some(window) => Some(NotificationRecord(c, window))
  }

  /** The record `from_raw_config` builds from the top-level keys once the push window is built. */
  function NotificationRecord(c: map<string, Json>, window: PushWindowConfig): NotificationConfig {
        NotificationConfig(
          Get(c, "ENABLE_NOTIFICATION", B(true)),
          Get(c, "MESSAGE_BATCH_SIZE", I(4000)), Get(c, "DINGTALK_BATCH_SIZE", I(20000)),
          Get(c, "FEISHU_BATCH_SIZE", I(29000)), Get(c, "BARK_BATCH_SIZE", I(3600)),
          Get(c, "SLACK_BATCH_SIZE", I(4000)),
          Get(c, "FEISHU_MESSAGE_SEPARATOR", S("---")), Get(c, "MAX_ACCOUNTS_PER_CHANNEL", I(3)),
          Get(c, "FEISHU_WEBHOOK_URL", S("")), Get(c, "DINGTALK_WEBHOOK_URL", S("")),
          Get(c, "WEWORK_WEBHOOK_URL", S("")), Get(c, "WEWORK_MSG_TYPE", S("markdown")),
          Get(c, "TELEGRAM_BOT_TOKEN", S("")), Get(c, "TELEGRAM_CHAT_ID", S("")),
          Get(c, "EMAIL_ENABLED", B(true)), Get(c, "EMAIL_FROM", S("")), Get(c, "EMAIL_PASSWORD", S("")),
          Get(c, "EMAIL_TO", S("")), Get(c, "EMAIL_SMTP_SERVER", S("")), Get(c, "EMAIL_SMTP_PORT", S("")),
          Get(c, "NTFY_SERVER_URL", S("https://ntfy.sh")), Get(c, "NTFY_TOPIC", S("")), Get(c, "NTFY_TOKEN", S("")),
          Get(c, "BARK_URL", S("")), Get(c, "SLACK_WEBHOOK_URL", S("")),
          Get(c, "GENERIC_WEBHOOK_URL", S("")), Get(c, "GENERIC_WEBHOOK_TEMPLATE", S("")),
          window)
  }

  // ------------------------------------------------------------------ report, storage, RSS

  datatype ReportConfig = ReportConfig(mode: Json, displayMode: Json, rankThreshold: Json,
                                       sortByPositionFirst: Json, maxNewsPerKeyword: Json)

  const DefaultReportConfig := ReportConfig(S("daily"), S("keyword"), I(10), B(false), I(0))

  /** `ReportConfig.from_raw_config(config)` */
  function ReportFrom(c: map<string, Json>): ReportConfig {
    ReportConfig(Get(c, "REPORT_MODE", S("daily")), Get(c, "DISPLAY_MODE", S("keyword")),
                 Get(c, "RANK_THRESHOLD", I(10)), Get(c, "SORT_BY_POSITION_FIRST", B(false)),
                 Get(c, "MAX_NEWS_PER_KEYWORD", I(0)))
  }

  datatype StorageFormatsConfig = StorageFormatsConfig(sqlite: Json, txt: Json, html: Json)
  datatype StorageLocalConfig = StorageLocalConfig(dataDir: Json, retentionDays: Json)
  datatype StorageRemoteConfig = StorageRemoteConfig(endpointUrl: Json, bucketName: Json, accessKeyId: Json,
                                                     secretAccessKey: Json, region: Json, retentionDays: Json)
  datatype StoragePullConfig = StoragePullConfig(enabled: Json, days: Json)
  datatype StorageConfig = StorageConfig(backend: Json, formats: StorageFormatsConfig, local: StorageLocalConfig,
                                         remote: StorageRemoteConfig, pull: StoragePullConfig)

  const DefaultStorageConfig := StorageConfig(
    S("auto"), StorageFormatsConfig(B(true), B(true), B(true)), StorageLocalConfig(S("output"), I(0)),
    StorageRemoteConfig(S(""), S(""), S(""), S(""), S(""), I(0)), StoragePullConfig(B(false), I(7)))

  /** `StorageConfig.from_dict(data)`: four nested dicts, each defaulting to `{}`. */
  function StorageFrom(data: map<string, Json>): Option<StorageConfig> {
    match (SubDict(data, "FORMATS"), SubDict(data, "LOCAL"), SubDict(data, "REMOTE"), SubDict(data, "PULL"))
    case (Some(f), Some(l), Some(r), Some(p)) =>
      Some(StorageConfig(
        Get(data, "BACKEND", S("auto")),
        StorageFormatsConfig(Get(f, "SQLITE", B(true)), Get(f, "TXT", B(true)), Get(f, "HTML", B(true))),
        StorageLocalConfig(Get(l, "DATA_DIR", S("output")), Get(l, "RETENTION_DAYS", I(0))),
        StorageRemoteConfig(Get(r, "ENDPOINT_URL", S("")), Get(r, "BUCKET_NAME", S("")),
                            Get(r, "ACCESS_KEY_ID", S("")), Get(r, "SECRET_ACCESS_KEY", S("")),
                            Get(r, "REGION", S("")), Get(r, "RETENTION_DAYS", I(0))),
        StoragePullConfig(Get(p, "ENABLED", B(false)), Get(p, "DAYS", I(7)))))
    case _ => None
  }

  datatype RSSFreshnessConfig = RSSFreshnessConfig(enabled: Json, maxAgeDays: Json)
  datatype RSSConfig = RSSConfig(enabled: Json, requestInterval: Json, timeout: Json, useProxy: Json,
                                 proxyUrl: Json, feeds: Json, freshnessFilter: RSSFreshnessConfig)

  const DefaultRSSConfig := RSSConfig(B(false), I(2000), I(15), B(false), S(""), JList([]),
                                      RSSFreshnessConfig(B(true), I(3)))

  /** `RSSConfig.from_dict(data)` */
  function RSSFrom(data: map<string, Json>): Option<RSSConfig> {
    match SubDict(data, "FRESHNESS_FILTER")
    case None => None
    case Some(f) =>
      Some(RSSConfig(Get(data, "ENABLED", B(false)), Get(data, "REQUEST_INTERVAL", I(2000)),
                     Get(data, "TIMEOUT", I(15)), Get(data, "USE_PROXY", B(false)), Get(data, "PROXY_URL", S("")),
                     Get(data, "FEEDS", JList([])),
                     RSSFreshnessConfig(Get(f, "ENABLED", B(true)), Get(f, "MAX_AGE_DAYS", I(3)))))
  }

  // ------------------------------------------------------------------ custom crawler

  /** `CrawlerCustomFullContentConfig` without the float `fetch_delay`. */
  datatype CrawlerFullContentConfig = CrawlerFullContentConfig(enabled: Json, asyncMode: Json, timeout: Json)
  datatype CrawlerStorageConfig = CrawlerStorageConfig(maxItems: Json, maxDays: Json, maxDisplayItems: Json)
  datatype CrawlerFilterConfig = CrawlerFilterConfig(enabled: Json, showTag: Json)
  datatype CrawlerCustomConfig = CrawlerCustomConfig(
    enabled: Json, pollInterval: Json, apiType: Json, fullContent: CrawlerFullContentConfig,
    sources: Json, storage: CrawlerStorageConfig, filter: CrawlerFilterConfig)

  const DefaultCrawlerCustomConfig := CrawlerCustomConfig(
    B(false), I(10), S("tapp"), CrawlerFullContentConfig(B(true), B(true), I(10)), JList([]),
    CrawlerStorageConfig(I(10000), I(30), I(100)), CrawlerFilterConfig(B(true), B(true)))

  /** `CrawlerCustomConfig.from_dict(data)` */
  function CrawlerCustomFrom(data: map<string, Json>): Option<CrawlerCustomConfig> {
    match (SubDict(data, "FULL_CONTENT"), SubDict(data, "STORAGE"), SubDict(data, "FILTER"))
    case (Some(fc), Some(st), Some(fl)) =>
      Some(CrawlerCustomConfig(
        Get(data, "ENABLED", B(false)), Get(data, "POLL_INTERVAL", I(10)), Get(data, "API_TYPE", S("tapp")),
        CrawlerFullContentConfig(Get(fc, "ENABLED", B(true)), Get(fc, "ASYNC_MODE", B(true)), Get(fc, "TIMEOUT", I(10))),
        Get(data, "SOURCES", JList([])),
        CrawlerStorageConfig(Get(st, "MAX_ITEMS", I(10000)), Get(st, "MAX_DAYS", I(30)),
                             Get(st, "MAX_DISPLAY_ITEMS", I(100))),
        CrawlerFilterConfig(Get(fl, "ENABLED", B(true)), Get(fl, "SHOW_TAG", B(true)))))
    case _ => None
  }

  /** With nothing configured the custom crawler polls every 10 s with the TAPP API, keeps 10000 items for 30 days and filters. */
  lemma CrawlerCustomDefaults(data: map<string, Json>)
    requires "POLL_INTERVAL" !in data && "API_TYPE" !in data && "STORAGE" !in data && "FILTER" !in data
    requires "FULL_CONTENT" !in data || data["FULL_CONTENT"].JObj?
    ensures CrawlerCustomFrom(data).Some?
    ensures var c := CrawlerCustomFrom(data).value;
            && c.pollInterval == I(10) && c.apiType == S("tapp")
            && c.storage.maxItems == I(10000) && c.storage.maxDays == I(30)
            && c.filter.enabled == B(true)
    ensures CrawlerCustomFrom(map[]) == Some(DefaultCrawlerCustomConfig)
  {
  }

  // ------------------------------------------------------------------ display, app, crawler

  datatype DisplayRegionsConfig = DisplayRegionsConfig(hotlist: Json, newItems: Json, rss: Json,
                                                       standalone: Json, aiAnalysis: Json)
  datatype DisplayStandaloneConfig = DisplayStandaloneConfig(platforms: Json, rssFeeds: Json, maxItems: Json)
  datatype DisplayConfig = DisplayConfig(regionOrder: Json, regions: DisplayRegionsConfig,
                                         standalone: DisplayStandaloneConfig)

  const DefaultRegionOrder := JList([S("hotlist"), S("rss"), S("new_items"), S("standalone"), S("ai_analysis")])

  const DefaultDisplayConfig := DisplayConfig(
    DefaultRegionOrder, DisplayRegionsConfig(B(true), B(true), B(true), B(false), B(true)),
    DisplayStandaloneConfig(JList([]), JList([]), I(20)))

  /** `DisplayConfig.from_dict(data)` */
  function DisplayFrom(data: map<string, Json>): Option<DisplayConfig> {
    match (SubDict(data, "REGIONS"), SubDict(data, "STANDALONE"))
    case (Some(r), Some(s)) =>
      Some(DisplayConfig(
        Get(data, "REGION_ORDER", DefaultRegionOrder),
        DisplayRegionsConfig(Get(r, "HOTLIST", B(true)), Get(r, "NEW_ITEMS", B(true)), Get(r, "RSS", B(true)),
                             Get(r, "STANDALONE", B(false)), Get(r, "AI_ANALYSIS", B(true))),
        DisplayStandaloneConfig(Get(s, "PLATFORMS", JList([])), Get(s, "RSS_FEEDS", JList([])),
                                Get(s, "MAX_ITEMS", I(20)))))
    case _ => None
  }

  datatype AppConfig = AppConfig(timezone: Json, debug: Json, showVersionUpdate: Json,
                                 versionCheckUrl: Json, configsVersionCheckUrl: Json)

  const DefaultAppConfig := AppConfig(S("Asia/Shanghai"), B(false), B(true), S(""), S(""))

  /** `AppConfig.from_raw_config(config)` */
  function AppFrom(c: map<string, Json>): AppConfig {
    AppConfig(Get(c, "TIMEZONE", S("Asia/Shanghai")), Get(c, "DEBUG", B(false)),
              Get(c, "SHOW_VERSION_UPDATE", B(true)), Get(c, "VERSION_CHECK_URL", S("")),
              Get(c, "CONFIGS_VERSION_CHECK_URL", S("")))
  }

  datatype CrawlerConfig = CrawlerConfig(requestInterval: Json, useProxy: Json, defaultProxy: Json,
                                         enablePlatforms: Json)

  const DefaultCrawlerConfig := CrawlerConfig(I(100), B(false), S(""), B(true))

  /** `CrawlerConfig.from_raw_config(config)` */
  function CrawlerFrom(c: map<string, Json>): CrawlerConfig {
    CrawlerConfig(Get(c, "REQUEST_INTERVAL", I(100)), Get(c, "USE_PROXY", B(false)),
                  Get(c, "DEFAULT_PROXY", S("")), Get(c, "ENABLE_PLATFORMS", B(true)))
  }

  // ------------------------------------------------------------------ validation

  const AiModelWarning := "配置了 AI_API_KEY 但未设置 AI_MODEL"
  const NoChannelWarning := "通知已启用但未配置任何推送渠道"

  /** The eight keys any one of which counts as a configured push channel. */
  const ChannelKeys := ["FEISHU_WEBHOOK_URL", "DINGTALK_WEBHOOK_URL", "WEWORK_WEBHOOK_URL", "TELEGRAM_BOT_TOKEN",
                        "EMAIL_FROM", "NTFY_TOPIC", "BARK_URL", "SLACK_WEBHOOK_URL"]

  predicate HasChannel(raw: map<string, Json>) {
    exists i :: 0 <= i < |ChannelKeys| && Truthy(Get(raw, ChannelKeys[i], JNull))
  }

  /** `_validate`: the warnings it logs, or `None` when looking into a non-dict AI section raises. */
  function Validate(raw: map<string, Json>): (r: Option<seq<string>>)
    ensures r.None? <==> "AI" in raw && !raw["AI"].JObj?
    ensures r.Some? ==>
              (AiModelWarning in r.value <==>
                 var ai := SubDict(raw, "AI").value;
                 Truthy(Get(ai, "API_KEY", JNull)) && !Truthy(Get(ai, "MODEL", JNull)))
    ensures r.Some? ==>
              (NoChannelWarning in r.value <==>
                 Truthy(Get(raw, "ENABLE_NOTIFICATION", B(true))) && !HasChannel(raw))
  {
    match SubDict(raw, "AI")
    case None => None
    case Some(ai) =>
      var w1 := if Truthy(Get(ai, "API_KEY", JNull)) && !Truthy(Get(ai, "MODEL", JNull)) then [AiModelWarning] else [];
      var w2 := if Truthy(Get(raw, "ENABLE_NOTIFICATION", B(true))) && !HasChannel(raw) then [NoChannelWarning] else [];
      Some(w1 + w2)
  }

  // ------------------------------------------------------------------ the manager

  /** The eleven typed properties of the manager. */
  datatype Section =
    | AiSection | AiAnalysisSection | AiTranslationSection | NotificationSection | ReportSection
    | StorageSection | RssSection | CrawlerCustomSection | DisplaySection | AppSection | CrawlerSection

  datatype SectionConfig =
    | AiValue(ai: AIConfig)
    | AiAnalysisValue(aiAnalysis: AIAnalysisConfig)
    | AiTranslationValue(aiTranslation: AITranslationConfig)
    | NotificationValue(notification: NotificationConfig)
    | ReportValue(report: ReportConfig)
    | StorageValue(storage: StorageConfig)
    | RssValue(rss: RSSConfig)
    | CrawlerCustomValue(crawlerCustom: CrawlerCustomConfig)
    | DisplayValue(display: DisplayConfig)
    | AppValue(app: AppConfig)
    | CrawlerValue(crawler: CrawlerConfig)

  /**
   * What each property builds on first access: the section-level ones from
   * the raw dict's own nested dict (`{}` when absent), the rest from the raw
   * dict itself. `None` means the access raises.
   */
  function Build(raw: map<string, Json>, s: Section): Option<SectionConfig> {
    match s
    case AiSection =>
      (match SubDict(raw, "AI")
       case None => None
       case Some(d) => match AIConfigFrom(d) case None => None case Some(c) => Some(AiValue(c)))
    case AiAnalysisSection =>
      (match SubDict(raw, "AI_ANALYSIS")
       case None => None
       case Some(d) => match AIAnalysisConfigFrom(d) case None => None case Some(c) => Some(AiAnalysisValue(c)))
    case AiTranslationSection =>
      (match SubDict(raw, "AI_TRANSLATION")
       case None => None
       case Some(d) => Some(AiTranslationValue(AITranslationConfigFrom(d))))
    case NotificationSection =>
      (match NotificationFrom(raw) case None => None case Some(c) => Some(NotificationValue(c)))
    case ReportSection => Some(ReportValue(ReportFrom(raw)))
    case StorageSection =>
      (match SubDict(raw, "STORAGE")
       case None => None
       case Some(d) => match StorageFrom(d) case None => None case Some(c) => Some(StorageValue(c)))
    case RssSection =>
      (match SubDict(raw, "RSS")
       case None => None
       case Some(d) => match RSSFrom(d) case None => None case Some(c) => Some(RssValue(c)))
    case CrawlerCustomSection =>
      (match SubDict(raw, "CRAWLER_CUSTOM")
       case None => None
       case Some(d) => match CrawlerCustomFrom(d) case None => None case Some(c) => Some(CrawlerCustomValue(c)))
    case DisplaySection =>
      (match SubDict(raw, "DISPLAY")
       case None => None
       case Some(d) => match DisplayFrom(d) case None => None case Some(c) => Some(DisplayValue(c)))
    case AppSection => Some(AppValue(AppFrom(raw)))
    case CrawlerSection => Some(CrawlerValue(CrawlerFrom(raw)))
  }

  /** `ConfigManager`: the raw dict and the cache of the sections built so far. */
  class ConfigManager {
    const raw: map<string, Json>
    var cache: map<Section, SectionConfig>

    /** Every cached section is what building it from the raw dict gives. */
    ghost predicate Valid()
      reads this
    {
      forall s :: s in cache ==> Build(raw, s) == Some(cache[s])
    }

    /** The fields `__init__` sets once validation has passed: the raw dict and an empty cache. */
    constructor (raw: map<string, Json>)
      ensures Valid() && this.raw == raw && cache == map[]
    {
      this.raw := raw;
      cache := map[];
    }

    /**
     * A typed property (`ai`, `storage`, ...): built and cached on first
     * access, the cached record afterwards. Either way the result is what
     * building the section from the raw dict gives, so caching is invisible
     * to the caller; a build that raises caches nothing.
     */
    method Property(s: Section) returns (r: Option<SectionConfig>)
      requires Valid()
      modifies this
      ensures Valid()
      ensures r == Build(raw, s)
      ensures s in old(cache) ==> cache == old(cache) && r == Some(old(cache)[s])
      ensures s !in old(cache) && r.Some? ==> cache == old(cache)[s := r.value]
      ensures r.None? ==> cache == old(cache)
    {
      if s in cache {
        r := Some(cache[s]);
      } else {
        r := Build(raw, s);
        if r.Some? {
          cache := cache[s := r.value];
        }
      }
    }

    /** `get(key, default)` */
    function GetRaw(key: string, default: Json): (r: Json)
      ensures key in raw ==> r == raw[key]
      ensures key !in raw ==> r == default
    {
      Get(raw, key, default)
    }

    /** `manager[key]`: the raw value, `None` for the `KeyError`. */
    function Item(key: string): (r: Option<Json>)
      ensures r.Some? <==> Contains(key)
      ensures r.Some? ==> forall d :: GetRaw(key, d) == r.value
    {
      if key in raw then Some(raw[key]) else None
    }

    /** `key in manager` */
    predicate Contains(key: string) {
      key in raw
    }

    /** `raw` and `to_dict()`: a copy equal to the raw dict. */
    function RawCopy(): (r: map<string, Json>)
      ensures r.Keys == raw.Keys && forall k :: k in r ==> r[k] == GetRaw(k, JNull)
    {
      raw
    }
  }

  /**
   * `ConfigManager(raw_config)`: validation first (its warnings are
   * returned rather than logged), then an empty cache. `None` when
   * validation raises.
   */
  method OpenConfig(raw: map<string, Json>) returns (m: Option<ConfigManager>, warnings: seq<string>)
    ensures m.None? <==> Validate(raw).None?
    ensures m.Some? ==> fresh(m.value) && m.value.Valid() && m.value.raw == raw && m.value.cache == map[]
                        && warnings == Validate(raw).value
  {
    var v := Validate(raw);
    if v.None? {
      return None, [];
    }
    warnings := v.value;
    var cm := new ConfigManager(raw);
    m := Some(cm);
  }
}
