/**
 * The shared constants: per-channel message batch sizes, separators,
 * timeouts, limits, AI defaults, the configuration-key alias table and the
 * sentiment emoji. `str.upper()` is the ASCII case mapping of `Common`.
 */
module Constants {
  import opened Common

  /** The `BatchSizes` class attributes, by name (bytes). */
  const BatchSizeTable: map<string, int> := map[
    "FEISHU" := 29000, "DINGTALK" := 20000, "WEWORK" := 4000, "TELEGRAM" := 4000,
    "BARK" := 3600, "NTFY" := 3800, "SLACK" := 4000, "DEFAULT" := 4000]

  const DefaultBatchSize := 4000

  /** `BatchSizes.get(channel)`: the attribute named `channel.upper()`, else `DEFAULT`. */
  function BatchSize(channel: string): (r: int)
    ensures Upper(channel) in BatchSizeTable ==> r == BatchSizeTable[Upper(channel)]
    ensures Upper(channel) !in BatchSizeTable ==> r == DefaultBatchSize
  {
    var name := Upper(channel);
    if name in BatchSizeTable then BatchSizeTable[name] else DefaultBatchSize
  }

  /**
   * Four channels have their own size; every other channel name, known or
   * not, gets the 4000-byte default, in any letter case.
   */
  lemma BatchSizeValues(channel: string)
    ensures Upper(channel) == "FEISHU" ==> BatchSize(channel) == 29000
    ensures Upper(channel) == "DINGTALK" ==> BatchSize(channel) == 20000
    ensures Upper(channel) == "BARK" ==> BatchSize(channel) == 3600
    ensures Upper(channel) == "NTFY" ==> BatchSize(channel) == 3800
    ensures Upper(channel) !in {"FEISHU", "DINGTALK", "BARK", "NTFY"} ==> BatchSize(channel) == 4000
  {
  }

  /** The lower-case spellings of channel names resolve like the upper-case ones. */
  lemma BatchSizeLowerCase()
    ensures BatchSize("feishu") == 29000 && BatchSize("dingtalk") == 20000
    ensures BatchSize("bark") == 3600 && BatchSize("ntfy") == 3800
    ensures BatchSize("wework") == 4000 && BatchSize("unknown") == 4000
  {
    assert Upper("feishu") == "FEISHU";
    assert Upper("dingtalk") == "DINGTALK";
    assert Upper("bark") == "BARK";
    assert Upper("ntfy") == "NTFY";
    assert Upper("wework") == "WEWORK";
    assert Upper("unknown") == "UNKNOWN";
  }

  /** `Separators` */
  const FeishuSeparator := Repeat("━", 20)
  const DefaultSeparator := Repeat("━", 30)
  const LineSeparator := Repeat("─", 40)
  const SectionSeparator := Repeat("═", 40)

  /** `Timeouts` (seconds). */
  const AiAnalysisTimeout := 120
  const HttpRequestTimeout := 30
  const ContentFetchTimeout := 10
  const SmtpConnectTimeout := 30

  /** `Limits` */
  const MaxNewsForAnalysis := 50
  const MaxAccountsPerChannel := 3
  const MaxItemsDisplay := 100
  const MaxQueueSize := 100
  const MaxQueueWorkers := 2
  const MaxRetries := 3

  /** `Intervals` (whole seconds; the retry delay is a float and is left out). */
  const DaemonPoll := 10
  const BatchSend := 3

  /** `AIDefaults` (the float temperature is left out). */
  const AiDefaultTimeout := 120
  const AiDefaultMaxTokens := 5000
  const AiDefaultNumRetries := 2

  /** `CONFIG_KEY_ALIASES` */
  const ConfigKeyAliases: map<string, string> := map[
    "timeout" := "TIMEOUT", "max_tokens" := "MAX_TOKENS", "queue" := "QUEUE",
    "workers" := "WORKERS", "max_size" := "MAX_SIZE", "retry_count" := "RETRY_COUNT"]

  /** `normalize_config_key(key)`: the alias if there is one, else `key.upper()`. */
  function NormalizeConfigKey(key: string): (r: string)
    ensures key !in ConfigKeyAliases ==> r == Upper(key)
    ensures |r| == |key|
  {
    if key in ConfigKeyAliases then ConfigKeyAliases[key] else Upper(key)
  }

  /** Every alias is its key in upper case, so normalising a key is upper-casing it. */
  lemma NormalizeIsUpper(key: string)
    ensures NormalizeConfigKey(key) == Upper(key)
  {
    if key in ConfigKeyAliases {
      assert Upper("timeout") == "TIMEOUT";
      assert Upper("max_tokens") == "MAX_TOKENS";
      assert Upper("queue") == "QUEUE";
      assert Upper("workers") == "WORKERS";
      assert Upper("max_size") == "MAX_SIZE";
      assert Upper("retry_count") == "RETRY_COUNT";
    }
  }

  /** Normalising twice is normalising once. */
  lemma NormalizeIdempotent(key: string)
    ensures NormalizeConfigKey(NormalizeConfigKey(key)) == NormalizeConfigKey(key)
  {
    NormalizeIsUpper(key);
    NormalizeIsUpper(Upper(key));
    assert Upper(Upper(key)) == Upper(key);
  }

  /** `LogPrefixes` */
  const DaemonPrefix := "[Daemon]"
  const AiPrefix := "[AI]"
  const AiQueuePrefix := "[AI Queue]"
  const AiWorkerPrefix := "[AI Worker]"
  const CrawlerPrefix := "[Crawler]"
  const NotificationPrefix := "[Notification]"

  /** `PushTypes` */
  const RawPush := "raw"
  const AiAnalysisPush := "ai_analysis"

  /** `Sentiments.EMOJIS` */
  const SentimentEmojis: map<string, string> := map["positive" := "📈", "negative" := "📉", "neutral" := "➡️"]

  /** `Sentiments.get_emoji(sentiment)`: the mapped emoji, the neutral arrow for anything else. */
  function SentimentEmoji(sentiment: string): (r: string)
    ensures sentiment == "positive" ==> r == "📈"
    ensures sentiment == "negative" ==> r == "📉"
    ensures sentiment !in {"positive", "negative"} ==> r == "➡️"
  {
    if sentiment in SentimentEmojis then SentimentEmojis[sentiment] else SentimentEmojis["neutral"]
  }
}
