/**
 * The configuration defaults: building any section from an empty dict
 * gives the record whose fields are the dataclass defaults.
 */
module ConfigDefaults {
  import opened Common
  import opened Config

  /**
   * The defaults written in the builders agree with the dataclass field
   * defaults: building a section from an empty dict gives the default
   * record. (The AI, analysis-window, push-window and custom-crawler
   * sections have lemmas of their own next to their builders.)
   */
  lemma EmptyGivesDefaults()
    ensures AITranslationConfigFrom(map[]) == DefaultAITranslationConfig
    ensures ReportFrom(map[]) == DefaultReportConfig
    ensures AppFrom(map[]) == DefaultAppConfig
    ensures CrawlerFrom(map[]) == DefaultCrawlerConfig
  {
  }

  /** `NotificationConfig.from_raw_config({})` is the default notification record. */
  lemma NotificationEmpty()
    ensures NotificationFrom(map[]).Some? && NotificationDefaults(NotificationFrom(map[]).value)
  {
    NotificationRecordEmpty();
  }

  /** With no top-level keys set, every notification field takes its dataclass default. */
  lemma NotificationRecordEmpty()
    ensures NotificationDefaults(NotificationRecord(map[], DefaultPushWindow))
  {
  }

  /** The nested storage, RSS and display sections built from `{}` are their defaults. */
  lemma NestedEmpty()
    ensures StorageFrom(map[]) == Some(DefaultStorageConfig)
    ensures RSSFrom(map[]) == Some(DefaultRSSConfig)
    ensures DisplayFrom(map[]) == Some(DefaultDisplayConfig)
  {
  }

  /** On an empty raw configuration the nested-section properties are their sections' defaults. */
  lemma BuildEmptyNested()
    ensures Build(map[], AiSection) == Some(AiValue(DefaultAIConfig))
    ensures Build(map[], CrawlerCustomSection) == Some(CrawlerCustomValue(DefaultCrawlerCustomConfig))
    ensures Build(map[], StorageSection) == Some(StorageValue(DefaultStorageConfig))
  {
    AIConfigFromSpec(map[]);
    CrawlerCustomDefaults(map[]);
    NestedEmpty();
  }

  /** On an empty raw configuration the notification property has every notification default. */
  lemma BuildEmptyNotification()
    ensures Build(map[], NotificationSection).Some?
    ensures NotificationDefaults(Build(map[], NotificationSection).value.notification)
  {
    NotificationEmpty();
    var n := NotificationFrom(map[]).value;
    assert Build(map[], NotificationSection) == Some(NotificationValue(n));
  }

  /** On an empty raw configuration the report and app properties are their sections' defaults. */
  lemma BuildEmptyTopLevel()
    ensures Build(map[], AppSection) == Some(AppValue(DefaultAppConfig))
    ensures Build(map[], ReportSection) == Some(ReportValue(DefaultReportConfig))
  {
    EmptyGivesDefaults();
  }
}
