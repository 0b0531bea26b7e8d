# TrendRadar crawler core, modelled in Dafny

This project models the parts of TrendRadar that gather, filter, queue and
push financial news, and proves properties of that model.

- **Crawler data** (`base.dfy`, module `CrawlerBase`): the fetch status enumeration, the news item with its 17-key dictionary form and the round trip through it, the result of one list fetch, and the error-log entry.
- **Crawler manager** (`manager.dfy`, `CrawlManager`; `store.dfy`, `CrawlStore`): a class holding the crawler registry, per-source statistics, per-source seen-sets, the capped error log and the raw-item table. The SQL upsert is a per-column merge over a map keyed by (source id, seq). One crawl pass is specified source by source by a fold, and the class's methods are proved to agree with it. The content-fetch loop, the memory fallback of `get_errors` and the count-based retention sweep are modelled too.
- **Keyword filter** (`filter.dfy`, `KeywordFilter`): the global filter, the layer-by-layer group match, the matched display names, the in-place marking and splitting of an item array, and the line parser of `frequency_words.txt`.
- **Source decoding** (`ths.dfy`, `ThsCrawler`; `ths_tapp.dfy`, `ThsTapp`): JSONP repair, item extraction, the list-fetch status mapping, the host fallback of the full-content fetch, paragraph cleaning and the batch fetch. The TAPP crawler's extraction adds coercions and a newest-first stable sort. Its `fetch_full_content`, `_fetch_content_from_url` and batch fetch are the JSONP crawler's, modelled once in `ThsCrawler`.
- **Crawler prototypes** (`ths_script.dfy`, `ThsScript`; `ths_script_log.dfy`, `ThsScriptLog`): the two stand-alone 7x24 scripts with their seen-sets, their first-wins news table, the full-content pass counters and the item detail text. The logging prototype's `format_news_detail` is the same detail text with a four-space indent.
- **Runner and application** (`runner.dfy`, `CrawlerRunner`; `run_crawler.dfy`, `RunCrawler`): one crawl pass with filtering written into the items, the new-seq prefix rule, filter tags, the display list, the RSS conversion, and the bounded recent-items list merged by seq in place.
- **AI queue** (`ai_queue.dfy`, `AIQueue`; `queue_task.dfy`, `TaskModel`): a bounded FIFO of task objects shared with a task table, one worker step at a time, the retry state machine, the statistics and the result callback.
- **Result models and constants** (`analysis_models.dfy`, `base_models.dfy`, `constants.dfy`).
- **Configuration** (`config.dfy`, `Config`; `config_defaults.dfy`, `ConfigDefaults`): every section record with its defaults, the manager's validation warnings, lazily built and cached sections, and dict-style access.
- **AI analyzers** (`item_analyzer.dfy`, `simple_analyzer.dfy`, `llm_text.dfy`): input guards and truncation, the code-fence cut before `json.loads`, reply parsing with its fallback, and configuration normalisation.
- **Push consumers** (`push_common.dfy`, `feishu_format.dfy`, `feishu_service.dfy`, `langbot_listener.dfy`, `trendradar_push.dfy`): message layouts with item caps and overflow lines, queue-file selection, dispatch by message type, the processed/sent/failed counters, the Feishu tenant-token cache, and the daily report.

`common.dfy` (`Common`) holds the Python-like helpers every module shares: an Option type, a JSON value as `json.loads` yields it, truthiness, `str.strip`, `find`/`rfind`, slicing with negative bounds, `split`/`join`/`replace`, and order-preserving de-duplication.

Python's effects are parameters of the model: HTTP replies, `json.loads`/`json.dumps`, regular-expression search, the clock, task ids, file loads, renames and sends. Time is a whole number of seconds.

## Model

| member | source | states |
|---|---|---|
| AIQueue.Attempted | trendradar/ai/queue/manager.py:200-234 | one processed attempt starts at `now`; a returned value completes the queued task with that result, a raise adds one retry and the error text and leaves it PENDING while retries remain, FAILED after |
| AIQueue.CallbackFor | trendradar/ai/queue/manager.py:213-218 | at most one callback; exactly one iff a callback is set and the queued task ended COMPLETED (with its result, success true) or FAILED (with None, success false) |
| AIQueue.AttemptBudget | trendradar/ai/queue/manager.py:223 | a task gets at least one attempt and at least `max_retries` |
| AIQueue.AlwaysRaising | trendradar/ai/queue/manager.py:220-234 | with a processor that always raises, a fresh task stays PENDING for its first max(1, max_retries) - 1 attempts and is FAILED after attempt max(1, max_retries) |
| AIQueue.Task.constructor | trendradar/ai/queue/manager.py:33-43 | a new task holds its id and data, is PENDING with no result, no error and no retries, created at `now` |
| AIQueue.Task.ToDict | trendradar/ai/queue/manager.py:45-55 | the dict has exactly the id and seven tracked keys; the status string names the queued task's status; id, result and retry count are copied |
| AIQueue.WorkerNames | trendradar/ai/queue/manager.py:164-170 | the i-th worker is named `ai-worker-i`, one name per worker |
| AIQueue.SpawnWorkers | trendradar/ai/queue/manager.py:164-172 | the loop names exactly the workers 0 .. n-1 in order |
| AIQueue.Manager.constructor | trendradar/ai/queue/manager.py:64-99 | an empty queue and task table, no workers, not running, no processor or callback, all four counters zero |
| AIQueue.Manager.SetProcessor | trendradar/ai/queue/manager.py:101-107 | the processor is set and nothing else changes |
| AIQueue.Manager.SetResultCallback | trendradar/ai/queue/manager.py:109-115 | the callback is set and nothing else changes |
| AIQueue.Manager.GetStatus | trendradar/ai/queue/manager.py:141-145 | a status exactly for the ids in the table |
| AIQueue.Manager.GetResult | trendradar/ai/queue/manager.py:147-151 | None for an unknown id |
| AIQueue.Manager.GetTask | trendradar/ai/queue/manager.py:153-156 | a task exactly for the ids in the table |
| AIQueue.Manager.Enqueue | trendradar/ai/queue/manager.py:117-139 | a full queue rejects with "队列已满" and leaves the id unknown; otherwise the queued task is queued last, PENDING, counted, and its id returned |
| AIQueue.Manager.Admit | trendradar/ai/queue/manager.py:133-135 | a successful put appends the queued task and adds one to `total_enqueued` |
| AIQueue.Manager.Start | trendradar/ai/queue/manager.py:158-173 | no-op while running; otherwise running with `max_workers` more named workers |
| AIQueue.Manager.Stop | trendradar/ai/queue/manager.py:175-184 | not running, no workers, queue, tasks and counters unchanged |
| AIQueue.Manager.WorkerStep | trendradar/ai/queue/manager.py:186-246 | one loop iteration: an empty queue changes nothing; without a processor the head task is dropped; otherwise the head task is attempted as `Attempted` says |
| AIQueue.Manager.Attempt | trendradar/ai/queue/manager.py:200-243 | the queued task's new state is `Attempted` of its old state and the processor's outcome; it is requeued exactly when it is PENDING again |
| AIQueue.Manager.Succeed | trendradar/ai/queue/manager.py:206-218 | COMPLETED with the result at `now`, one callback if set, processed and succeeded each grow by one |
| AIQueue.Manager.Requeue | trendradar/ai/queue/manager.py:220-229 | retry count plus one, error recorded, PENDING and last in the queue, no callback |
| AIQueue.Manager.GiveUp | trendradar/ai/queue/manager.py:230-240 | retry count plus one, error recorded, FAILED at `now`, one callback if set, processed and failed each grow by one |
| AIQueue.Manager.Finish | trendradar/ai/queue/manager.py:242-243 | a task that reached COMPLETED or FAILED is counted once |
| AIQueue.Manager.CountStatus | trendradar/ai/queue/manager.py:253-254 | the count of tasks with a status is at most the table size |
| AIQueue.Manager.GetStats | trendradar/ai/queue/manager.py:248-255 | the four counters, the queue length, and PENDING and PROCESSING counts that together do not exceed the table |
| AIQueue.Manager.StatusCountsDisjoint | trendradar/ai/queue/manager.py:253-254 | PENDING and PROCESSING counts sum to at most the table size |
| AIQueue.Manager.Clear | trendradar/ai/queue/manager.py:257-266 | the queue and table are empty, every id is unknown, the counters stay |
| AnalysisModels.NewsAnalysisResult.constructor | trendradar/models/analysis.py:15-29 | a successful result at `now` with sentiment "neutral", importance 3 and every text and list empty |
| AnalysisModels.NewsAnalysisResult.MarkError | trendradar/models/base.py:57-61 | the header becomes failed with the message; every analysis field is unchanged |
| AnalysisModels.FromError | trendradar/models/analysis.py:31-36 | a fresh result for the id, failed with the message, otherwise the defaults |
| AnalysisModels.DefaultBatchAnalysis | trendradar/models/analysis.py:39-55 | a successful batch with no error and all three counts zero |
| AnalysisModels.DefaultTranslation | trendradar/models/analysis.py:58-70 | a translation defaults to failed, with no error and no text |
| AnalysisModels.Successes | trendradar/models/analysis.py:85-88 | the successes among the results are at most their number |
| AnalysisModels.TranslationValue | trendradar/models/analysis.py:65-70 | the dict has the six distinct field names |
| AnalysisModels.BatchTranslationResult.constructor | trendradar/models/analysis.py:76-79 | no results and every counter zero |
| AnalysisModels.BatchTranslationResult.AddResult | trendradar/models/analysis.py:81-88 | the result is appended and counted once, as a success or as a failure; the counters keep total = successes + failures |
| AnalysisModels.BatchTranslationResult.AsValue | trendradar/models/analysis.py:76-79 | the dict has the results and the three counters under distinct names |
| AnalysisModels.BatchToDict | trendradar/models/base.py:21-45 | the batch's dict lists each result as its own dict whose "success" is that result's flag |
| CrawlerBase.Value | trendradar/crawler/custom/base.py:16-23 | every fetch status has a non-empty value |
| CrawlerBase.StatusValueRoundTrip | trendradar/crawler/custom/base.py:16-23 | each status is recovered from its value, so the six values are distinct |
| CrawlerBase.NewNewsItem | trendradar/crawler/custom/base.py:53-82 | an item built from `seq` and title has every other field at its default |
| CrawlerBase.AsStrList | trendradar/crawler/custom/base.py:122 | a JSON array read as a list of strings keeps its length |
| CrawlerBase.AsStrListOfStrList | trendradar/crawler/custom/base.py:122 | a list of strings written out and read back is the same list |
| CrawlerBase.ItemToDict | trendradar/crawler/custom/base.py:84-104 | the dict has exactly the 17 field keys |
| CrawlerBase.ItemDictFields1 | trendradar/crawler/custom/base.py:87-90 | seq, title, summary and full content are stored under their keys |
| CrawlerBase.ItemDictFields2 | trendradar/crawler/custom/base.py:91-94 | url, publication time, source and author are stored under their keys |
| CrawlerBase.ItemDictFields3 | trendradar/crawler/custom/base.py:95-98 | extra and the three content-fetch fields are stored under their keys |
| CrawlerBase.ItemDictFields4 | trendradar/crawler/custom/base.py:99-103 | keywords, filter flag and reason, and the AI fields are stored under their keys |
| CrawlerBase.ItemDictRoundTrip | trendradar/crawler/custom/base.py:84-127 | `from_dict(to_dict(item))` is the item |
| CrawlerBase.ItemFromEmptyDict | trendradar/crawler/custom/base.py:106-127 | an empty dict reads as the item with every default, empty `seq` and title included |
| CrawlerBase.WithContent | trendradar/crawler/custom/manager.py:403-408 | the item is marked fetched exactly when the status is SUCCESS |
| CrawlerBase.MakeCrawlResult | trendradar/crawler/custom/base.py:146-150 | an empty fetch time becomes the clock, a given one is kept; a zero total becomes the item count, a given one is kept |
| CrawlerBase.PostInitIdempotent | trendradar/crawler/custom/base.py:146-150 | running the post-initialisation again, at any later time, changes nothing |
| CrawlerBase.NewErrorLogEntry | trendradar/crawler/custom/base.py:154-164 | a new entry is unresolved with an empty note and keeps its source, operation and message |
| CrawlerBase.ErrorToDict | trendradar/crawler/custom/base.py:166-177 | the dict has exactly the nine field keys with the resolved flag and message copied |
| CrawlerBase.BaseCrawler | trendradar/crawler/custom/base.py:250-258 | a crawler on the base class supports full-content fetching |
| BaseModels.FieldsDict | trendradar/models/base.py:27-44 | the dict built from the first n fields has exactly those fields' names as keys |
| BaseModels.ToDict | trendradar/models/base.py:21-44 | `to_dict` has exactly one key per field name |
| BaseModels.Shallow | trendradar/models/base.py:34 | a list element or dict value without `to_dict` is kept as it is |
| BaseModels.FieldsDictAt | trendradar/models/base.py:28-43 | with distinct names, each field appears under its own name with its converted value |
| BaseModels.ToDictSpec | trendradar/models/base.py:21-44 | one entry per field holding its converted value; a nested object becomes its dict, a list keeps its length with each element converted one level, a dict keeps its keys |
| BaseModels.ErrorMarked | trendradar/models/base.py:57-60 | failed with the message, timestamp kept |
| BaseModels.ErrorMarkedLast | trendradar/models/base.py:57-60 | marking twice keeps only the last message; marking is idempotent |
| BaseModels.BaseResult.constructor | trendradar/models/base.py:53-55 | successful, no error, stamped `now` |
| BaseModels.BaseResult.MarkError | trendradar/models/base.py:57-60 | the status becomes `ErrorMarked` of the old one |
| BaseModels.BaseResult.AsValue | trendradar/models/base.py:53-55 | the three fields under distinct names |
| BaseModels.BaseNewsItem.constructor | trendradar/models/base.py:80-89 | the given fields are kept; an empty crawl time becomes the current `%H:%M`, a given one is kept |
| Config.SubDict | trendradar/core/config_manager.py:59 | a missing section reads as `{}`; a present one that is not a dict raises at its first `.get` |
| Config.AIConfigFromSpec | trendradar/core/config_manager.py:56-76 | `from_dict` raises exactly on a non-dict QUEUE; a present key is copied through, an absent one takes the dataclass default; `{}` gives the default record |
| Config.AnalysisWindowSpec | trendradar/core/config_manager.py:100-120 | the analysis window reads START and END from TIME_RANGE, 09:00 and 22:00 when absent; `{}` gives the default record |
| Config.PushWindowSpec | trendradar/core/config_manager.py:152-161 | the push window reads START and END from TIME_RANGE, 08:00 and 22:00 when absent, and is once a day by default; `{}` gives the default record |
| Config.CrawlerCustomDefaults | trendradar/core/config_manager.py:438-465 | with nothing configured the custom crawler polls every 10 seconds with the "tapp" API, keeps 10000 items for 30 days and filters; `{}` gives the default record |
| Config.Validate | trendradar/core/config_manager.py:610-636 | the AI-model warning iff an API key is set without a model; the no-channel warning iff notification is on (by default) and none of the eight channels is set; raises iff the AI section is not a dict |
| Config.ConfigManager.constructor | trendradar/core/config_manager.py:587-608 | the manager keeps the raw dict and starts with nothing cached |
| Config.ConfigManager.Property | trendradar/core/config_manager.py:642-717 | a typed property is what building its section from the raw dict gives, cached on first access and read from the cache afterwards; a build that raises caches nothing |
| Config.ConfigManager.GetRaw | trendradar/core/config_manager.py:723-734 | the raw value of a present key, the default otherwise |
| Config.ConfigManager.Item | trendradar/core/config_manager.py:736-742 | `manager[key]` succeeds exactly for a contained key, with the value `get` gives |
| Config.ConfigManager.RawCopy | trendradar/core/config_manager.py:744-751 | `raw` and `to_dict()` are a copy equal to the raw dict |
| Config.OpenConfig | trendradar/core/config_manager.py:587-608 | constructing fails exactly when validation raises; otherwise the manager holds the raw dict and an empty cache |
| ConfigDefaults.EmptyGivesDefaults | trendradar/core/config_manager.py:123-137 | the translation, report, app and crawler sections built from `{}` are their dataclass defaults |
| ConfigDefaults.NotificationEmpty | trendradar/core/config_manager.py:215-251 | the notification record built from `{}` has every dataclass default |
| ConfigDefaults.NotificationRecordEmpty | trendradar/core/config_manager.py:164-213 | with no top-level key set, every notification field takes its declared default |
| ConfigDefaults.NestedEmpty | trendradar/core/config_manager.py:317-400 | the storage and RSS sections built from `{}` are their defaults, as is the display section |
| ConfigDefaults.BuildEmptyNested | trendradar/core/config_manager.py:642-696 | on an empty configuration the AI, custom-crawler and storage properties are their defaults |
| ConfigDefaults.BuildEmptyNotification | trendradar/core/config_manager.py:663-668 | on an empty configuration the notification property has every default |
| ConfigDefaults.BuildEmptyTopLevel | trendradar/core/config_manager.py:670-717 | on an empty configuration the report and app properties are their defaults |
| Constants.BatchSize | trendradar/constants.py:25-27 | the size listed under the upper-cased channel name, else the default |
| Constants.BatchSizeValues | trendradar/constants.py:13-27 | FEISHU 29000, DINGTALK 20000, BARK 3600, NTFY 3800 in any letter case; every other name 4000 |
| Constants.BatchSizeLowerCase | trendradar/constants.py:25-27 | lower-case channel names resolve like the upper-case ones |
| Constants.NormalizeConfigKey | trendradar/constants.py:88-90 | a key without an alias is upper-cased; the length is kept |
| Constants.NormalizeIsUpper | trendradar/constants.py:78-90 | every alias is its key upper-cased, so normalising is upper-casing |
| Constants.NormalizeIdempotent | trendradar/constants.py:88-90 | normalising twice is normalising once |
| Constants.SentimentEmoji | trendradar/constants.py:112-126 | positive 📈, negative 📉, anything else the neutral arrow |
| FeishuFormat.Cat | scripts/feishu_push_service.py:171-206 | appending rows raises exactly when building either part does |
| FeishuFormat.NotOverflowLine | scripts/feishu_push_service.py:204 | only the overflow row begins with a newline |
| FeishuFormat.RawItemRows | scripts/feishu_push_service.py:180-201 | an item gives its title row, a time row when it has a time and a link row (text, 查看原文 link, newline) when it has a URL; it raises exactly when its keywords cannot be joined |
| FeishuFormat.ListedRows | scripts/feishu_push_service.py:179-201 | one to three rows per listed item, none of them an overflow row |
| FeishuFormat.ListedRowsRaise | scripts/feishu_push_service.py:179-201 | the listed rows raise exactly when some listed item is not a dict or has keywords that cannot be joined |
| FeishuFormat.RawRowsShape | scripts/feishu_push_service.py:169-206 | a raw message has the subject row (default 新消息), the rule row, one to three rows per listed item, and last an overflow row naming the unlisted count exactly when there are more than ten items |
| FeishuFormat.RawRowsRaise | scripts/feishu_push_service.py:169-206 | a raw message raises exactly when `items` cannot be sliced or a listed item is bad |
| FeishuFormat.RawRows | scripts/feishu_push_service.py:169-206 | an unsliceable `items` raises; a built raw message has at least the subject and rule rows, the rule second |
| FeishuFormat.FieldRow | scripts/feishu_push_service.py:239-252 | a field shows a row only when truthy, and raises only when its text does |
| FeishuFormat.AiItemRows | scripts/feishu_push_service.py:215-234 | no items give no item rows |
| FeishuFormat.AiRowsShape | scripts/feishu_push_service.py:208-254 | an AI message has the header and rule rows, one to three item rows when there are items, a blank row, and one row per truthy field of the analysis result |
| FeishuFormat.AiRowsRaise | scripts/feishu_push_service.py:208-254 | an AI message raises exactly when `ai_result` is not a dict, the first item cannot be read, or a shown field has the wrong shape |
| FeishuFormat.AiRows | scripts/feishu_push_service.py:208-254 | an `ai_result` that is not a dict raises; a built AI message starts with its two header rows |
| FeishuFormat.DailyItemRows | scripts/feishu_push_service.py:271-275 | two rows per listed item, raising exactly when one is not a dict |
| FeishuFormat.DailyRowsMessage | scripts/feishu_push_service.py:259-264 | a pre-formatted daily message becomes one row per line, and the rows joined back with newlines are the message itself |
| FeishuFormat.DailyRowsItems | scripts/feishu_push_service.py:265-275 | without a message a daily report has a fixed header and two rows per listed item, and raises exactly when `items` cannot be sliced or a listed item is not a dict |
| FeishuFormat.DailyRows | scripts/feishu_push_service.py:256-277 | a truthy message that is not a string raises; a non-empty message always builds, with at least one row; without one the report starts with its fixed title and rule rows |
| FeishuFormat.Format | scripts/feishu_push_service.py:285-295 | the rows are those of the file's layout, raising exactly when they raise; the title is "AI 分析报告", or the subject with "TrendRadar 日报" and "同花顺快讯" as defaults |
| FeishuService.Successes | scripts/feishu_push_service.py:300-310 | no more successes than receivers |
| FeishuService.SuccessesAreAccepting | scripts/feishu_push_service.py:300-322 | the successes are the receivers whose reply has code 0, one each; a raising send or a refusal only leaves it uncounted |
| FeishuService.SuccessesExtremes | scripts/feishu_push_service.py:300-322 | every receiver counts exactly when each reply accepts; none counts exactly when none does |
| FeishuService.Outcome | scripts/feishu_push_service.py:279-345 | a file is handled only when it loaded as a dict and was renamed, and then counts at most one success per receiver |
| FeishuService.Counted | scripts/feishu_push_service.py:328-338 | each file adds one to sent or failed; processed grows exactly for a handled file, sent exactly for a handled file with a success; the counters stay consistent |
| FeishuService.FeishuPushService.constructor | scripts/feishu_push_service.py:114-153 | the service keeps its receivers and starts with zero counters |
| FeishuService.FeishuPushService.SendToTargets | scripts/feishu_push_service.py:298-322 | the success count of the group chats plus that of the users |
| FeishuService.FeishuPushService.ProcessFile | scripts/feishu_push_service.py:279-345 | the counters become `Counted` of the old ones and this file's `Outcome`; the answer is true exactly when the file was handled and some receiver accepted the post |
| FeishuService.FeishuPushService.ProcessQueue | scripts/feishu_push_service.py:347-360 | the counters become the old ones folded with `Counted` over the `Outcome` of every pending file, in `PendingFiles` order; the answer is the number of those files that were handled and accepted by some receiver |
| FeishuService.CountAllTotals | scripts/feishu_push_service.py:328-360 | over a queue pass each file adds one to sent or failed, sent grows by exactly the files accepted, processed by at most the number of files, and the counters stay consistent |
| FeishuService.TokenStep | scripts/feishu_push_service.py:44-63 | a fresh cached token is returned without asking; a returned token is the cached one; a failure leaves the expiry time |
| FeishuService.TokenReused | scripts/feishu_push_service.py:44-63 | a token fetched at `now` with lifetime `e` (7200 by default) is reused by every call before `now + e - 60`, whatever the endpoint would answer then |
| FeishuService.TokenRefusal | scripts/feishu_push_service.py:58-59 | a reply with a non-zero code leaves the cache and raises with the reply's message |
| FeishuService.FeishuClient.constructor | scripts/feishu_push_service.py:38-42 | no token and expiry 0 |
| FeishuService.FeishuClient.GetTenantToken | scripts/feishu_push_service.py:44-63 | the cache and the answer follow `TokenStep` |
| FeishuService.SplitIdsWellFormed | scripts/feishu_push_service.py:423-424 | every id taken from a comma-separated list is non-empty, stripped and comma-free |
| FeishuService.SplitIdsJoin | scripts/feishu_push_service.py:423-424 | splitting a comma-joined list of well-formed ids gives the list back |
| FeishuService.SplitIds | scripts/feishu_push_service.py:423-424 | no more ids than comma-separated pieces, and none empty |
| FeishuService.ResolveTargets | scripts/feishu_push_service.py:422-436 | each command-line list is replaced by the environment's when empty; the service refuses to start exactly when both end up empty |
| KeywordFilter.AnyExcluded | trendradar/crawler/custom/filter.py:129-133 | true iff some excluded term, its '!' stripped and lower-cased, occurs in the text |
| KeywordFilter.AllRequired | trendradar/crawler/custom/filter.py:136-140 | true iff every required term, its '+' stripped and lower-cased, occurs in the text |
| KeywordFilter.AnyWord | trendradar/crawler/custom/filter.py:143-148 | true iff some plain word, lower-cased, occurs in the text |
| KeywordFilter.AnyPattern | trendradar/crawler/custom/filter.py:151-162 | true iff some pattern, its surrounding slashes removed, searches true; a pattern that does not compile is skipped |
| KeywordFilter.MatchesWordGroup | trendradar/crawler/custom/filter.py:109-174 | a group matches iff no excluded term occurs, every required term occurs, and some word or pattern hits when the group has any, else iff it has a required term (so an empty group never matches) |
| KeywordFilter.GroupKeyword | trendradar/crawler/custom/filter.py:177-187 | the recorded keyword is the display name, else the first word, else the first required term without '+', else "未知"; it is empty only when that first word or term is empty |
| KeywordFilter.FirstGlobalHit | trendradar/crawler/custom/filter.py:38-41 | the first non-empty global term, in list order, that occurs in the lower-cased text; none iff no such term occurs |
| KeywordFilter.LayerHitsMembership | trendradar/crawler/custom/filter.py:54-59 | a keyword is hit in one layer iff some group with that keyword matches that layer |
| KeywordFilter.HitNamesMembership | trendradar/crawler/custom/filter.py:50-59 | a keyword is hit iff some non-empty layer matches some group with that keyword |
| KeywordFilter.FilterDecision | trendradar/crawler/custom/filter.py:14-66 | a global hit rejects the item with no keywords and the first such term in the reason; otherwise the keywords, without duplicates, are exactly the non-empty keywords of groups matched by one single non-empty layer; the item passes iff there is one, with reason "" on pass and "无匹配关键词" on failure |
| KeywordFilter.FilterNewsItem | trendradar/crawler/custom/filter.py:14-66 | the item passes exactly when the reason is empty |
| KeywordFilter.FilterNewsItems | trendradar/crawler/custom/filter.py:69-106 | each item gets its own filter outcome written in place; the passed and filtered lists are the items, in order, with and without `filtered_out` |
| KeywordFilter.MarkAndSplit | trendradar/crawler/custom/filter.py:92-106 | the loop writes each item's outcome and splits the items in order into kept and dropped |
| KeywordFilter.FilterSplitIsPartition | trendradar/crawler/custom/filter.py:101-104 | every item lands in exactly one of the two lists |
| KeywordFilter.WithCurrentGroup | trendradar/crawler/custom/filter.py:247-257 | a keyword line always has a group: the current one, or a new "default" group |
| KeywordFilter.FileTermFilterWords | trendradar/crawler/custom/filter.py:268-276 | filing a term keeps `filter_words` equal to every excluded term of every group with its '!' removed |
| KeywordFilter.FileTermWellFormed | trendradar/crawler/custom/filter.py:268-276 | filing a term keeps every group's terms under their prefixes |
| KeywordFilter.OpenSectionKeepsInvariant | trendradar/crawler/custom/filter.py:222-239 | a header line keeps the loader invariant |
| KeywordFilter.AddKeywordLineKeepsInvariant | trendradar/crawler/custom/filter.py:246-276 | a keyword line keeps the loader invariant |
| KeywordFilter.ParseLineKeepsInvariant | trendradar/crawler/custom/filter.py:214-276 | every line keeps the loader invariant |
| KeywordFilter.ParseLinesInvariant | trendradar/crawler/custom/filter.py:214-276 | after any prefix of the file the loader invariant holds |
| KeywordFilter.ParseLine | trendradar/crawler/custom/filter.py:214-276 | one line appends at most its stripped self to the global filters and at most one group |
| KeywordFilter.LoadFrequencyWords | trendradar/crawler/custom/filter.py:190-278 | a missing file gives three empty lists and an unreadable one raises; otherwise the lines are read in order, `filter_words` is every excluded term of every group without its '!', and every term sits in the list its prefix selects |
| KeywordFilter.GlobalHeaderLine | trendradar/crawler/custom/filter.py:222-226 | `[GLOBAL_FILTER]` in any case opens the global section and closes the current group |
| KeywordFilter.GroupHeaderLine | trendradar/crawler/custom/filter.py:227-238 | any other header appends a new empty group named and displayed as the section |
| KeywordFilter.GlobalSectionLine | trendradar/crawler/custom/filter.py:242-244 | inside the global section a line is appended to the global filters |
| KeywordFilter.KeywordLineBeforeAnySection | trendradar/crawler/custom/filter.py:247-257 | a keyword line before any header creates the "default" group with an empty display name and files the keyword there |
| KeywordFilter.DisplayNameLine | trendradar/crawler/custom/filter.py:261-266 | `word => name` renames the current group to `name` and files `word`; the other groups are unchanged |
| KeywordFilter.RenamingKeywordLine | trendradar/crawler/custom/filter.py:261-276 | splitting at the first " => " renames the last group and files the stripped word there |
| ItemAnalyzer.Unsuccessful | trendradar/ai/item_analyzer.py:85-86 | a fresh result for the item, marked failed, with no error yet, neutral sentiment, importance 3 and the analysis time |
| ItemAnalyzer.ParseResponseKeeps | trendradar/ai/item_analyzer.py:170-197 | a parsed result keeps the id, the raw reply and the time; a reply that does not decode is always caught as a parse error |
| ItemAnalyzer.ParseResponse | trendradar/ai/item_analyzer.py:170-197 | a parsed result is successful exactly when it carries no error |
| ItemAnalyzer.ParseSuccessIff | trendradar/ai/item_analyzer.py:175-192 | a parse succeeds exactly when the fence cut decodes to a dict whose importance converts to an integer |
| ItemAnalyzer.ParseSuccessFields | trendradar/ai/item_analyzer.py:185-192 | a successful parse takes the sentiment (default "neutral") and the converted importance (default 5) from the dict, with no error |
| Common.ParseIntUnderscore | trendradar/ai/item_analyzer.py:188 | `int("1_0")` is 10: a single underscore between digits is skipped |
| Common.ParseIntFullWidth | trendradar/ai/item_analyzer.py:188 | `int("５")`, a full-width digit, is 5 |
| Common.ParseIntDigits | trendradar/ai/item_analyzer.py:188 | unsigned text with no surrounding whitespace is read by `int()` as the value of its digits when it is a run of digits with single underscores between them, and raises otherwise |
| Common.ParseIntRejects | trendradar/ai/item_analyzer.py:188 | unsigned text that is not such a run of digits makes `int()` raise |
| Common.SingleDigit | trendradar/ai/item_analyzer.py:188 | a lone ASCII or full-width digit is read as its value |
| Common.ParseIntDoubledUnderscore | trendradar/ai/item_analyzer.py:188 | a doubled underscore makes `int()` raise |
| Common.ParseIntLeadingUnderscore | trendradar/ai/item_analyzer.py:188 | a leading underscore makes `int()` raise |
| ItemAnalyzer.ParseFailureFields | trendradar/ai/item_analyzer.py:194-195 | a caught failure carries "解析响应失败: " and keeps importance 3 |
| ItemAnalyzer.ContentOf | trendradar/ai/item_analyzer.py:99 | the analysed text is empty exactly when both full content and summary are |
| ItemAnalyzer.Clipped | trendradar/ai/item_analyzer.py:105-106 | content over 1000 characters becomes its first 1000 plus "..."; shorter content is kept |
| ItemAnalyzer.AnalyzeItemSpec | trendradar/ai/item_analyzer.py:76-129 | the result belongs to the item; disabled, no client and no content fail with their own messages and leave the item alone; otherwise the item changes at most in `ai_analysis` (the rendered result) and `ai_analysis_time`, and always does for a successful result |
| ItemAnalyzer.AnalyzeItem | trendradar/ai/item_analyzer.py:76-129 | the result always carries the item's seq as its news id |
| ItemAnalyzer.EnabledFlag | trendradar/ai/item_analyzer.py:59 | the analyzer is enabled exactly when `ENABLED` is present and truthy |
| ItemAnalyzer.NewsItemAnalyzer.constructor | trendradar/ai/item_analyzer.py:51-59 | the configuration is kept, the enabled flag read from it, and there is no client yet |
| ItemAnalyzer.NewsItemAnalyzer.InitClient | trendradar/ai/item_analyzer.py:61-74 | a client exists afterwards exactly when it existed before, or the analyzer is enabled and the client builds |
| ItemAnalyzer.NewsItemAnalyzer.AnalyzeItemSync | trendradar/ai/item_analyzer.py:76-129 | the client is built first when enabled, then the item is analysed as specified |
| ItemAnalyzer.NewsItemAnalyzer.AnalyzeBatch | trendradar/ai/item_analyzer.py:144-168 | one result and one updated item per input, in order, each analysed as specified; an empty batch does not touch the client |
| ItemAnalyzer.MergedConfigSpec | trendradar/ai/item_analyzer.py:215-220 | the merged analyzer is enabled exactly when `AI_ANALYSIS.ENABLED` is truthy, whatever the AI section says; every other AI key is kept; it raises exactly on a non-dict section |
| ItemAnalyzer.CreateNewsItemAnalyzer | trendradar/ai/item_analyzer.py:206-222 | an analyzer over the merged configuration with no client, unless merging raises |
| LangbotListener.Cat | scripts/langbot_plugins/TrendRadar__push_queue/components/event_listener/default.py:163-186 | appending lines raises exactly when building either part does |
| LangbotListener.NotOverflow | scripts/langbot_plugins/TrendRadar__push_queue/components/event_listener/default.py:184 | only the overflow line begins with a newline followed by a dot |
| LangbotListener.RawItemLines | scripts/langbot_plugins/TrendRadar__push_queue/components/event_listener/default.py:171-181 | an item gives its title line, a time line when it has a time and a link line when it has a URL; it raises exactly when its keywords cannot be joined |
| LangbotListener.ListedLines | scripts/langbot_plugins/TrendRadar__push_queue/components/event_listener/default.py:170-181 | one to three lines per listed item, none an overflow line; raising exactly when some item is not a dict or has keywords that cannot be joined |
| LangbotListener.RawLinesShape | scripts/langbot_plugins/TrendRadar__push_queue/components/event_listener/default.py:161-187 | a raw message has the subject line (default 新消息), the rule, one to three lines per listed item, and last an overflow line naming the unlisted count exactly when there are more than ten items |
| LangbotListener.RawLines | scripts/langbot_plugins/TrendRadar__push_queue/components/event_listener/default.py:161-187 | an unsliceable `items` raises; built raw lines have at least the subject and the rule, the rule second |
| LangbotListener.FieldLine | scripts/langbot_plugins/TrendRadar__push_queue/components/event_listener/default.py:209-222 | a field shows a line only when truthy, and raises only when its text does |
| LangbotListener.AiItemLines | scripts/langbot_plugins/TrendRadar__push_queue/components/event_listener/default.py:199-206 | no items give no lines; otherwise the title line, optional time and link lines, and an empty line |
| LangbotListener.AiLinesShape | scripts/langbot_plugins/TrendRadar__push_queue/components/event_listener/default.py:189-225 | an AI message has the two header lines, two to four item lines when there are items, and one line per truthy field of the analysis result |
| LangbotListener.AiLines | scripts/langbot_plugins/TrendRadar__push_queue/components/event_listener/default.py:189-225 | an `ai_result` that is not a dict raises; built AI lines start with "🤖 AI 分析报告" and the rule |
| LangbotListener.DailyItemLines | scripts/langbot_plugins/TrendRadar__push_queue/components/event_listener/default.py:242-246 | two lines per listed item, raising exactly when one is not a dict |
| LangbotListener.DailyText | scripts/langbot_plugins/TrendRadar__push_queue/components/event_listener/default.py:227-232 | a non-empty pre-formatted message is sent as it is; a truthy message that is not a string raises |
| LangbotListener.DailyTextItems | scripts/langbot_plugins/TrendRadar__push_queue/components/event_listener/default.py:234-249 | without a message the daily text is the subject, the rule and two lines per listed item, and raises exactly when `items` cannot be sliced or a listed item is not a dict |
| LangbotListener.BuildText | scripts/langbot_plugins/TrendRadar__push_queue/components/event_listener/default.py:150-159 | the text is the daily text, or the AI or raw lines joined with newlines, by the file's type; it raises exactly when they do |
| LangbotListener.Outcome | scripts/langbot_plugins/TrendRadar__push_queue/components/event_listener/default.py:113-148 | a file is sent only when it loaded as a dict and its message built; it is done only when it was also renamed |
| LangbotListener.Counted | scripts/langbot_plugins/TrendRadar__push_queue/components/event_listener/default.py:132-141 | each file adds one to processed or failed; sent grows exactly when the bot was asked to send it, even when the rename then fails |
| LangbotListener.PushQueueListener.constructor | scripts/langbot_plugins/TrendRadar__push_queue/components/event_listener/default.py:25-42 | no bot or target, target type "group", not running, zero counters |
| LangbotListener.PushQueueListener.Initialize | scripts/langbot_plugins/TrendRadar__push_queue/components/event_listener/default.py:44-82 | the bot, target type (default "group") and target are read from the plugin configuration; polling starts only when both bot and target are truthy; the counters are untouched |
| LangbotListener.PushQueueListener.ProcessFile | scripts/langbot_plugins/TrendRadar__push_queue/components/event_listener/default.py:113-148 | the counters become `Counted` of the old ones and this file's `Outcome`; the configuration does not change |
| LangbotListener.PushQueueListener.ProcessQueue | scripts/langbot_plugins/TrendRadar__push_queue/components/event_listener/default.py:96-111 | nothing without the queue directory; otherwise the counters become the old ones folded with `Counted` over the `Outcome` of every pending file, in `PendingFiles` order; the configuration does not change |
| LangbotListener.CountAllTotals | scripts/langbot_plugins/TrendRadar__push_queue/components/event_listener/default.py:96-141 | over a queue pass each file adds one to processed or failed, sent grows by exactly the files the bot accepted, processed by exactly those also moved, and the counters stay consistent |
| LlmText.UpTo | trendradar/ai/item_analyzer.py:181 | `s.split(sep)[0]` is a prefix of `s`, all of it when `sep` does not occur |
| LlmText.After | trendradar/ai/item_analyzer.py:181 | the text after the first separator is shorter than `s` by at least the separator |
| LlmText.UpToExcludes | trendradar/ai/item_analyzer.py:181 | the part before the first separator holds no separator |
| LlmText.UpToIdempotent | trendradar/ai/item_analyzer.py:183 | cutting twice at the same separator is cutting once |
| LlmText.SplitOnParts | trendradar/ai/analyzers/simple.py:182-184 | the first two parts of `split` are the text before the first separator and the text between the first and the second |
| LlmText.JsonFenceIsFence | trendradar/ai/item_analyzer.py:180-183 | every "```json" contains a "```" |
| LlmText.FenceBodySpec | trendradar/ai/item_analyzer.py:177-185 | the cut text never holds a fence; with "```json" it is the text after it up to the next fence; without it the text between the first two fences (the rest after a lone fence); without any fence the whole text |
| LlmText.SimpleFenceBody | trendradar/ai/analyzers/simple.py:176-186 | the cut as the simple analyzer writes it (`parts[1]` for a bare fence) is the same cut as the item analyzer's |
| LlmText.KeywordsFenceBody | trendradar/ai/analyzers/simple.py:258-262 | the cut as keyword extraction writes it (fence test first, then the "```json" test) is the same cut |
| LlmText.JsonText | trendradar/ai/item_analyzer.py:177-185 | the text handed to the decoder holds no fence |
| LlmText.NoFenceInSlice | trendradar/ai/item_analyzer.py:185 | stripping never creates a fence |
| CrawlManager.NewStats | trendradar/crawler/custom/manager.py:29-39 | fresh counters for a source are all zero, so the counter relations hold |
| CrawlManager.CapLogWindow | trendradar/crawler/custom/manager.py:495-497 | with a positive cap the log is a sliding window: the last `max_error_log` entries of the history, newest last, never more |
| CrawlManager.AppendCappedBound | trendradar/crawler/custom/manager.py:495-497 | a positive cap is never exceeded |
| CrawlManager.CapLogZero | trendradar/crawler/custom/manager.py:496-497 | a cap of 0 does not cap, since `error_log[-0:]` is the whole list |
| CrawlManager.ErrorsMatching | trendradar/crawler/custom/manager.py:585-589 | an entry is kept iff it is in the log and matches the source filter (when given) and the unresolved filter (when set) |
| CrawlManager.MemoryErrorsSpec | trendradar/crawler/custom/manager.py:584-590 | every returned entry is in the log and matches the source and unresolved filters |
| CrawlManager.MemoryErrorsLimitZero | trendradar/crawler/custom/manager.py:590 | as written, a limit of 0 returns every matching entry |
| CrawlManager.MemoryErrors | trendradar/crawler/custom/manager.py:584-590 | as written: the result is a suffix of the matching entries, of length `limit` (or all when fewer) for a positive limit, all for 0, and all but the first `-limit` for a negative one |
| CrawlManager.MemoryErrorsNegativeLimit | trendradar/crawler/custom/manager.py:590 | as written, a negative limit drops the first `-limit` matching entries and returns the rest |
| CrawlManager.MemoryErrorsNonPositiveWitness | trendradar/crawler/custom/manager.py:590 | a one-entry log on which the limit-0 query returns that entry, and a two-entry log on which the limit -1 query returns one |
| CrawlManager.RecentErrors | trendradar/crawler/custom/manager.py:584-590 | the corrected fallback: at most `limit` matching entries, none for a limit of 0 or less |
| CrawlManager.RecentErrorsAgree | trendradar/crawler/custom/manager.py:584-590 | for a positive limit the corrected fallback and the one as written agree |
| CrawlManager.FreshItems | trendradar/crawler/custom/manager.py:296-305 | there are never more new items than items in the list |
| CrawlManager.FreshItemsDrawn | trendradar/crawler/custom/manager.py:296-305 | every new item is drawn from the list and carries a seq outside the seen-set |
| CrawlManager.ScanFresh | trendradar/crawler/custom/manager.py:296-305 | the loop returns `FreshItems` of the seen-set, and the seen-set grown by every seq of the list |
| CrawlManager.SeqSetEmpty | trendradar/crawler/custom/manager.py:296-305 | an item list has no seqs only when it is empty |
| CrawlManager.FreshItemsMembers | trendradar/crawler/custom/manager.py:296-305 | an item is reported new iff its seq was not in the seen-set and it is the first item with that seq |
| CrawlManager.FreshItemsSeqs | trendradar/crawler/custom/manager.py:296-305 | the new items carry distinct seqs, and their seqs are the list's seqs less the seen ones |
| CrawlManager.FreshItemsAgain | trendradar/crawler/custom/manager.py:296-305 | detection is idempotent: once the seen-set holds the list's seqs, the same list brings nothing new |
| CrawlManager.FreshItemsFirstPass | trendradar/crawler/custom/manager.py:296-305 | with an empty seen-set, one item per distinct seq is new |
| CrawlManager.SourceErrors | trendradar/crawler/custom/manager.py:250-256 | one source's crawl logs at most one error |
| CrawlManager.CrawlStep | trendradar/crawler/custom/manager.py:219-265 | one loop iteration gives the source a result and a seen-set and keeps the set of counted sources |
| CrawlManager.CrawlFold | trendradar/crawler/custom/manager.py:211-267 | a pass gives a result to every source it crawls and keeps the set of counted sources |
| CrawlManager.CrawlStepRaised | trendradar/crawler/custom/manager.py:254-265 | a raised fetch gives an UNKNOWN_ERROR result with no items, one more failed fetch, the message as last error, one "crawl" error logged, nothing saved |
| CrawlManager.CrawlStepFailed | trendradar/crawler/custom/manager.py:224-252 | a failed result is returned as it is, with one more fetch and one more failure, the error message as last error and one "fetch_list" error logged |
| CrawlManager.CrawlStepSucceeded | trendradar/crawler/custom/manager.py:224-248 | a success is counted, its items added to the total, its new items detected, counted and recorded in the result, the items saved, and the callbacks told exactly when there are new items |
| CrawlManager.CrawlStepOther | trendradar/crawler/custom/manager.py:218-265 | a source's step leaves every other source's entries as they were |
| CrawlManager.CrawlStepSelf | trendradar/crawler/custom/manager.py:218-265 | a source's step gives it the outcome of its own crawl |
| CrawlManager.SourceStatsOk | trendradar/crawler/custom/manager.py:224-265 | every crawl branch keeps `successful <= total <= successful + failed` for the source |
| CrawlManager.CrawlFoldPerSource | trendradar/crawler/custom/manager.py:218-265 | each source of a pass ends with the outcome of its own crawl from its state before the pass, whatever the other sources did |
| CrawlManager.CrawlFoldLast | trendradar/crawler/custom/manager.py:218-265 | the last source of a pass ends with the outcome of its own crawl |
| CrawlManager.CrawlStepKeeps | trendradar/crawler/custom/manager.py:218-265 | a source's outcome, once reached, survives another source's step |
| CrawlManager.CrawlFoldUntouched | trendradar/crawler/custom/manager.py:218 | a source not crawled in a pass keeps its counters and seen-set |
| CrawlManager.CrawlFoldStatsOk | trendradar/crawler/custom/manager.py:224-265 | the counter relations hold for every source after a whole pass |
| CrawlManager.ContentStepSpec | trendradar/crawler/custom/manager.py:398-429 | a fetched item is skipped; otherwise `content_fetched` becomes true iff the status is SUCCESS, a failed status is recorded as the error, and an exception changes only the error; seq, url and title never change |
| CrawlManager.ContentStepSettled | trendradar/crawler/custom/manager.py:399-400 | once content is fetched successfully, later passes leave the item as it is |
| CrawlManager.ContentItemErrors | trendradar/crawler/custom/manager.py:427-429 | an item logs at most one error |
| CrawlManager.ContentErrors | trendradar/crawler/custom/manager.py:398-429 | the loop logs at most one "fetch_content" error per item, each unresolved and for the source |
| CrawlManager.ContentRowsAllFetched | trendradar/crawler/custom/manager.py:398-400 | a list whose items were all fetched writes nothing and logs nothing |
| CrawlManager.AppendCappedConcat | trendradar/crawler/custom/manager.py:495-497 | logging two batches of entries is logging their concatenation |
| CrawlManager.KeepNewest | trendradar/crawler/custom/manager.py:726-735 | with more rows than `max_items`, exactly `count - max_items` rows go, none newer by first-seen than a row that stays; the rest are unchanged |
| CrawlManager.RegistryRegister | trendradar/crawler/custom/manager.py:166-179 | registering keeps crawlers, counters and seen-sets on the same sources; a new source goes last in the crawl order |
| CrawlManager.Without | trendradar/crawler/custom/manager.py:187-191 | deleting a source removes exactly it from the order and keeps the order free of repeats |
| CrawlManager.RegistryUnregister | trendradar/crawler/custom/manager.py:181-191 | unregistering keeps crawlers, counters and seen-sets on the same sources |
| CrawlManager.RegistryFoldable | trendradar/crawler/custom/manager.py:218 | every registered source is crawled, in registration order |
| CrawlManager.AppendCappedOne | trendradar/crawler/custom/manager.py:495-497 | logging one entry appends it and then caps the log |
| CrawlManager.CrawlerManager.constructor | trendradar/crawler/custom/manager.py:53-81 | no crawlers, counters, seen-sets, errors or callbacks |
| CrawlManager.CrawlerManager.Register | trendradar/crawler/custom/manager.py:166-179 | the crawler replaces any crawler of its id, with fresh counters and the seen-set read back from the table |
| CrawlManager.CrawlerManager.Unregister | trendradar/crawler/custom/manager.py:181-191 | the source's crawler, counters and seen-set are dropped, nothing else changes |
| CrawlManager.CrawlerManager.OnNewItems | trendradar/crawler/custom/manager.py:592-598 | one more new-items callback, nothing else changes |
| CrawlManager.CrawlerManager.LogError | trendradar/crawler/custom/manager.py:465-497 | the new entry goes last and the log keeps only the last `max_error_log` entries |
| CrawlManager.CrawlerManager.DetectNewItems | trendradar/crawler/custom/manager.py:282-305 | returns `FreshItems` of the old seen-set; the seen-set becomes the old one plus every seq of the list |
| CrawlManager.CrawlerManager.SaveItemsOf | trendradar/crawler/custom/manager.py:307-371 | the items are upserted, or the failure is logged as "save_items" and the table kept |
| CrawlManager.CrawlerManager.CrawlRaised | trendradar/crawler/custom/manager.py:254-265 | the raised branch: UNKNOWN_ERROR result, failure counted, "crawl" error logged |
| CrawlManager.CrawlerManager.CrawlFailed | trendradar/crawler/custom/manager.py:224-252 | the failed-result branch: fetch and failure counted, "fetch_list" error logged |
| CrawlManager.CrawlerManager.CrawlSucceeded | trendradar/crawler/custom/manager.py:224-248 | the success branch: counters, seen-set, table and callback events as `CrawlStepSucceeded` states |
| CrawlManager.CrawlerManager.CrawlOne | trendradar/crawler/custom/manager.py:218-265 | one loop iteration moves state, results and events on by exactly `CrawlStep` |
| CrawlManager.CrawlerManager.Crawled | trendradar/crawler/custom/manager.py:211-267 | a pass yields a result for every registered source |
| CrawlManager.CrawlerManager.CrawlAll | trendradar/crawler/custom/manager.py:211-267 | the new state, results and events are the pass over every source in registration order; every registered source gets a result |
| CrawlManager.CrawlerManager.CrawlEach | trendradar/crawler/custom/manager.py:218-265 | the loop computes the pass over the registration order |
| CrawlManager.CrawlerManager.CrawlSingle | trendradar/crawler/custom/manager.py:269-280 | None and no change for an unknown source; otherwise every source is crawled and this one's result returned |
| CrawlManager.CrawlerManager.FetchItemContent | trendradar/crawler/custom/manager.py:398-429 | one item is updated by `ContentStep`, its row rewritten when a database is used, its exception logged; other items unchanged |
| CrawlManager.CrawlerManager.FetchFullContent | trendradar/crawler/custom/manager.py:373-435 | nothing happens for an unknown source or one without full-content support; otherwise every item is updated by `ContentStep` |
| CrawlManager.CrawlerManager.FetchEach | trendradar/crawler/custom/manager.py:398-429 | every item is updated by `ContentStep` and the rows and log follow the item-by-item fold |
| CrawlManager.CrawlerManager.CleanupOldData | trendradar/crawler/custom/manager.py:690-749 | without a database nothing is deleted; otherwise rows first seen before the cutoff go when `max_days > 0`, then the oldest go until `max_items` remain, and the count deleted is returned |
| CrawlManager.CrawlerManager.GetStats | trendradar/crawler/custom/manager.py:616-627 | one source's counters (None when unknown), or all of them for an empty id |
| CrawlManager.CrawlerManager.GetErrors | trendradar/crawler/custom/manager.py:584-590 | every returned entry is logged and matches the filters; a positive limit bounds the count, and a limit of 0 or less returns nothing (the corrected reading); as written a limit of 0 returns every matching entry and a negative one drops the first `-limit`, see Findings |
| CrawlManager.CrawlerManager.Cleanup | trendradar/crawler/custom/manager.py:751-758 | every crawler, counter set and seen-set is dropped |
| PushText.PendingFilesSpec | scripts/feishu_push_service.py:350-353 | the pending files are exactly the listed `.json` names that are neither hidden nor `error_`-prefixed, each as often as listed, in sorted order |
| PushText.LayoutOf | scripts/feishu_push_service.py:286-295 | the AI layout exactly for type "ai_analysis", the daily layout exactly for "daily_report", and the raw layout when no type is given |
| PushText.Chars | scripts/feishu_push_service.py:179 | iterating a string yields its characters as one-character strings |
| PushText.ItemsOf | scripts/feishu_push_service.py:178-179 | slicing `items` works exactly for a list (its elements) or a string (its characters) |
| PushText.Listed | scripts/feishu_push_service.py:179 | `items[:10]`: the first ten entries, or all when fewer |
| PushText.JoinedWords | scripts/feishu_push_service.py:184 | `', '.join(v)` succeeds for any string, otherwise only for a list (of strings, see `JoinedWordsOfList`); every other value raises, a dict included (see Left out) |
| PushText.JoinedWordsOfList | scripts/feishu_push_service.py:184 | a list of keyword strings joins to exactly those keywords, comma separated |
| PushText.KeywordTag | scripts/feishu_push_service.py:184 | no keywords give no tag; otherwise the tag is the joined keywords in 【】, and raises exactly when joining does |
| PushText.KeywordTagOfList | scripts/feishu_push_service.py:184 | an empty keyword list gives no tag, a non-empty one the tag naming them |
| PushText.EmojiOf | scripts/feishu_push_service.py:247 | 📈 for "positive", 📉 for "negative", ➡️ for any other hashable value; a list or dict raises |
| PushText.StarsOf | scripts/feishu_push_service.py:251 | `"⭐" * importance`: an int gives that many stars (none when negative), a bool 0 or 1; anything else raises |
| PushText.RepeatStar | scripts/feishu_push_service.py:251 | a repeated star has the repeat count as length and only stars |
| PushText.Unlisted | scripts/feishu_push_service.py:203-204 | the number of entries beyond the listed ones, positive exactly with more than ten |
| TaskModel.StatusOf | trendradar/models/queue.py:14-20 | a value maps back to the member that carries it, if any |
| TaskModel.StatusRoundTrip | trendradar/models/queue.py:14-20 | every status survives the trip through its string value; distinct members have distinct values |
| TaskModel.AliasValues | trendradar/models/queue.py:23-31 | `running()` is PROCESSING ("processing") and `success()` is COMPLETED ("completed") |
| TaskModel.RetriedSpec | trendradar/models/queue.py:68-76 | k retries raise the count by exactly k, leave the queued task PENDING with no error, touch nothing else, and a retry stays available exactly while the count is below the budget |
| TaskModel.RetryBudget | trendradar/models/queue.py:68-76 | from a fresh task exactly `max_retries` retries are granted |
| TaskModel.QueueTask.constructor | trendradar/models/queue.py:40-49 | PENDING, no result, no error, no retries, a budget of 3, created at `now` |
| TaskModel.QueueTask.Start | trendradar/models/queue.py:51-54 | PROCESSING, started at `now`, nothing else changes |
| TaskModel.QueueTask.Complete | trendradar/models/queue.py:56-60 | COMPLETED with the result at `now`, nothing else changes |
| TaskModel.QueueTask.Fail | trendradar/models/queue.py:62-66 | FAILED with the error at `now`, nothing else changes |
| TaskModel.QueueTask.CanRetry | trendradar/models/queue.py:68-70 | true iff the retry count is below the budget |
| TaskModel.QueueTask.IncrementRetry | trendradar/models/queue.py:72-76 | one more retry, PENDING, error cleared (one step of `Retried`) |
| TaskModel.QueueTask.ToDict | trendradar/models/queue.py:78-89 | exactly eight keys without data or max_retries; the status string maps back to the status; id, result, error and retry count are copied |
| RunCrawler.ShortSummary | scripts/run_crawler.py:173 | a summary of at most 100 characters is kept; a longer one becomes its first 100 characters plus "..." |
| RunCrawler.EntryOf | scripts/run_crawler.py:170-183 | the entry keeps the seq, carries the crawl time, is new exactly for the first `new_count` items, and has the shortened summary |
| RunCrawler.Entries | scripts/run_crawler.py:169-183 | one entry per item, in order |
| RunCrawler.Position | scripts/run_crawler.py:186 | the first entry with the seq, or none when no entry has it |
| RunCrawler.Upsert | scripts/run_crawler.py:186-192 | a listed seq has its entry replaced where it stands; an unlisted one is inserted at the front |
| RunCrawler.Capped | scripts/run_crawler.py:195-196 | a prefix of the list, no longer than a non-negative bound, the whole list when it fits |
| RunCrawler.Reversed | scripts/run_crawler.py:192 | the entries in reverse order |
| RunCrawler.UpsertSpec | scripts/run_crawler.py:186-192 | the listed seqs grow by the entry's seq alone; an update keeps the length, an insertion adds one; seqs stay unique |
| RunCrawler.UpsertAllSpec | scripts/run_crawler.py:169-192 | after a batch every seq of the list and of the batch is listed exactly once, and nothing else |
| RunCrawler.UpsertAllFresh | scripts/run_crawler.py:169-192 | a batch of distinct unlisted seqs ends up at the front in reverse order |
| RunCrawler.CappedUnique | scripts/run_crawler.py:195-196 | cutting the list keeps its seqs unique |
| RunCrawler.RecentSpec | scripts/run_crawler.py:165-196 | after an update no seq is listed twice, a non-negative bound holds, and every listed seq was listed before or comes from the batch |
| RunCrawler.Screened | scripts/run_crawler.py:150-155 | the filter writes an outcome into every item, keeping the count |
| RunCrawler.VisitFailed | scripts/run_crawler.py:128-130 | a failed result changes nothing |
| RunCrawler.VisitAllCounts | scripts/run_crawler.py:127-161 | the item and new-item counters grow by the totals of the successful results alone; with filtering on passed plus filtered grow by their item counts, otherwise not at all; the fetch counter does not move inside the loop |
| RunCrawler.VisitAllRecent | scripts/run_crawler.py:127-161 | a pass keeps the recent entries unique and within a non-negative bound |
| RunCrawler.VisitAllJobs | scripts/run_crawler.py:138-146 | a pass only appends content jobs, each for a non-empty list of items not fetched yet |
| RunCrawler.ScreenItems | scripts/run_crawler.py:150-157 | the screened items, and counts of passed and filtered items that add up to the batch size |
| RunCrawler.CrawlerApp.constructor | scripts/run_crawler.py:77-101 | a fresh manager with no crawlers and a 1000-entry error log, zero counters, no recent entries |
| RunCrawler.CrawlerApp.RegisterCrawlers | scripts/run_crawler.py:103-120 | registering succeeds exactly when reading the source list does not raise, and then adds the "ths" crawler exactly when some source is registered; the error log is untouched |
| RunCrawler.CrawlerApp.UpdateRecentItems | scripts/run_crawler.py:165-196 | the recent entries become the specified update; counters and jobs are unchanged |
| RunCrawler.CrawlerApp.DispatchContent | scripts/run_crawler.py:137-146 | a job is added only with content fetching on and new items, for the items not fetched yet |
| RunCrawler.CrawlerApp.CountAndFilter | scripts/run_crawler.py:132-158 | the counters grow as specified and the items are left as the filter leaves them |
| RunCrawler.CrawlerApp.ProcessResult | scripts/run_crawler.py:131-161 | one successful result: counters, content job and recent entries as specified |
| RunCrawler.CrawlerApp.CrawlOnce | scripts/run_crawler.py:122-163 | `total_fetches` goes up by one, then the results are visited in order |
| RunCrawler.CrawlOnceSpec | scripts/run_crawler.py:122-163 | one pass raises `total_fetches` by exactly one, the item counters by the successful results alone, and keeps the recent entries unique |
| RunCrawler.NewApp | scripts/run_crawler.py:42-101 | building the application fails exactly when reading the source list raises; otherwise it has zero counters, no recent entries, and a crawler exactly when some source is registered |
| CrawlerRunner.Section | trendradar/crawler/runner.py:50-64 | a missing section reads as an empty dict, a dict section as its own entries |
| CrawlerRunner.SettingsDefaults | trendradar/crawler/runner.py:49-90 | an empty configuration enables crawling, content fetching in the background, filtering and filter tags, polls every 10 seconds, keeps 10000 items for 30 days and shows 100 |
| CrawlerRunner.SettingsEnabledKey | trendradar/crawler/runner.py:51 | the crawler switch is on when `ENABLED` is missing and otherwise its truthiness |
| CrawlerRunner.SettingsOf | trendradar/crawler/runner.py:49-90 | a `CRAWLER_CUSTOM` section that is not a dict gives no settings; without the section the settings exist and show 100 items |
| CrawlerRunner.RegisteredDefault | trendradar/crawler/runner.py:104-106 | an empty or missing source list registers the default "ths-realtime" source alone |
| CrawlerRunner.RegisteredSourcesSpec | trendradar/crawler/runner.py:108-119 | every registered source is enabled and of type "ths" (both defaulting to yes), and every such entry of the list is registered |
| CrawlerRunner.ApplySpec | trendradar/crawler/runner.py:158-204 | the seq, title and url never change; with filtering off or no keyword configured every item passes with no keywords; a keyword file that raises leaves the items as they were; otherwise an item is filtered out exactly when the keyword filter rejects it |
| CrawlerRunner.ClearItems | trendradar/crawler/runner.py:161-164 | every item of the array is marked passing with no keywords, in place, and nothing else changes |
| CrawlerRunner.VisitAllResults | trendradar/crawler/runner.py:134-167 | every result the pass visits is processed; the others are as the crawl left them |
| CrawlerRunner.VisitOrder | trendradar/crawler/runner.py:167 | one visit keeps `_last_items` and its insertion order consistent, a new source joining at the end |
| CrawlerRunner.VisitAllOrder | trendradar/crawler/runner.py:134-167 | sources kept before keep their places, each source appears once, and the order lists exactly the kept sources |
| CrawlerRunner.VisitAllItems | trendradar/crawler/runner.py:134-167 | every successful source visited has its processed items kept; the other kept lists stay |
| CrawlerRunner.VisitItemsStep | trendradar/crawler/runner.py:135-167 | visiting one more source keeps that relation |
| CrawlerRunner.VisitAllJobs | trendradar/crawler/runner.py:142-159 | every content request comes from a successful visited source with new items, asks for exactly its items not yet fetched, and none is made with content fetching off; no filter callback runs without filtering and callbacks |
| CrawlerRunner.CrawlPassSpec | trendradar/crawler/runner.py:130-169 | a pass over all crawled results processes each of them; `_last_items` gains the successful sources' processed items and keeps the rest; its order keeps the old sources first, each once |
| CrawlerRunner.DisplayKeysFresh | trendradar/crawler/runner.py:289-290 | "is_new" and "filter_tag" are not keys of an item's dict |
| CrawlerRunner.EntryDictSpec | trendradar/crawler/runner.py:286-291 | a display dict has the item's keys with their values unchanged, plus "is_new" and "filter_tag" |
| CrawlerRunner.FilterTagSpec | trendradar/crawler/runner.py:305-311 | the tag is "🚫 " plus the reason exactly for a filtered-out item, "✓ " plus the keywords for a matched one, and empty exactly for a passing item without keywords |
| CrawlerRunner.NewSeqs | trendradar/crawler/runner.py:295-303 | a seq is new iff it is among the first `new_count` items of some successful last result |
| CrawlerRunner.ConcatHas | trendradar/crawler/runner.py:267-268 | every kept item of every source is among the candidates of the all-sources view |
| CrawlerRunner.ShownSpec | trendradar/crawler/runner.py:278-282 | without filtered items requested none is shown; never more than a non-negative limit; with them, the first items up to the limit; every shown item is a candidate |
| CrawlerRunner.RssSummaryAsWrittenDropsSummary | trendradar/crawler/runner.py:365 | an item with a summary but no full content gets an empty RSS summary, as the expression parses |
| CrawlerRunner.RssSummary | trendradar/crawler/runner.py:365 | the corrected summary: the item's own summary, else the first 200 characters of its full content |
| CrawlerRunner.RssSummaryAgrees | trendradar/crawler/runner.py:365 | the two readings agree whenever the item has full content; without it the code as written gives "" and the corrected one the summary |
| CrawlerRunner.RssEntry | trendradar/crawler/runner.py:359-374 | the entry's summary is the corrected `RssSummary` of the item (corrected reading) |
| CrawlerRunner.RssEntrySpec | trendradar/crawler/runner.py:359-374 | every entry has the same twelve keys, the fixed "ths-realtime" feed and its name, the source as author and the item's own title, url and filter flag (corrected reading: the summary is `RssSummary`, not the expression as written) |
| CrawlerRunner.ConvertToRss | trendradar/crawler/runner.py:345-376 | one entry per item, in order (corrected reading of the summary, as `RssEntry`) |
| CrawlerRunner.Runner.constructor | trendradar/crawler/runner.py:39-100 | the runner keeps the settings, has a fresh manager with a database over the given table, an empty error log and the default cap of 1000, holding the "ths" crawler exactly when some source is registered, and no results, kept items or filter callbacks |
| CrawlerRunner.NewRunner | trendradar/crawler/runner.py:39-100 | construction fails exactly when reading the settings or the source list raises; otherwise the runner has the settings of the configuration, a crawler exactly when some source is registered, the given table and an empty log |
| CrawlerRunner.Runner.OnFiltered | trendradar/crawler/runner.py:341-343 | one more filter callback; nothing else changes |
| CrawlerRunner.Runner.ApplyFilter | trendradar/crawler/runner.py:176-204 | the items become the filter's outcome in place, and the callbacks get the passed and the filtered lists exactly when keywords were configured and a callback is registered |
| CrawlerRunner.Runner.RequestContent | trendradar/crawler/runner.py:141-155 | the manager's crawlers, counters and seen-sets do not change; the items become the prepared ones; the table and log become `StoredAfter`: rows rewritten and exceptions logged exactly when the content is waited for, unchanged otherwise |
| CrawlerRunner.Runner.FilterStep | trendradar/crawler/runner.py:157-164 | the items become the filter's outcome in place, with the callbacks as for `_apply_filter` |
| CrawlerRunner.Runner.ProcessSource | trendradar/crawler/runner.py:139-167 | one successful source: its content request, then its filter step; the manager's counters and seen-sets are unchanged and its table and log follow `StoredAfter` |
| CrawlerRunner.Runner.VisitResults | trendradar/crawler/runner.py:134-167 | the loop over the results in the manager's order leaves what the pass specification says, and the manager's table and log are `StoredAll` over the visited sources |
| CrawlerRunner.Runner.CrawlOnce | trendradar/crawler/runner.py:121-169 | disabled: nothing changes and nothing is returned; enabled: the manager crawls every source, and the results are processed and kept as the pass specification says; the manager's counters and seen-sets are those of the crawl, and its table and log those the crawl left with the pass's waited-for content fetches applied (`StoredOf`) |
| CrawlerRunner.Runner.CrawlEnabled | trendradar/crawler/runner.py:130-169 | the enabled branch: the crawl, then the pass over its results; the manager's counters and seen-sets are those of the crawl, and its table and log those the crawl left with the pass's content fetches applied (`StoredOf`) |
| CrawlerRunner.Runner.AfterCrawl | trendradar/crawler/runner.py:131-169 | the pass over given results in the manager's order; the manager's table and log are `StoredAll` of those before it |
| CrawlerRunner.StoredAllKeeps | trendradar/crawler/runner.py:141-155 | with content fetching off or in the background, the pass leaves the manager's table and log as the crawl left them |
| CrawlerRunner.StoredAllSkips | trendradar/crawler/runner.py:139-155 | sources whose content is not waited for (failed, no new items, nothing unfetched, or no full-content support) write nothing and log nothing |
| CrawlerRunner.Runner.GetNewSeqs | trendradar/crawler/runner.py:295-303 | the loop computes the new-seq set |
| CrawlerRunner.Runner.CandidateItems | trendradar/crawler/runner.py:262-275 | the kept items of the source asked for, of every source in order, or the stored items when nothing is kept |
| CrawlerRunner.Runner.GetItemsForDisplay | trendradar/crawler/runner.py:243-293 | one entry per shown candidate, marked new by the new-seq set and tagged when tags are on; no filtered item unless asked for; never more than a non-negative limit, 0 standing for the default |
| CrawlerRunner.Entries | trendradar/crawler/runner.py:284-291 | one display entry per item, in order |
| SimpleAnalyzer.NewResult | trendradar/ai/analyzers/simple.py:22-35 | a fresh result for the news id and model: successful, no error or raw reply, neutral sentiment, importance 3, empty summary |
| SimpleAnalyzer.ResultDict | trendradar/ai/analyzers/simple.py:37-49 | `to_dict()` has the ten keys, every field but the raw reply, with the result's own values |
| SimpleAnalyzer.ResultDictOmitsRaw | trendradar/ai/analyzers/simple.py:37-49 | the raw reply never reaches the dict: results differing only there give the same dict |
| SimpleAnalyzer.Pick | trendradar/ai/analyzers/simple.py:85-90 | a truthy upper-case entry wins; otherwise the lower-case entry, otherwise the default |
| SimpleAnalyzer.NormalizedConfigSpec | trendradar/ai/analyzers/simple.py:81-91 | the normalised configuration has the model, key, base, token and timeout keys, with the upper-case entry winning and 2000 tokens and 60 seconds as defaults; a configuration without an AI section is read as the AI section; a non-dict AI section raises |
| SimpleAnalyzer.CutContent | trendradar/ai/analyzers/simple.py:155 | content over 1500 characters is cut to its first 1500; shorter content is kept |
| SimpleAnalyzer.JsonFallback | trendradar/ai/analyzers/simple.py:195-199 | after a caught parse error the summary is the reply's first 100 characters, the result stays successful and carries a "JSON 解析警告: " error |
| SimpleAnalyzer.ParseIntoKeeps | trendradar/ai/analyzers/simple.py:172-201 | a parse keeps the raw reply, the id and the model, and one that finishes is successful |
| SimpleAnalyzer.ParseIntoFallback | trendradar/ai/analyzers/simple.py:186-199 | a reply whose cut does not decode falls back to its first 100 characters with a JSON warning |
| SimpleAnalyzer.ParseIntoEscapes | trendradar/ai/analyzers/simple.py:186-195 | an exception escapes the parse exactly when the cut decodes to a non-dict, or to a dict whose importance is a list, dict or null |
| SimpleAnalyzer.ParseIntoFields | trendradar/ai/analyzers/simple.py:188-193 | a cut decoding to a dict with a convertible importance fills summary, keywords, sentiment, importance and category from it, each with its default |
| SimpleAnalyzer.AnalysisFailure | trendradar/ai/analyzers/simple.py:143-170 | an analysis fails only when something raised, and then its error has at most 200 characters; without a client it always fails |
| SimpleAnalyzer.AnalysisRecords | trendradar/ai/analyzers/simple.py:143-163 | an analysis records the news id, the configured model, and the raw reply whenever the chat answered |
| SimpleAnalyzer.Summary | trendradar/ai/analyzers/simple.py:203-231 | the summary is the stripped reply, "" without a client or when anything raises |
| SimpleAnalyzer.KeywordsSpec | trendradar/ai/analyzers/simple.py:233-266 | keyword extraction gives `[]` when the client, the formatting, the chat or the decoding fails, and otherwise the decoded fence cut |
| SimpleAnalyzer.SimpleAnalyzer.constructor | trendradar/ai/analyzers/simple.py:73-100 | the analyzer keeps the normalised configuration and the loaded prompts, with no client yet |
| SimpleAnalyzer.SimpleAnalyzer.GetPrompt | trendradar/ai/analyzers/simple.py:113-115 | the loaded prompt of that name, else the default prompt |
| SimpleAnalyzer.SimpleAnalyzer.Model | trendradar/ai/analyzers/simple.py:268-271 | the configured model |
| SimpleAnalyzer.SimpleAnalyzer.InitClient | trendradar/ai/analyzers/simple.py:117-122 | a client exists afterwards exactly when it did before or it builds |
| SimpleAnalyzer.SimpleAnalyzer.Analyze | trendradar/ai/analyzers/simple.py:124-170 | the client is built, then the named prompt is analysed as specified |
| SimpleAnalyzer.SimpleAnalyzer.Summarize | trendradar/ai/analyzers/simple.py:203-231 | the summary with the "summarize" prompt |
| SimpleAnalyzer.SimpleAnalyzer.ExtractKeywords | trendradar/ai/analyzers/simple.py:233-266 | the keywords with the "keywords" prompt |
| SimpleAnalyzer.CreateAnalyzer | trendradar/ai/analyzers/simple.py:274-284 | an analyzer over the normalised configuration, unless the AI entry is not a dict |
| CrawlStore.IncomingRow | trendradar/crawler/custom/manager.py:350-366 | the inserted row has crawl, first-seen and last-seen time `now`, the item's own fields, and empty extra data for an empty `extra` |
| CrawlStore.MergeRowColumns | trendradar/crawler/custom/manager.py:330-349 | a merge takes title, summary and last-seen from the incoming row, changes the three content columns only to a non-empty incoming value, never turns `content_fetched` back off, and keeps every other column, first-seen included |
| CrawlStore.MergeRowIdempotent | trendradar/crawler/custom/manager.py:330-349 | saving the same incoming row twice is saving it once |
| CrawlStore.MergeRowSelf | trendradar/crawler/custom/manager.py:330-349 | a stored row merged with itself is unchanged |
| CrawlStore.Upsert | trendradar/crawler/custom/manager.py:324-366 | the key is added; a stored row is merged, a new one inserted; every other row is untouched |
| CrawlStore.SaveItemsKeys | trendradar/crawler/custom/manager.py:307-371 | after a save the table holds exactly the old keys plus one key per distinct seq of the list; other sources' rows are untouched |
| CrawlStore.SaveItemsFirstSeen | trendradar/crawler/custom/manager.py:330-349 | a row that existed keeps its first-seen time; a row the save creates has first-seen `now` |
| CrawlStore.SeqsInStore | trendradar/crawler/custom/manager.py:193-206 | the seqs read back for a source are exactly those with a row under that source |
| CrawlStore.SavedSeqsAreSeen | trendradar/crawler/custom/manager.py:193-206 | every saved item is among the seqs read back for its source, and saving loses no seq |
| CrawlStore.UpdateContent | trendradar/crawler/custom/manager.py:437-463 | the four content columns of the item's row are overwritten; a missing row and every other row are unchanged |
| CrawlStore.UpdateContentCanClear | trendradar/crawler/custom/manager.py:445-455 | unlike the upsert, an empty fetched content replaces stored content |
| CrawlStore.DropBefore | trendradar/crawler/custom/manager.py:719-722 | exactly the rows whose first-seen text is not below the cutoff remain, unchanged |
| CrawlStore.OldestKey | trendradar/crawler/custom/manager.py:730-734 | the picked row has the smallest first-seen time |
| ThsCrawler.JsonSlice | trendradar/crawler/custom/ths.py:139-155 | none iff the stripped body has no `{`; otherwise the text from the first `{` to the `}` of the last `};`, else to the last `}`, else to the end |
| ThsCrawler.SpaceRun | trendradar/crawler/custom/ths.py:158-161 | the length of the leading run of `\s` characters |
| ThsCrawler.QuoteKey | trendradar/crawler/custom/ths.py:158-161 | the rewrite keeps the text empty iff it was and keeps its first character |
| ThsCrawler.QuoteKeyNoMatch | trendradar/crawler/custom/ths.py:158-161 | a text without a bare key after the opener is left exactly as it is |
| ThsCrawler.QuoteKeyPrefix | trendradar/crawler/custom/ths.py:158-161 | text without the opener passes through unchanged in front of the rest |
| ThsCrawler.QuoteKeyIdempotent | trendradar/crawler/custom/ths.py:158-161 | quoting a key twice is quoting it once: no bare key is left |
| ThsCrawler.FeedKeysQuotable | trendradar/crawler/custom/ths.py:158-161 | the four rewrites (`pubDate` after `{`, `latestNewsSeq`, `counter`, `item` after `,`) are idempotent ones |
| ThsCrawler.JsonSliceOfWrapped | trendradar/crawler/custom/ths.py:139-155 | a body `callback(` + object + `;` gives back the object text exactly |
| ThsCrawler.ParseJsonp | trendradar/crawler/custom/ths.py:132-169 | no `{` gives PARSE_ERROR "无法找到 JSON 起始位置"; otherwise success iff the repaired slice decodes; every failure is PARSE_ERROR |
| ThsCrawler.ThsExtra | trendradar/crawler/custom/ths.py:180-188 | each of `stock_code`, `stocks`, `category`, `importance_level` is present iff its source field is truthy, with that field's value |
| ThsCrawler.ExtractEntrySpec | trendradar/crawler/custom/ths.py:174-199 | an entry without a truthy seq is skipped; an item carries the seq as non-empty text, the stripped title and content, the extra fields, and no fetched content |
| ThsCrawler.TruthyStrNonEmpty | trendradar/crawler/custom/ths.py:191 | `str` of a truthy seq is never empty |
| ThsCrawler.ExtractAllSpec | trendradar/crawler/custom/ths.py:173-201 | extraction raises iff some entry does; otherwise the items are those of the entries with a seq, in order, each with a non-empty seq |
| ThsCrawler.ExtractNewsItems | trendradar/crawler/custom/ths.py:171-201 | the loop over `data["item"]` computes `ExtractAll` of its entries |
| ThsCrawler.NewsListStatus | trendradar/crawler/custom/ths.py:66-130 | non-200 gives NETWORK_ERROR "HTTP <code>" with no items; success iff 200, the JSONP parses and the items extract, with `total_count` the item count; every failure has no items |
| ThsCrawler.FetchNewsList | trendradar/crawler/custom/ths.py:66-130 | the method computes `NewsListOf` |
| ThsCrawler.CleanedParagraphsSpec | trendradar/crawler/custom/ths.py:249-265 | the cleaned paragraphs are exactly the kept ones (non-empty, longer than 5, not the boilerplate prefix), each once |
| ThsCrawler.CleanParagraphs | trendradar/crawler/custom/ths.py:251-265 | the filter and seen-set loops compute `CleanedParagraphs` |
| ThsCrawler.ContentFromPageSpec | trendradar/crawler/custom/ths.py:228-280 | a page read succeeds exactly when it yields text; no container is PARSE_ERROR; kept paragraphs are joined with newlines |
| ThsCrawler.FetchContentFromUrl | trendradar/crawler/custom/ths.py:228-280 | the method computes `ContentFromPage` |
| ThsCrawler.UrlCandidates | trendradar/crawler/custom/ths.py:212-217 | the item's URL, then the `stock.10jqka.com.cn` rewrite exactly when the URL contains `news.10jqka.com.cn` |
| ThsCrawler.FirstContentSpec | trendradar/crawler/custom/ths.py:219-226 | the first candidate with a successful read wins; success always carries text; otherwise `("", EMPTY_RESULT)` |
| ThsCrawler.FetchFullContent | trendradar/crawler/custom/ths.py:203-226 | the candidate loop computes `FullContentOf` |
| ThsCrawler.BatchResults | trendradar/crawler/custom/ths.py:302-331 | the results have exactly one entry per seq of the items |
| ThsCrawler.BatchResultsLast | trendradar/crawler/custom/ths.py:304-314 | the entry for a seq is that of the last item carrying it |
| ThsCrawler.BatchEntrySpec | trendradar/crawler/custom/ths.py:304-321 | an already-fetched item reports its own content and SUCCESS, one without URL `("", EMPTY_RESULT)`, both unchanged; a fetched item records `content_fetched` iff the fetch succeeded |
| ThsCrawler.FetchFullContentBatch | trendradar/crawler/custom/ths.py:282-331 | without the HTML parser every seq maps to UNKNOWN_ERROR and nothing changes; otherwise each item is handled in order, updated in place, and the results are `BatchResults` |
| ThsCrawler.FetchOne | trendradar/crawler/custom/ths.py:305-321 | one iteration records the item's entry and updates only that item |
| ThsScript.FetchRaw | scripts/ths_crawler_test.py:48-61 | text comes back exactly for an answered request, with the `HTTP <code>, <n> bytes` line; a timeout, connection error or other error gives no text and its own status |
| ThsScript.PyLen | scripts/ths_crawler_test.py:170 | `len` of a list is its number of elements |
| ThsScript.ParseWith | scripts/ths_crawler_test.py:144-173 | no `{` gives the start-position message; parsed data is what decoding the sliced, key-quoted text gave as a dict |
| ThsScript.ParseJsonpNoBrace | scripts/ths_crawler_test.py:149-151 | a payload with no `{` is refused with "无法找到 JSON 起始位置" and never raises |
| ThsScript.ExtractItem | scripts/ths_crawler_test.py:175-189 | a dict comes out only of a dict entry whose title and content are strings (or missing) |
| ThsScript.ExtractItemSpec | scripts/ths_crawler_test.py:175-189 | reading an entry fails exactly on a non-string title, content or url, or an unhashable truthy seq; the dict keeps the seq as given, strips title and content, and starts `full_content` empty |
| ThsScript.SeqList | scripts/ths_crawler_test.py:207-208 | the seqs of the items, one per item, in order |
| ThsScript.FreshSound | scripts/ths_crawler_test.py:206-217 | every new item comes from the batch and has a truthy seq not seen before |
| ThsScript.FreshSeqs | scripts/ths_crawler_test.py:206-217 | the new items carry exactly the batch's unseen truthy seqs |
| ThsScript.FreshDistinct | scripts/ths_crawler_test.py:215-217 | no seq is reported new twice within a poll |
| ThsScript.FreshAgain | scripts/ths_crawler_test.py:215-217 | a batch whose seqs were all seen reports nothing new |
| ThsScript.AddFirstKeys | scripts/ths_crawler_test.py:210-212 | `all_news` gains exactly the batch's truthy seqs as keys |
| ThsScript.AddFirstKeeps | scripts/ths_crawler_test.py:211-212 | a collected item is never replaced by a later version |
| ThsScript.AddFirstFirst | scripts/ths_crawler_test.py:211-212 | a newly collected seq maps to the first item of the batch that carries it |
| ThsScript.FailedFetch | scripts/ths_crawler_test.py:195-197 | a failed or empty fetch reports no items and the "未执行" parse status |
| ThsScript.ContentFromPageAgrees | scripts/ths_crawler_test.py:89-142 | the prototype reads the same text from a page as the production crawler, and none when that one fails |
| ThsScript.FirstContentAgrees | scripts/ths_crawler_test.py:80-87 | the candidate loop finds the same text as the production crawler's |
| ThsScript.FullContentAgrees | scripts/ths_crawler_test.py:63-87 | with the HTML parser installed, the prototype finds text exactly when the production crawler does, the same text; an empty URL gives "URL 为空" |
| ThsScript.FetchFullContent | scripts/ths_crawler_test.py:63-87 | the method computes the full-content fetch: no parser, empty URL, then the first candidate giving text or the last reason |
| ThsScript.Completed | scripts/ths_crawler_test.py:241-263 | a fetched text is stored in `full_content`; a skipped or failed item is left as it was; no other field changes |
| ThsScript.TallyTotal | scripts/ths_crawler_test.py:236-269 | success, failed and skipped add up to the number of visited items |
| ThsScript.VisitAllTracks | scripts/ths_crawler_test.py:206-217 | the poll loop reports the fresh items, grows the seen-set by the batch's truthy seqs and `all_news` by the first version of each |
| ThsScript.VisitAllOrder | scripts/ths_crawler_test.py:210-212 | the insertion order of `all_news` lists each key once, the old keys first, then the new seqs in arrival order |
| ThsScript.CompleteKeysSpec | scripts/ths_crawler_test.py:239-263 | the pass keeps the keys of `all_news` and completes exactly the items it visits |
| ThsScript.CompleteOne | scripts/ths_crawler_test.py:241-263 | one step of the pass: skip an item with text or without URL, else fetch and store a found text |
| ThsScript.CompleteAll | scripts/ths_crawler_test.py:239-269 | the loop over the collected keys gives the completed items and the tally |
| ThsScript.Crawler.constructor | scripts/ths_crawler_test.py:31-42 | the crawler starts with no seen seqs and no collected news |
| ThsScript.Crawler.GetIncrementalNews | scripts/ths_crawler_test.py:191-219 | a raising poll leaves the state as it was; otherwise the new items are the batch's unseen truthy seqs, which join the seen-set, and `all_news` gains the first version of each, its keys always equal to the seen-set |
| ThsScript.Crawler.Absorb | scripts/ths_crawler_test.py:206-217 | the loop over one batch: new items, seen-set, `all_news` and its order as specified |
| ThsScript.Crawler.FetchAllFullContents | scripts/ths_crawler_test.py:221-269 | without the parser everything is skipped and nothing changes; otherwise each collected item is visited once in insertion order, found texts are stored, the keys stay, and the counters add up to the number of collected items |
| ThsScript.Excerpt | scripts/ths_crawler_test.py:284-286 | a summary longer than 200 characters is cut to its first 200 plus "..."; a shorter one is kept |
| ThsScript.DetailLines | scripts/ths_crawler_test.py:272-288 | six lines plus one for a truthy stock code and one for a truthy importance, with the seq first, the URL fifth and the excerpt last |
| ThsScriptLog.AllNewsOf | scripts/ths_crawler_log_test.py:94-105 | items come only from a fetched text whose parse gave a dict, and are its extracted entries |
| ThsScriptLog.FailedFetch | scripts/ths_crawler_log_test.py:96-98 | a failed or empty fetch gives no items and the "未执行" parse status |
| ThsScriptLog.MarkAllSpec | scripts/ths_crawler_log_test.py:111-116 | the loop reports exactly the fresh items and adds the batch's truthy seqs to the seen-set |
| ThsScriptLog.Crawler.constructor | scripts/ths_crawler_log_test.py:21-29 | the crawler starts with no seen seqs |
| ThsScriptLog.Crawler.GetIncrementalNews | scripts/ths_crawler_log_test.py:107-118 | a raising poll leaves the seen-set; otherwise the new items are the batch's unseen truthy seqs, each at its first occurrence, and they join the seen-set |
| ThsTapp.InsertDesc | trendradar/crawler/custom/ths_tapp.py:217 | inserting adds one element |
| ThsTapp.SortDesc | trendradar/crawler/custom/ths_tapp.py:217 | sorting keeps the length |
| ThsTapp.InsertDescPerm | trendradar/crawler/custom/ths_tapp.py:217 | inserting adds exactly that element |
| ThsTapp.InsertDescSorted | trendradar/crawler/custom/ths_tapp.py:217 | inserting into a descending sequence keeps it descending |
| ThsTapp.InsertDescStable | trendradar/crawler/custom/ths_tapp.py:217 | the inserted element goes behind every element of its own key |
| ThsTapp.SortDescSpec | trendradar/crawler/custom/ths_tapp.py:217 | `sort(key, reverse=True)` is descending by key, a permutation of its input, and stable: elements of equal key keep their order |
| ThsTapp.SortKeySpec | trendradar/crawler/custom/ths_tapp.py:150-158 | the corrected `_ctime` raises exactly when the timestamp handling above it does, and agrees with the code as written wherever that does not raise |
| ThsTapp.NotANumber | trendradar/crawler/custom/ths_tapp.py:155 | `int("abc")` raises a ValueError |
| ThsTapp.SortKeyAsWrittenRaises | trendradar/crawler/custom/ths_tapp.py:150-158 | a non-numeric timestamp text is tolerated by the formatting (empty `published_at`) but makes `_ctime` as written raise |
| ThsTapp.IntOr | trendradar/crawler/custom/ths_tapp.py:185-198 | `int(v) if v else default`: a falsy value or a ValueError or TypeError gives the default, otherwise the integer |
| ThsTapp.PublishedAt | trendradar/crawler/custom/ths_tapp.py:150-158 | a falsy ctime gives ""; the formatting raises exactly when `int(ctime)` raises a TypeError, which the `except` does not catch |
| ThsTapp.TappExtraSpec | trendradar/crawler/custom/ths_tapp.py:160-203 | `_ctime` is always present; `importance` iff the coerced importance is non-zero; `highlight` iff the coerced colour is above 1; `stocks`, `fields` and `tags` iff their source list is truthy; it raises only when a list element cannot be read |
| ThsTapp.EntryAsWrittenRaises | trendradar/crawler/custom/ths_tapp.py:203 | an entry with seq "1" and ctime "abc" makes the code as written raise, while the corrected entry gives an item |
| ThsTapp.PlainEntryItem | trendradar/crawler/custom/ths_tapp.py:145-214 | an entry with a seq, an accepted timestamp and no other keys gives an item (corrected reading: `_ctime` is the corrected `SortKey`, so a non-numeric ctime does not raise) |
| ThsTapp.TappEntrySpec | trendradar/crawler/custom/ths_tapp.py:146-213 | an entry without a truthy seq is skipped; an item carries the seq as non-empty text, the stripped title, the stripped digest (else `short`), the formatted time, `_ctime`, a non-empty source and no fetched content (corrected reading: `_ctime` is the corrected `SortKey`, so a non-numeric ctime does not raise) |
| ThsTapp.TruthySeqText | trendradar/crawler/custom/ths_tapp.py:206 | `str` of a truthy seq is never empty |
| ThsTapp.ExtractAllSpec | trendradar/crawler/custom/ths_tapp.py:140-219 | the items are newest first, a permutation of the items of the entries with a seq, equal times in feed order; extraction raises exactly when some entry does (corrected reading: `_ctime` is the corrected `SortKey`, so a non-numeric ctime does not raise) |
| ThsTapp.ExtractNewsItems | trendradar/crawler/custom/ths_tapp.py:140-219 | the loop over `data.list` computes the sorted extraction (corrected reading: `_ctime` is the corrected `SortKey`, so a non-numeric ctime does not raise) |
| ThsTapp.NewsListStatus | trendradar/crawler/custom/ths_tapp.py:67-138 | success iff 200, a dict body with `code` the text "200" (a number 200 is a PARSE_ERROR) and an extraction that does not raise; success carries and counts the items; every failure has no items (corrected reading: `_ctime` is the corrected `SortKey`, so a non-numeric ctime does not raise) |
| ThsTapp.FetchNewsList | trendradar/crawler/custom/ths_tapp.py:67-138 | the method computes `NewsListOf` (corrected reading: `_ctime` is the corrected `SortKey`, so a non-numeric ctime does not raise) |
| DailyPush.CutTitle | scripts/langbot_integrations/trendradar_push.py:180-182 | a title over 45 characters becomes its first 45 plus "..."; a shorter one is kept |
| DailyPush.TopSources | scripts/langbot_integrations/trendradar_push.py:170 | the first three sources, each as `name(count)` |
| DailyPush.StatsLines | scripts/langbot_integrations/trendradar_push.py:161-172 | no statistics give no block; otherwise the heading, the two counts, the top-sources line only when there are sources, and an empty line |
| DailyPush.ItemLines | scripts/langbot_integrations/trendradar_push.py:179-185 | two lines per listed row |
| DailyPush.ItemLinesAt | scripts/langbot_integrations/trendradar_push.py:179-185 | the `k`-th listed row is numbered `k + 1` with its cut title, followed by its source (default 未知) |
| DailyPush.NewsLines | scripts/langbot_integrations/trendradar_push.py:175-189 | no rows give no block; otherwise at least the heading, an empty line and the closing empty line |
| DailyPush.MoreLines | scripts/langbot_integrations/trendradar_push.py:187-188 | a line counting the unlisted rows exactly beyond eight |
| DailyPush.SourceLineIsNotMore | scripts/langbot_integrations/trendradar_push.py:185-188 | a source line is never taken for the count line |
| DailyPush.NewsLinesListed | scripts/langbot_integrations/trendradar_push.py:175-189 | the news block names the number of rows and lists the first eight, numbered from 1, titles cut at 45 characters |
| DailyPush.NewsLineAt | scripts/langbot_integrations/trendradar_push.py:179-185 | the lines of the `k`-th listed row sit at positions `2 + 2k` and `3 + 2k` |
| DailyPush.NewsLinesMore | scripts/langbot_integrations/trendradar_push.py:187-189 | just before the closing empty line, the block counts the unlisted rows exactly when there are more than eight |
| DailyPush.ReportLines | scripts/langbot_integrations/trendradar_push.py:147-196 | the report is the four header lines, the statistics block, the news block and the two footer lines |
| DailyPush.ReportBlocks | scripts/langbot_integrations/trendradar_push.py:147-196 | the report holds the statistics block exactly when there are statistics, and the news block exactly when there are rows |
| DailyPush.FormatDailyReport | scripts/langbot_integrations/trendradar_push.py:147-196 | the report starts with its bold "TrendRadar 财经日报" heading line |
| DailyPush.Execute | scripts/langbot_integrations/trendradar_push.py:36-54 | an exception while gathering gives "❌ 生成财经日报失败: " plus its text; no rows and no statistics give the placeholder; otherwise the report |
| DailyPush.SummaryItemLines | scripts/langbot_integrations/trendradar_push.py:210-215 | three lines per listed row |
| DailyPush.SummaryItemLinesAt | scripts/langbot_integrations/trendradar_push.py:210-215 | the `k`-th row: number `k + 1` and the title cut to 50 characters, its source, an empty line |
| DailyPush.SummaryShape | scripts/langbot_integrations/trendradar_push.py:199-222 | the summary lists the first eight rows between its header and footer, each title cut to at most 50 characters with no ellipsis |
| DailyPush.FormatNewsSummary | scripts/langbot_integrations/trendradar_push.py:199-222 | the summary starts with its bold "TrendRadar 财经快讯" heading line |

## Left out

- Threads, sleeps, `asyncio` and polling loops are not modelled. The AI queue's worker threads become one `WorkerStep` at a time. The manager's content-fetch thread and the analyzer's `analyze_batch` gather run sequentially. `stop` and join timeouts, `start_polling`/`stop_polling` and signal handlers are dropped.
- HTTP sessions, charset detection (GBK/UTF-8), BeautifulSoup container lookup and script/style stripping are out of the model. A page is given as the paragraph texts of its content container.
- `json.loads`, `json.dumps`, `re.search`, `uuid4`, `datetime.now`, time-zone formatting, file loads, renames and sends are parameters. They are not defined here.
- Floats are not modelled: temperature, `fetch_delay`, `retry_delay`, `poll_interval` arithmetic and send intervals. Times are whole seconds.
- `str.lower`/`str.upper` are the ASCII case mapping; Unicode case mapping is not modelled.
- SimpleAnalyzer.NormalizedConfigSpec: the normalised configuration omits the float TEMPERATURE entry. It covers the other five keys.
- SQLite plumbing is out of the model: connections, DDL, `_init_db`, row decoding in `get_items`, the database path of `get_errors` with its durable errors table and the trim of the errors table. The raw-item table is a map, and the seen-set load reads that map.
- The `on_content_fetched` and `on_error` callbacks of the crawler manager are not modelled. Exceptions raised by new-item callbacks are swallowed, so a callback is recorded as a call and nothing else.
- A registration that raises part-way is not modelled, and neither are crawler timeouts.
- The runner's `get_stats`, `get_errors`, `on_new_items`, `start_polling`/`stop_polling` and `cleanup` (trendradar/crawler/runner.py lines 206-241, 313-339 and 378-389) are not modelled. They only delegate to the manager or run the polling thread.
- The crawl pass uses a single clock value for all of its sources.
- In `scripts/run_crawler.py` the `crawl_all` results are a parameter of `CrawlerApp.CrawlOnce`, so the application's own crawl is not modelled there. In the runner, a content fetch with `ASYNC_MODE` false is waited for before the filter runs, and the filter reads the fetched `full_content`; in `scripts/run_crawler.py` the fetch is only recorded as a job, so its filter sees the items without fetched text.
- `int()` of text accepts ASCII and full-width digits (U+FF10 to U+FF19) with single underscores between digits; the other Unicode decimal digits (Arabic-Indic, Devanagari and the rest) are read as not a number.
- `scripts/run_crawler.py` HTML report, `run` loop, `stop`, `cleanup` and `main` (lines 198-420) are not modelled. The content fetch it dispatches is recorded as a job, not performed.
- `format_filter_result` in filter.py is not modelled; it only formats a log line.
- The `filter_words` and `match_mode` arguments of `filter_news_item` are passed along but never consulted, in the model as in the code.
- Object identity is not modelled, apart from the AI queue's task objects shared between its queue and its task table. A `1`/`True` key collision, unhashable seqs and non-string urls are not modelled either; a non-string value in a string field is a malformed entry.
- The Feishu client's `send_message`/`send_text`/`send_post` HTTP calls are parameters. Loading credentials from the LangBot database (scripts/feishu_push_service.py lines 155-167), the `run` loop, `_print_stats` and `main`'s argument parsing are not modelled.
- A reply to a send is a fixed function of the post.
- The LangBot listener's plugin database configuration and its polling task are not modelled.
- JoinedWords: a `keywords` field that is a dict is modelled as raising, in `PushText.JoinedWords` and so in FeishuFormat (scripts/feishu_push_service.py lines 184 and 243) and the LangBot listener; Python joins its keys in insertion order, which a Dafny map does not have.
- A pre-formatted daily message that is not a string is modelled as raising.
- DailyPush: the `get_recent_news`, `get_daily_stats` and `get_processed_count` database and file reads are parameters. NULL columns are given as text, and the query's rows arrive typed.
- Prompt files are a map from name to text, and `str.format` of a template is a parameter.
- The 0 passed as `maxItems` stands for "not given" in the display query.
- The `new_items` list computed at trendradar/crawler/runner.py lines 142-144 is never used and is not modelled.
- PublishedAt: an `int(ctime)` too large for `datetime.fromtimestamp` raises OverflowError, which `except (ValueError, OSError)` at trendradar/crawler/custom/ths_tapp.py:157 does not catch; the `format` parameter cannot raise, so the model gives "" where the fetch would fail.
- SettingsOf: a `MAX_DISPLAY_ITEMS` that is not an int gives no settings, where trendradar/crawler/runner.py:64 stores any value (and None there displays every item).
- FetchFullContentBatch: the per-item `callback(item, content, status)` at trendradar/crawler/custom/ths.py:324-325 is not modelled; the batch result and the updated items are.
- RssEntry, RssEntrySpec, ConvertToRss: the entries use the corrected `RssSummary`; as written (trendradar/crawler/runner.py:365) an item with a summary and no full content gets an empty summary, see Findings.
- PlainEntryItem, TappEntrySpec, ExtractAllSpec, ExtractNewsItems, NewsListStatus, FetchNewsList: these use the corrected `SortKey`; as written (trendradar/crawler/custom/ths_tapp.py:203) a non-numeric ctime raises and fails the whole list fetch, see Findings.
- GetErrors: the memory fallback is the corrected `RecentErrors`; as written (trendradar/crawler/custom/manager.py:590) a limit of 0 returns every matching entry and a negative one all but the first `-limit`, see Findings.

## Findings

| source | as written | input that shows it | evidently intended | confidence | as-written member | corrected member |
|---|---|---|---|---|---|---|
| trendradar/crawler/custom/manager.py:590 | the memory fallback returns `result[-limit:]`; `[-0:]` is the whole list and a negative limit drops entries from the front | `limit` 0 with one logged error returns that error; `limit` -1 with two logged errors returns one | a limit of 0 or less returns no entries | not executed | CrawlManager.MemoryErrorsNonPositiveWitness | CrawlManager.RecentErrors |
| trendradar/crawler/runner.py:365 | `summary or full_content[:200] if full_content else ""` parses as a conditional around the `or` | an item with summary "s" and empty full content gets summary "" | the item's summary, else the first 200 characters of its full content | not executed | CrawlerRunner.RssSummaryAsWrittenDropsSummary | CrawlerRunner.RssSummary |
| trendradar/crawler/custom/ths_tapp.py:203 | `_ctime` is `int(ctime)` outside any `try`, while the timestamp formatting above it catches the same error | an entry with seq "1" and ctime "abc" makes the extraction raise | a timestamp that is not a number sorts as 0, like a missing one | not executed | ThsTapp.EntryAsWrittenRaises | ThsTapp.SortKeySpec |
