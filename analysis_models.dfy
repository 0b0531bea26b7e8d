/**
 * The AI result models: the per-item analysis result (with its error
 * constructor), the batch analysis result, the translation result and the
 * batch of translations that counts successes and failures as results are
 * added. Timestamps are parameters.
 */
module AnalysisModels {
  import opened Common
  import opened BaseModels

  /** `NewsAnalysisResult`: a result header, the analysis bookkeeping and the per-item findings. */
  class NewsAnalysisResult {
    var success: bool
    var error: string
    var timestamp: string
    var rawResponse: string
    var modelUsed: string
    var analyzedAt: string
    var newsId: string
    var summary: string
    var keywords: seq<string>
    var sentiment: string
    var importance: int
    var category: string
    var entities: seq<string>
    var tags: seq<string>

    function Status(): ResultStatus
      reads this
    {
      ResultStatus(success, error, timestamp)
    }

    /**
     * `NewsAnalysisResult(news_id=newsId)` at time `now`: successful,
     * sentiment "neutral", importance 3, every text and list empty.
     */
    constructor (newsId: string, now: string)
      ensures Status() == ResultStatus(true, "", now) && analyzedAt == now
      ensures this.newsId == newsId && sentiment == "neutral" && importance == 3
      ensures rawResponse == "" && modelUsed == "" && summary == "" && category == ""
      ensures keywords == [] && entities == [] && tags == []
    {
      success, error, timestamp := true, "", now;
      rawResponse, modelUsed, analyzedAt := "", "", now;
      this.newsId, summary, keywords, sentiment := newsId, "", [], "neutral";
      importance, category, entities, tags := 3, "", [], [];
    }

    /** `mark_error`, inherited from the result header. */
    method MarkError(msg: string)
      modifies this
      ensures Status() == ErrorMarked(old(Status()), msg)
      ensures rawResponse == old(rawResponse) && modelUsed == old(modelUsed) && analyzedAt == old(analyzedAt)
      ensures newsId == old(newsId) && summary == old(summary) && keywords == old(keywords)
      ensures sentiment == old(sentiment) && importance == old(importance) && category == old(category)
      ensures entities == old(entities) && tags == old(tags)
    {
      success, error := false, msg;
    }
  }

  /** `NewsAnalysisResult.from_error(news_id, error_msg)`: a fresh result for that id, failed with that message. */
  method FromError(newsId: string, msg: string, now: string) returns (r: NewsAnalysisResult)
    ensures fresh(r)
    ensures r.newsId == newsId && !r.success && r.error == msg && r.timestamp == now
    ensures r.sentiment == "neutral" && r.importance == 3 && r.summary == ""
  {
    r := new NewsAnalysisResult(newsId, now);
    r.MarkError(msg);
  }

  /** `BatchAnalysisResult`: five report sections and three counters, all empty or zero by default. */
  datatype BatchAnalysisResult = BatchAnalysisResult(
    status: ResultStatus,
    rawResponse: string,
    modelUsed: string,
    analyzedAt: string,
    coreTrends: string,
    sentimentControversy: string,
    signals: string,
    rssInsights: string,
    outlookStrategy: string,
    newsCount: int,
    hotlistCount: int,
    rssCount: int)

  /** `BatchAnalysisResult()` at time `now`. */
  function DefaultBatchAnalysis(now: string): (r: BatchAnalysisResult)
    ensures r.status.success && r.status.error == ""
    ensures r.newsCount == 0 && r.hotlistCount == 0 && r.rssCount == 0
  {
    BatchAnalysisResult(ResultStatus(true, "", now), "", "", now, "", "", "", "", "", 0, 0, 0)
  }

  /** `TranslationResult`: unlike the other results it is a failure until marked otherwise. */
  datatype TranslationResult = TranslationResult(
    translatedText: string,
    originalText: string,
    sourceLanguage: string,
    targetLanguage: string,
    success: bool,
    error: string)

  /** `TranslationResult()` */
  function DefaultTranslation(): (r: TranslationResult)
    ensures !r.success && r.error == "" && r.translatedText == ""
  {
    TranslationResult("", "", "", "", false, "")
  }

  /** The number of successful results in `rs`. */
  function Successes(rs: seq<TranslationResult>): (n: nat)
    ensures n <= |rs|
  {
    if rs == [] then 0
    else Successes(rs[..|rs| - 1]) + (if rs[|rs| - 1].success then 1 else 0)
  }

  /** The dict `to_dict` gives for a translation result: its six fields under their own names. */
  function TranslationValue(t: TranslationResult): (v: Value)
    ensures v.Obj? && DistinctNames(v.fields) && |v.fields| == 6
  {
    Obj([Field("translated_text", Plain(JStr(t.translatedText))),
         Field("original_text", Plain(JStr(t.originalText))),
         Field("source_language", Plain(JStr(t.sourceLanguage))),
         Field("target_language", Plain(JStr(t.targetLanguage))),
         Field("success", Plain(JBool(t.success))),
         Field("error", Plain(JStr(t.error)))])
  }

  /** `BatchTranslationResult` */
  class BatchTranslationResult {
    var results: seq<TranslationResult>
    var successCount: int
    var failCount: int
    var totalCount: int

    /** The counters describe the results: all of them, the successful ones, the rest. */
    ghost predicate Valid()
      reads this
    {
      && totalCount == |results|
      && successCount == Successes(results)
      && successCount + failCount == totalCount
    }

    /** `BatchTranslationResult()`: no results, every counter 0. */
    constructor ()
      ensures Valid()
      ensures results == [] && successCount == 0 && failCount == 0 && totalCount == 0
    {
      results, successCount, failCount, totalCount := [], 0, 0, 0;
    }

    /** `add_result`: appended, counted once, as a success or as a failure. */
    method AddResult(r: TranslationResult)
      requires Valid()
      modifies this
      ensures Valid()
      ensures results == old(results) + [r] && totalCount == old(totalCount) + 1
      ensures r.success ==> successCount == old(successCount) + 1 && failCount == old(failCount)
      ensures !r.success ==> failCount == old(failCount) + 1 && successCount == old(successCount)
    {
      results := results + [r];
      totalCount := totalCount + 1;
      assert results[..|results| - 1] == old(results);
      if r.success {
        successCount := successCount + 1;
      } else {
        failCount := failCount + 1;
      }
    }

    /** The object `to_dict` renders: the list of results and the three counters. */
    function AsValue(): (v: Value)
      reads this
      ensures v.Obj? && DistinctNames(v.fields) && |v.fields| == 4
    {
      var rs := results;
      Obj([Field("results", ListOf(seq(|rs|, i requires 0 <= i < |rs| => TranslationValue(rs[i])))),
           Field("success_count", Plain(JInt(successCount))),
           Field("fail_count", Plain(JInt(failCount))),
           Field("total_count", Plain(JInt(totalCount)))])
    }
  }

  /** The batch's `to_dict` lists every result as its own dict, whose "success" entry is that result's flag. */
  lemma BatchToDict(b: BatchTranslationResult, i: nat)
    requires i < |b.results|
    ensures var d := ToDict(b.AsValue());
            && "results" in d && d["results"].ListOf? && |d["results"].elems| == |b.results|
            && d["results"].elems[i] == DictOf(ToDict(TranslationValue(b.results[i])))
            && "success" in d["results"].elems[i].entries
            && d["results"].elems[i].entries["success"] == Plain(JBool(b.results[i].success))
  {
    var o := b.AsValue();
    ToDictSpec(o, 0);
    var t := TranslationValue(b.results[i]);
    assert o.fields[0].value.elems[i] == t;
    ToDictSpec(t, 4);
  }
}
