/**
 * Pieces shared by the two consumers of the push queue (the Feishu push
 * service and the LangBot listener): which queue files are pending, which
 * layout a queue file asks for, and how the message fields behave inside
 * an f-string (`items[:10]`, `', '.join(keywords)`, the sentiment emoji
 * lookup and the importance stars), each with its Python error cases.
 */
module PushText {
  import opened Common
  import CrawlerBase
  import Constants

  /** At most this many items of a queue file are listed in a message. */
  const MaxListed := 10

  /** The 20-character rule printed under every message header. */
  const Rule := "━━━━━━━━━━━━━━━━━━━━"

  // ------------------------------------------------------------ queue files

  /** A file `glob("*.json")` finds that is neither hidden nor a renamed failure. */
  predicate IsPending(name: string) {
    EndsWith(name, ".json") && !StartsWith(name, ".") && !StartsWith(name, "error_")
  }

  /** `sorted(f for f in queue_dir.glob("*.json") if ...)`: the pending names of a directory listing, in order. */
  function PendingFiles(names: seq<string>): (r: seq<string>)
  {
    SortStrings(KeepIf(names, IsPending))
  }

  /** The pending files are exactly the listed `.json` names that are not hidden or `error_`-prefixed, each once per listing, sorted. */
  lemma PendingFilesSpec(names: seq<string>)
    ensures SortedStrings(PendingFiles(names))
    ensures multiset(PendingFiles(names)) == multiset(KeepIf(names, IsPending))
    ensures forall n :: n in PendingFiles(names) <==> n in names && IsPending(n)
  {
    var kept := KeepIf(names, IsPending);
    SortStringsCorrect(kept);
    forall n ensures n in PendingFiles(names) <==> n in names && IsPending(n) {
      assert n in PendingFiles(names) <==> n in multiset(PendingFiles(names));
      assert n in kept <==> n in multiset(kept);
      if n in names && IsPending(n) {
        KeepIfComplete(names, IsPending, n);
      }
    }
  }

  // ------------------------------------------------------------ message type

  /** The three layouts a queue file can ask for. */
  datatype Layout = RawLayout | AiLayout | DailyLayout

  /** `data.get("type", "raw")` compared with the two known type names. */
  function LayoutOf(data: map<string, Json>): (k: Layout)
    ensures k == AiLayout <==> "type" in data && data["type"] == JStr(Constants.AiAnalysisPush)
    ensures k == DailyLayout <==> "type" in data && data["type"] == JStr("daily_report")
    ensures "type" !in data ==> k == RawLayout
  {
    var t := Get(data, "type", JStr(Constants.RawPush));
    if t == JStr(Constants.AiAnalysisPush) then AiLayout
    else if t == JStr("daily_report") then DailyLayout
    else RawLayout
  }

  // --------------------------------------------------------------- items

  /** The characters of a text as one-character strings, as iterating a `str` yields them. */
  function Chars(s: string): (r: seq<Json>)
    ensures |r| == |s|
    ensures forall k :: 0 <= k < |s| ==> r[k] == JStr([s[k]])
  {
    seq(|s|, k requires 0 <= k < |s| => JStr([s[k]]))
  }

  /**
   * What `items[:n]` and `len(items)` see of `data.get("items", [])`: a
   * list's elements or a string's characters; slicing anything else (a
   * dict, a number, None) raises.
   */
  function ItemsOf(j: Json): (r: Option<seq<Json>>)
    ensures r.Some? <==> j.JList? || j.JStr?
    ensures j.JList? ==> r == Some(j.elems)
    ensures j.JStr? ==> r == Some(Chars(j.s))
  {
    match j
    case JList(es) => Some(es)
    case JStr(s) => Some(Chars(s))
    case _ => None
  }

  /** The entries listed: the first `MaxListed`. */
  function Listed(es: seq<Json>): (r: seq<Json>)
    ensures |r| == (if |es| <= MaxListed then |es| else MaxListed)
    ensures r == es[..|r|]
  {
    Take(es, MaxListed)
  }

  // ------------------------------------------------------- message fields

  /** `', '.join(v)`: a list of strings, or the characters of a string; anything else raises. */
  function JoinedWords(v: Json): (r: Option<string>)
    ensures v.JStr? ==> r.Some?
    ensures r.Some? ==> v.JStr? || v.JList?
  {
    match v
    case JList(es) => (match CrawlerBase.AsStrList(es) case Some(ws) => Some(Join(ws, ", ")) case None => None)
    case JStr(s) => Some(Join(seq(|s|, k requires 0 <= k < |s| => [s[k]]), ", "))
    case _ => None
  }

  /** A list of keyword strings joins to exactly those keywords, comma separated. */
  lemma JoinedWordsOfList(ws: seq<string>)
    ensures JoinedWords(JList(CrawlerBase.StrList(ws))) == Some(Join(ws, ", "))
  {
    CrawlerBase.AsStrListOfStrList(ws);
  }

  /** `f" 【{', '.join(keywords)}】" if keywords else ""` */
  function KeywordTag(keywords: Json): (r: Option<string>)
    ensures !Truthy(keywords) ==> r == Some("")
    ensures Truthy(keywords) && r.Some? ==> StartsWith(r.value, " 【") && EndsWith(r.value, "】")
    ensures Truthy(keywords) ==> (r.Some? <==> JoinedWords(keywords).Some?)
  {
    if !Truthy(keywords) then Some("")
    else match JoinedWords(keywords)
      case Some(t) => Some(" 【" + t + "】")
      case None => None
  }

  /** A non-empty list of keyword strings gives a tag naming them; an empty one gives no tag. */
  lemma KeywordTagOfList(ws: seq<string>)
    ensures ws == [] ==> KeywordTag(JList(CrawlerBase.StrList(ws))) == Some("")
    ensures ws != [] ==> KeywordTag(JList(CrawlerBase.StrList(ws))) == Some(" 【" + Join(ws, ", ") + "】")
  {
    JoinedWordsOfList(ws);
    assert |CrawlerBase.StrList(ws)| == |ws|;
  }

  /**
   * `{"positive": "📈", "negative": "📉", "neutral": "➡️"}.get(sentiment, "➡️")`:
   * the table is the one of `Sentiments.EMOJIS`; a list or dict key is
   * unhashable and raises.
   */
  function EmojiOf(sentiment: Json): (r: Option<string>)
    ensures r.None? <==> sentiment.JList? || sentiment.JObj?
    ensures r.Some? && sentiment != JStr("positive") && sentiment != JStr("negative") ==> r.value == "➡️"
    ensures sentiment == JStr("positive") ==> r == Some("📈")
    ensures sentiment == JStr("negative") ==> r == Some("📉")
  {
    match sentiment
    case JStr(s) => Some(Constants.SentimentEmoji(s))
    case JList(_) => None
    case JObj(_) => None
    case _ => Some("➡️")
  }

  /** `"⭐" * importance`: an int (a bool counts as 0 or 1) repeats the star; any other value raises. */
  function StarsOf(importance: Json): (r: Option<string>)
    ensures r.Some? <==> importance.JInt? || importance.JBool?
    ensures importance.JInt? ==> r.Some? && |r.value| == (if importance.i < 0 then 0 else importance.i)
    ensures r.Some? ==> forall k :: 0 <= k < |r.value| ==> r.value[k] == '⭐'
  {
    match importance
    case JInt(n) => RepeatStar(n); Some(Repeat("⭐", n))
    case JBool(b) => RepeatStar(if b then 1 else 0); Some(Repeat("⭐", if b then 1 else 0))
    case _ => None
  }

  lemma {:induction false} RepeatStar(n: int)
    ensures |Repeat("⭐", n)| == (if n < 0 then 0 else n)
    ensures forall k :: 0 <= k < |Repeat("⭐", n)| ==> Repeat("⭐", n)[k] == '⭐'
    decreases n
  {
    if n > 0 {
      RepeatStar(n - 1);
    }
  }

  /** The count in the overflow line: the items beyond the listed ones. */
  function Unlisted(es: seq<Json>): (n: nat)
    ensures n == |es| - |Listed(es)|
    ensures n > 0 <==> |es| > MaxListed
  {
    if |es| > MaxListed then |es| - MaxListed else 0
  }
}
