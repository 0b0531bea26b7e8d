/**
 * Keyword filtering of crawled news items. An item is checked against global
 * filter terms first, then against keyword groups one layer at a time (title,
 * summary, full content); the keyword configuration is read from the
 * `frequency_words.txt` line format.
 */
module KeywordFilter {
  import opened Common
  import opened CrawlerBase

  /**
   * A keyword group as the loader builds it. `displayName == ""` stands for a
   * missing or empty display name. Required terms keep their leading '+',
   * excluded terms their leading '!', patterns their surrounding '/'.
   */
  datatype WordGroup = WordGroup(
    name: string,
    displayName: string,
    words: seq<string>,
    required: seq<string>,
    excluded: seq<string>,
    patterns: seq<string>)

  /**
   * `re.search(pattern, text, re.IGNORECASE)`: Some(found), or None when the
   * pattern does not compile (`re.error`).
   */
  type RegexSearch = (string, string) -> Option<bool>

  /** `term.lower() in text_lower` */
  predicate HasTerm(textLower: string, term: string) {
    Contains(textLower, Lower(term))
  }

  /** An excluded term without its leading '!' characters (`lstrip("!")`). */
  function ExcludedTerm(e: string): string {
    LStripChar(e, '!')
  }

  /** A required term without its leading '+' characters (`lstrip("+")`). */
  function RequiredTerm(r: string): string {
    LStripChar(r, '+')
  }

  /** An excluded term occurs in the lower-cased text. */
  predicate ExcludedHit(textLower: string, e: string) {
    HasTerm(textLower, ExcludedTerm(e))
  }

  /** A required term occurs in the lower-cased text. */
  predicate RequiredHit(textLower: string, q: string) {
    HasTerm(textLower, RequiredTerm(q))
  }

  /** A pattern without its surrounding slashes, as `pattern[1:-1]`. */
  function StripSlashes(p: string): string {
    if StartsWith(p, "/") && EndsWith(p, "/") then (if |p| >= 2 then p[1..|p| - 1] else "") else p
  }

  // ------------------------------------------------------------- one group

  /** The loop over excluded terms: true as soon as one occurs. */
  function AnyExcluded(textLower: string, excluded: seq<string>): bool {
    if excluded == [] then false
    else ExcludedHit(textLower, excluded[0]) || AnyExcluded(textLower, excluded[1..])
  }

  /** `AnyExcluded` is true iff some excluded term occurs. */
  lemma AnyExcludedIff(textLower: string, excluded: seq<string>)
    ensures AnyExcluded(textLower, excluded) <==> exists i :: 0 <= i < |excluded| && ExcludedHit(textLower, excluded[i])
  {
    if AnyExcluded(textLower, excluded) {
      AnyExcludedSome(textLower, excluded);
    } else {
      AnyExcludedNone(textLower, excluded);
    }
  }

  lemma {:induction false} AnyExcludedSome(textLower: string, excluded: seq<string>)
    requires AnyExcluded(textLower, excluded)
    ensures exists i :: 0 <= i < |excluded| && ExcludedHit(textLower, excluded[i])
  {
    var rest := excluded[1..];
    if !ExcludedHit(textLower, excluded[0]) {
      AnyExcludedSome(textLower, rest);
      var i :| 0 <= i < |rest| && ExcludedHit(textLower, rest[i]);
      assert excluded[i + 1] == rest[i];
    }
  }

  lemma {:induction false} AnyExcludedNone(textLower: string, excluded: seq<string>)
    requires !AnyExcluded(textLower, excluded)
    ensures forall i :: 0 <= i < |excluded| ==> !ExcludedHit(textLower, excluded[i])
  {
    if excluded != [] {
      AnyExcludedNone(textLower, excluded[1..]);
      AllCons(excluded, e => !ExcludedHit(textLower, e));
    }
  }

  /** The loop over required terms: false as soon as one is missing. */
  function AllRequired(textLower: string, required: seq<string>): bool {
    if required == [] then true
    else RequiredHit(textLower, required[0]) && AllRequired(textLower, required[1..])
  }

  /** `AllRequired` is true iff every required term occurs. */
  lemma {:induction false} AllRequiredIff(textLower: string, required: seq<string>)
    ensures AllRequired(textLower, required) <==> forall i :: 0 <= i < |required| ==> RequiredHit(textLower, required[i])
  {
    if required != [] {
      var rest := required[1..];
      AllRequiredIff(textLower, rest);
      if AllRequired(textLower, required) {
        forall i | 1 <= i < |required| ensures RequiredHit(textLower, required[i]) {
          assert rest[i - 1] == required[i];
        }
      }
      if !AllRequired(textLower, rest) {
        var i :| 0 <= i < |rest| && !RequiredHit(textLower, rest[i]);
        assert required[i + 1] == rest[i];
      }
    }
  }

  /** The loop over plain words: true as soon as one occurs. */
  function AnyWord(textLower: string, words: seq<string>): bool {
    if words == [] then false
    else HasTerm(textLower, words[0]) || AnyWord(textLower, words[1..])
  }

  /** `AnyWord` is true iff some plain word occurs. */
  lemma {:induction false} AnyWordIff(textLower: string, words: seq<string>)
    ensures AnyWord(textLower, words) <==> exists i :: 0 <= i < |words| && HasTerm(textLower, words[i])
  {
    if words != [] {
      var rest := words[1..];
      AnyWordIff(textLower, rest);
      if AnyWord(textLower, rest) {
        var i :| 0 <= i < |rest| && HasTerm(textLower, rest[i]);
        assert words[i + 1] == rest[i];
      }
      forall i | 1 <= i < |words| && HasTerm(textLower, words[i]) ensures AnyWord(textLower, rest) {
        assert rest[i - 1] == words[i];
      }
    }
  }

  /** The loop over patterns: a pattern that does not compile is skipped. */
  function AnyPattern(text: string, patterns: seq<string>, search: RegexSearch): bool {
    if patterns == [] then false
    else search(StripSlashes(patterns[0]), text) == Some(true) || AnyPattern(text, patterns[1..], search)
  }

  /** `AnyPattern` is true iff some pattern, its slashes removed, searches true. */
  lemma {:induction false} AnyPatternIff(text: string, patterns: seq<string>, search: RegexSearch)
    ensures AnyPattern(text, patterns, search) <==>
            exists i :: 0 <= i < |patterns| && search(StripSlashes(patterns[i]), text) == Some(true)
  {
    if patterns != [] {
      var rest := patterns[1..];
      AnyPatternIff(text, rest, search);
      if AnyPattern(text, rest, search) {
        var i :| 0 <= i < |rest| && search(StripSlashes(rest[i]), text) == Some(true);
        assert patterns[i + 1] == rest[i];
      }
      forall i | 1 <= i < |patterns| && search(StripSlashes(patterns[i]), text) == Some(true)
        ensures AnyPattern(text, rest, search)
      {
        assert rest[i - 1] == patterns[i];
      }
    }
  }

  /**
   * When a text matches a group, stated without loops: no excluded term
   * occurs, every required term occurs, and, if the group has words or
   * patterns, one of them occurs; a group with neither needs a required term.
   * Terms are compared case-insensitively.
   */
  predicate GroupMatchSpec(text: string, g: WordGroup, search: RegexSearch) {
    var tl := Lower(text);
    (forall i :: 0 <= i < |g.excluded| ==> !ExcludedHit(tl, g.excluded[i]))
    && (forall i :: 0 <= i < |g.required| ==> RequiredHit(tl, g.required[i]))
    && (if g.words != [] || g.patterns != [] then
          (exists i :: 0 <= i < |g.words| && HasTerm(tl, g.words[i]))
          || (exists i :: 0 <= i < |g.patterns| && search(StripSlashes(g.patterns[i]), text) == Some(true))
        else g.required != [])
  }

  /** `_matches_word_group` (the source checks the required terms twice). */
  function MatchesWordGroup(text: string, g: WordGroup, search: RegexSearch): bool {
    var tl := Lower(text);
    if AnyExcluded(tl, g.excluded) then false
    else if !AllRequired(tl, g.required) then false
    else
      var wordMatched := AnyWord(tl, g.words);
      var patternMatched := AnyPattern(text, g.patterns, search);
      if g.required != [] && !AllRequired(tl, g.required) then false
      else if g.words != [] || g.patterns != [] then wordMatched || patternMatched
      else |g.required| > 0
  }

  /** The loops of `_matches_word_group` decide exactly `GroupMatchSpec`. */
  lemma MatchesWordGroupSpec(text: string, g: WordGroup, search: RegexSearch)
    ensures MatchesWordGroup(text, g, search) <==> GroupMatchSpec(text, g, search)
  {
    var tl := Lower(text);
    var ex, rq := AnyExcluded(tl, g.excluded), AllRequired(tl, g.required);
    var w, pt := AnyWord(tl, g.words), AnyPattern(text, g.patterns, search);
    AnyExcludedIff(tl, g.excluded);
    AllRequiredIff(tl, g.required);
    AnyWordIff(tl, g.words);
    AnyPatternIff(text, g.patterns, search);
    assert MatchesWordGroup(text, g, search)
        == (!ex && rq && (if g.words != [] || g.patterns != [] then w || pt else |g.required| > 0));
  }

  /** `_get_group_name` */
  function GroupName(g: WordGroup): string {
    if g.displayName != "" then g.displayName
    else if g.words != [] then g.words[0]
    else if g.required != [] then RequiredTerm(g.required[0])
    else "未知"
  }

  /**
   * The keyword recorded for a matching group, `display_name or
   * _get_group_name(group)`: it is always the group's name, and it is empty
   * only when the group has no display name and its first word is empty.
   */
  function GroupKeyword(g: WordGroup): (k: string)
    ensures k == GroupName(g)
    ensures k == "" ==> (g.displayName == "" && g.words != [] && g.words[0] == "")
                        || (g.displayName == "" && g.words == [] && g.required != [] && RequiredTerm(g.required[0]) == "")
  {
    if g.displayName != "" then g.displayName else GroupName(g)
  }

  // ---------------------------------------------------------- global terms

  /** The first non-empty global filter term occurring in the (lower-cased) text. */
  function FirstGlobalHit(allLower: string, globalFilters: seq<string>): (r: Option<string>)
    ensures r.Some? ==> exists i :: (0 <= i < |globalFilters| && globalFilters[i] == r.value && r.value != ""
                                     && HasTerm(allLower, r.value)
                                     && forall j :: 0 <= j < i ==> !(globalFilters[j] != "" && HasTerm(allLower, globalFilters[j])))
    ensures r.None? ==> forall i :: 0 <= i < |globalFilters| ==> !(globalFilters[i] != "" && HasTerm(allLower, globalFilters[i]))
  {
    if globalFilters == [] then None
    else if globalFilters[0] != "" && HasTerm(allLower, globalFilters[0]) then Some(globalFilters[0])
    else
      var rest := FirstGlobalHit(allLower, globalFilters[1..]);
      assert rest.Some? ==> exists i :: (1 <= i < |globalFilters| && globalFilters[i] == rest.value && rest.value != ""
                                         && HasTerm(allLower, rest.value)
                                         && forall j :: 0 <= j < i ==> !(globalFilters[j] != "" && HasTerm(allLower, globalFilters[j]))) by {
        if rest.Some? {
          var i :| 0 <= i < |globalFilters[1..]| && globalFilters[1..][i] == rest.value && rest.value != ""
                   && HasTerm(allLower, rest.value)
                   && forall j :: 0 <= j < i ==> !(globalFilters[1..][j] != "" && HasTerm(allLower, globalFilters[1..][j]));
          assert globalFilters[i + 1] == rest.value;
          forall j | 0 <= j < i + 1 ensures !(globalFilters[j] != "" && HasTerm(allLower, globalFilters[j])) {
            if j > 0 {
              assert globalFilters[j] == globalFilters[1..][j - 1];
            }
          }
        }
      }
      assert rest.None? ==> forall i :: 0 <= i < |globalFilters| ==> !(globalFilters[i] != "" && HasTerm(allLower, globalFilters[i])) by {
        if rest.None? {
          forall i | 1 <= i < |globalFilters| ensures !(globalFilters[i] != "" && HasTerm(allLower, globalFilters[i])) {
            assert globalFilters[i] == globalFilters[1..][i - 1];
          }
        }
      }
      rest
  }

  // -------------------------------------------------------- layers and items

  /** The three layers checked, in order: title, summary, full content. */
  function Layers(it: NewsItem): seq<string> {
    [it.title, it.summary, it.fullContent]
  }

  /** The text the global filter terms are checked against. */
  function AllContent(it: NewsItem): string {
    it.title + " " + it.summary + " " + it.fullContent
  }

  /** The keyword of a group if it matches the text, else nothing. */
  function GroupHit(text: string, g: WordGroup, search: RegexSearch): seq<string> {
    if MatchesWordGroup(text, g, search) then [GroupKeyword(g)] else []
  }

  /** The keywords of the groups matching one layer, in group order. */
  function LayerHits(text: string, groups: seq<WordGroup>, search: RegexSearch): seq<string> {
    Flatten(seq(|groups|, j requires 0 <= j < |groups| => GroupHit(text, groups[j], search)))
  }

  /** The keywords of the groups matching one layer; an empty layer is skipped. */
  function LayerKeywords(layer: string, groups: seq<WordGroup>, search: RegexSearch): seq<string> {
    if layer == "" then [] else LayerHits(layer, groups, search)
  }

  /** The keywords of all matches, layer by layer, skipping empty layers. */
  function HitNames(layers: seq<string>, groups: seq<WordGroup>, search: RegexSearch): seq<string> {
    Flatten(seq(|layers|, i requires 0 <= i < |layers| => LayerKeywords(layers[i], groups, search)))
  }

  predicate NonEmpty(s: string) {
    s != ""
  }

  /** The matched keywords: non-empty hit names, each once, in first-hit order. */
  function MatchedKeywords(it: NewsItem, groups: seq<WordGroup>, search: RegexSearch): seq<string> {
    Dedup(KeepIf(HitNames(Layers(it), groups, search), NonEmpty))
  }

  lemma LayerHitsMembership(text: string, groups: seq<WordGroup>, search: RegexSearch, k: string)
    ensures k in LayerHits(text, groups, search) <==>
            exists j :: 0 <= j < |groups| && MatchesWordGroup(text, groups[j], search) && GroupKeyword(groups[j]) == k
  {
    var perGroup := seq(|groups|, j requires 0 <= j < |groups| => GroupHit(text, groups[j], search));
    if k in LayerHits(text, groups, search) {
      FlattenSound(perGroup, k);
      var j :| 0 <= j < |perGroup| && k in perGroup[j];
      assert MatchesWordGroup(text, groups[j], search) && GroupKeyword(groups[j]) == k;
    }
    if exists j :: 0 <= j < |groups| && MatchesWordGroup(text, groups[j], search) && GroupKeyword(groups[j]) == k {
      var j :| 0 <= j < |groups| && MatchesWordGroup(text, groups[j], search) && GroupKeyword(groups[j]) == k;
      assert k in perGroup[j];
      FlattenComplete(perGroup, k, j);
    }
  }

  lemma HitNamesMembership(layers: seq<string>, groups: seq<WordGroup>, search: RegexSearch, k: string)
    ensures k in HitNames(layers, groups, search) <==>
            exists i, j :: 0 <= i < |layers| && layers[i] != "" && 0 <= j < |groups|
                           && MatchesWordGroup(layers[i], groups[j], search) && GroupKeyword(groups[j]) == k
  {
    var perLayer := seq(|layers|, i requires 0 <= i < |layers| => LayerKeywords(layers[i], groups, search));
    if k in HitNames(layers, groups, search) {
      FlattenSound(perLayer, k);
      var i :| 0 <= i < |perLayer| && k in perLayer[i];
      LayerHitsMembership(layers[i], groups, search, k);
    }
    if exists i, j :: 0 <= i < |layers| && layers[i] != "" && 0 <= j < |groups|
                      && MatchesWordGroup(layers[i], groups[j], search) && GroupKeyword(groups[j]) == k {
      var i, j :| 0 <= i < |layers| && layers[i] != "" && 0 <= j < |groups|
                  && MatchesWordGroup(layers[i], groups[j], search) && GroupKeyword(groups[j]) == k;
      LayerHitsMembership(layers[i], groups, search, k);
      FlattenComplete(perLayer, k, i);
    }
  }

  datatype FilterOutcome = FilterOutcome(passed: bool, keywords: seq<string>, reason: string)

  /** `filter_news_item` (its `filter_words` and `match_mode` arguments are not consulted). */
  function FilterNewsItem(it: NewsItem, groups: seq<WordGroup>, globalFilters: seq<string>,
                          search: RegexSearch): (r: FilterOutcome)
    ensures r.passed <==> r.reason == ""
  {
    match FirstGlobalHit(Lower(AllContent(it)), globalFilters)
    case Some(t) => FilterOutcome(false, [], "全局过滤词匹配: " + t)
    case None =>
      var kws := MatchedKeywords(it, groups, search);
      FilterOutcome(|kws| > 0, kws, if |kws| > 0 then "" else "无匹配关键词")
  }

  /** Some single non-empty layer of the item matches a group whose keyword is `k`. */
  predicate SingleLayerMatch(it: NewsItem, groups: seq<WordGroup>, search: RegexSearch, k: string) {
    exists i, j :: 0 <= i < 3 && Layers(it)[i] != "" && 0 <= j < |groups|
                   && MatchesWordGroup(Layers(it)[i], groups[j], search) && GroupKeyword(groups[j]) == k
  }

  /** No non-empty global filter term occurs in title, summary and full content (case-insensitively). */
  predicate NoGlobalHit(it: NewsItem, globalFilters: seq<string>) {
    forall i :: 0 <= i < |globalFilters| ==> !(globalFilters[i] != "" && HasTerm(Lower(AllContent(it)), globalFilters[i]))
  }

  /**
   * The filter decision. A global term rejects the item with the first such
   * term named in the reason and no keywords. Otherwise the keywords are,
   * once each, exactly the non-empty keywords of groups matched by one single
   * non-empty layer (a group whose terms are spread over different layers
   * does not match); the item passes iff there is one, and the reason is
   * empty iff it passes.
   */
  lemma FilterDecision(it: NewsItem, groups: seq<WordGroup>, globalFilters: seq<string>, search: RegexSearch)
    ensures var r := FilterNewsItem(it, groups, globalFilters, search);
            && (!NoGlobalHit(it, globalFilters) ==>
                  !r.passed && r.keywords == []
                  && exists i :: 0 <= i < |globalFilters| && globalFilters[i] != ""
                                 && r.reason == "全局过滤词匹配: " + globalFilters[i])
            && (NoGlobalHit(it, globalFilters) ==>
                  (forall k :: k in r.keywords <==> k != "" && SingleLayerMatch(it, groups, search, k))
                  && (r.passed <==> r.keywords != [])
                  && r.reason == (if r.passed then "" else "无匹配关键词"))
            && NoDups(r.keywords)
            && (r.passed <==> r.reason == "")
  {
    var hits := HitNames(Layers(it), groups, search);
    var kept := KeepIf(hits, NonEmpty);
    DedupProperties(kept);
    forall k ensures k in Dedup(kept) <==> k != "" && SingleLayerMatch(it, groups, search, k) {
      HitNamesMembership(Layers(it), groups, search, k);
      if k != "" && k in hits {
        KeepIfComplete(hits, NonEmpty, k);
      }
    }
  }

  /** The item with a filter outcome written into it. */
  function WithOutcome(it: NewsItem, o: FilterOutcome): NewsItem {
    it.(matchedKeywords := o.keywords, filteredOut := !o.passed, filterReason := o.reason)
  }

  predicate IsKept(it: NewsItem) {
    !it.filteredOut
  }

  predicate IsDropped(it: NewsItem) {
    it.filteredOut
  }

  /**
   * `filter_news_items`: writes each item's outcome into it, in place, and
   * splits the items, in order, into those that passed and those filtered out.
   */
  method FilterNewsItems(items: array<NewsItem>, groups: seq<WordGroup>, globalFilters: seq<string>,
                         search: RegexSearch)
    returns (passed: seq<NewsItem>, filtered: seq<NewsItem>)
    modifies items
    ensures forall i :: 0 <= i < items.Length ==>
              items[i] == WithOutcome(old(items[i]), FilterNewsItem(old(items[i]), groups, globalFilters, search))
    ensures passed == KeepIf(items[..], IsKept)
    ensures filtered == KeepIf(items[..], IsDropped)
  {
    passed, filtered := MarkAndSplit(items, it => WithOutcome(it, FilterNewsItem(it, groups, globalFilters, search)),
                                      IsKept, IsDropped);
  }

  /**
   * The loop of `filter_news_items`, for any way `mark` of writing the
   * outcome into one item and any test `kept` of the written outcome.
   */
  method MarkAndSplit<T(!new)>(items: array<T>, mark: T -> T, kept: T -> bool, dropped: T -> bool)
    returns (passed: seq<T>, filtered: seq<T>)
    requires forall x :: dropped(x) <==> !kept(x)
    modifies items
    ensures forall i :: 0 <= i < items.Length ==> items[i] == mark(old(items[i]))
    ensures passed == KeepIf(items[..], kept)
    ensures filtered == KeepIf(items[..], dropped)
  {
    ghost var orig := items[..];
    ghost var done: seq<T> := [];
    passed, filtered := [], [];
    var i := 0;
    while i < items.Length
      invariant 0 <= i <= items.Length && |done| == i
      invariant forall j :: 0 <= j < i ==> items[j] == done[j] == mark(orig[j])
      invariant forall j :: i <= j < items.Length ==> items[j] == orig[j]
      invariant passed == KeepIf(done, kept) && filtered == KeepIf(done, dropped)
    {
      var it := mark(items[i]);
      items[i] := it;
      KeepIfSnoc(done, it, kept);
      KeepIfSnoc(done, it, dropped);
      assert old(dropped(it)) <==> old(!kept(it));
      if kept(it) {
        passed := passed + [it];
      } else {
        filtered := filtered + [it];
      }
      done := done + [it];
      i := i + 1;
    }
    assert items[..] == done;
  }

  /** Every item ends up in exactly one of the two lists. */
  lemma FilterSplitIsPartition(s: seq<NewsItem>)
    ensures |KeepIf(s, IsKept)| + |KeepIf(s, IsDropped)| == |s|
    ensures multiset(KeepIf(s, IsKept)) + multiset(KeepIf(s, IsDropped)) == multiset(s)
  {
    KeepIfPartition(s, IsKept, IsDropped);
  }

  // ------------------------------------------------------ keyword file loader

  /** The loader's state between lines; the current group is always the last one. */
  datatype LoaderState = LoaderState(
    groups: seq<WordGroup>,
    filterWords: seq<string>,
    globalFilters: seq<string>,
    hasCurrent: bool,
    inGlobal: bool)

  const InitialLoader := LoaderState([], [], [], false, false)

  function EmptyGroup(name: string, displayName: string): WordGroup {
    WordGroup(name, displayName, [], [], [], [])
  }

  /** A section header line `[name]`. */
  predicate IsHeader(line: string) {
    StartsWith(line, "[") && EndsWith(line, "]")
  }

  function SectionName(line: string): string
    requires IsHeader(line)
  {
    assert line[0] == line[..1][0] && line[|line| - 1] == line[|line| - 1..][0];
    Strip(line[1..|line| - 1])
  }

  /** Files one keyword into the group by its prefix. */
  function AddTerm(g: WordGroup, line: string): WordGroup {
    if StartsWith(line, "+") then g.(required := g.required + [line])
    else if StartsWith(line, "!") then g.(excluded := g.excluded + [line])
    else if StartsWith(line, "/") && EndsWith(line, "/") then g.(patterns := g.patterns + [line])
    else g.(words := g.words + [line])
  }

  /** A section header: `[GLOBAL_FILTER]` (any letter case) or a new group. */
  function OpenSection(st: LoaderState, section: string): LoaderState {
    if Upper(section) == "GLOBAL_FILTER" then st.(inGlobal := true, hasCurrent := false)
    else st.(inGlobal := false, groups := st.groups + [EmptyGroup(section, section)], hasCurrent := true)
  }

  /** The group a keyword line goes to is the last one, created as "default" if there is none. */
  function WithCurrentGroup(st: LoaderState): (gs: seq<WordGroup>)
    ensures gs != []
  {
    if st.hasCurrent && st.groups != [] then st.groups else st.groups + [EmptyGroup("default", "")]
  }

  /** Renames the current (last) group. */
  function SetDisplayName(st: LoaderState, name: string): LoaderState
    requires st.groups != []
  {
    var n := |st.groups|;
    st.(groups := st.groups[..n - 1] + [st.groups[n - 1].(displayName := name)])
  }

  /** Files a term into the current (last) group; an excluded term also goes to `filter_words`. */
  function FileTerm(st: LoaderState, term: string): LoaderState
    requires st.groups != []
  {
    var n := |st.groups|;
    var fw := if StartsWith(term, "+") then st.filterWords
              else if StartsWith(term, "!") then st.filterWords + [LStripChar(term, '!')]
              else st.filterWords;
    st.(groups := st.groups[..n - 1] + [AddTerm(st.groups[n - 1], term)], filterWords := fw)
  }

  /** A keyword line split at its first " => " into the term and the new display name, each stripped. */
  datatype KeywordLine = KeywordLine(term: string, displayName: Option<string>)

  function SplitKeywordLine(line: string): KeywordLine {
    var k := Find(line, " => ");
    if k >= 0 then KeywordLine(Strip(line[..k]), Some(Strip(line[k + 4..]))) else KeywordLine(line, None)
  }

  /** A keyword line outside the global section, possibly `term => display name`. */
  function AddKeywordLine(st: LoaderState, line: string): LoaderState {
    var st1 := st.(groups := WithCurrentGroup(st), hasCurrent := true);
    var kl := SplitKeywordLine(line);
    match kl.displayName
    case Some(name) => FileTerm(SetDisplayName(st1, name), kl.term)
    case None => FileTerm(st1, kl.term)
  }

  /** One line of `load_frequency_words_for_crawler`. */
  function ParseLine(st: LoaderState, raw: string): (r: LoaderState)
    ensures r.globalFilters == st.globalFilters || r.globalFilters == st.globalFilters + [Strip(raw)]
    ensures |st.groups| <= |r.groups| <= |st.groups| + 1
  {
    var line := Strip(raw);
    if line == "" || StartsWith(line, "#") then st
    else if IsHeader(line) then OpenSection(st, SectionName(line))
    else if st.inGlobal then st.(globalFilters := st.globalFilters + [line])
    else AddKeywordLine(st, line)
  }

  /** The loader's state after a sequence of lines. */
  function ParseLines(lines: seq<string>): LoaderState
    decreases |lines|
  {
    if lines == [] then InitialLoader else ParseLine(ParseLines(lines[..|lines| - 1]), lines[|lines| - 1])
  }

  lemma ParseLinesNext(lines: seq<string>, i: int)
    requires 0 <= i < |lines|
    ensures ParseLines(lines[..i + 1]) == ParseLine(ParseLines(lines[..i]), lines[i])
  {
    assert lines[..i + 1][..i] == lines[..i];
  }

  /** Every excluded term of every group, '!' removed, group by group. */
  function ExcludedWords(groups: seq<WordGroup>): seq<string>
    decreases |groups|
  {
    if groups == [] then []
    else ExcludedWords(groups[..|groups| - 1]) + StrippedExcluded(groups[|groups| - 1].excluded)
  }

  /** The excluded terms of one group with their '!' removed. */
  function StrippedExcluded(ex: seq<string>): seq<string> {
    MapSeq(ex, ExcludedTerm)
  }

  /** Each kind of term in a group carries the prefix that put it there. */
  predicate WellFormedGroup(g: WordGroup) {
    (forall i :: 0 <= i < |g.required| ==> StartsWith(g.required[i], "+"))
    && (forall i :: 0 <= i < |g.excluded| ==> StartsWith(g.excluded[i], "!") && !StartsWith(g.excluded[i], "+"))
    && (forall i :: 0 <= i < |g.patterns| ==> StartsWith(g.patterns[i], "/") && EndsWith(g.patterns[i], "/"))
    && (forall i :: 0 <= i < |g.words| ==> !StartsWith(g.words[i], "+") && !StartsWith(g.words[i], "!"))
  }

  /**
   * What holds between lines: `filter_words` lists the excluded terms of all
   * groups in file order, each group's terms carry their prefixes, and the
   * only time there is no current group outside the global section is before
   * any group exists.
   */
  predicate LoaderInvariant(st: LoaderState) {
    st.filterWords == ExcludedWords(st.groups)
    && (forall i :: 0 <= i < |st.groups| ==> WellFormedGroup(st.groups[i]))
    && (!st.hasCurrent && !st.inGlobal ==> st.groups == [])
  }

  lemma StrippedExcludedSnoc(ex: seq<string>, x: string)
    ensures StrippedExcluded(ex + [x]) == StrippedExcluded(ex) + [LStripChar(x, '!')]
  {
    MapSeqSnoc(ex, x, ExcludedTerm);
  }

  lemma ExcludedWordsLast(gs: seq<WordGroup>, g: WordGroup)
    ensures ExcludedWords(gs + [g]) == ExcludedWords(gs) + StrippedExcluded(g.excluded)
  {
    assert (gs + [g])[..|gs + [g]| - 1] == gs;
  }

  lemma {:induction false} AddTermWellFormed(g: WordGroup, term: string)
    requires WellFormedGroup(g)
    ensures WellFormedGroup(AddTerm(g, term))
  {
    var g' := AddTerm(g, term);
    if StartsWith(term, "!") {
      assert term[..1] == "!";
      assert !StartsWith(term, "+");
      assert g'.excluded[|g'.excluded| - 1] == term;
    }
  }

  lemma OpenSectionKeepsInvariant(st: LoaderState, section: string)
    requires LoaderInvariant(st)
    ensures LoaderInvariant(OpenSection(st, section))
  {
    var st' := OpenSection(st, section);
    if Upper(section) == "GLOBAL_FILTER" {
      assert st'.groups == st.groups && st'.filterWords == st.filterWords;
    } else {
      var g := EmptyGroup(section, section);
      assert st'.groups == st.groups + [g];
      ExcludedWordsLast(st.groups, g);
      assert StrippedExcluded(g.excluded) == [];
      forall i | 0 <= i < |st'.groups|
        ensures WellFormedGroup(st'.groups[i])
      {
        if i < |st.groups| {
          assert st'.groups[i] == st.groups[i];
        }
      }
    }
  }

  /** The part of the loader invariant about the groups. */
  predicate GroupsInvariant(st: LoaderState) {
    st.filterWords == ExcludedWords(st.groups)
    && (forall i :: 0 <= i < |st.groups| ==> WellFormedGroup(st.groups[i]))
  }

  lemma WithCurrentGroupKeepsInvariant(st: LoaderState)
    requires GroupsInvariant(st)
    ensures GroupsInvariant(st.(groups := WithCurrentGroup(st), hasCurrent := true))
  {
    if !(st.hasCurrent && st.groups != []) {
      ExcludedWordsLast(st.groups, EmptyGroup("default", ""));
    }
  }

  lemma SetDisplayNameKeepsInvariant(st: LoaderState, name: string)
    requires st.groups != [] && GroupsInvariant(st)
    ensures GroupsInvariant(SetDisplayName(st, name))
  {
    var n := |st.groups|;
    var pre := st.groups[..n - 1];
    assert st.groups == pre + [st.groups[n - 1]];
    ExcludedWordsLast(pre, st.groups[n - 1]);
    ExcludedWordsLast(pre, st.groups[n - 1].(displayName := name));
    assert WellFormedGroup(st.groups[n - 1]);
  }

  /** The global filter words a keyword line adds: its text without the leading `!`s, for an exclusion. */
  function TermExtra(term: string): seq<string> {
    if StartsWith(term, "!") && !StartsWith(term, "+") then [LStripChar(term, '!')] else []
  }

  lemma AddTermExcluded(g: WordGroup, term: string)
    ensures StrippedExcluded(AddTerm(g, term).excluded) == StrippedExcluded(g.excluded) + TermExtra(term)
  {
    if StartsWith(term, "!") {
      assert term[..1] == "!";
      StrippedExcludedSnoc(g.excluded, term);
    } else {
      assert StrippedExcluded(g.excluded) + [] == StrippedExcluded(g.excluded);
    }
  }

  lemma FileTermShape(st: LoaderState, term: string)
    requires st.groups != []
    ensures var n := |st.groups|;
            var st' := FileTerm(st, term);
            && st'.groups == st.groups[..n - 1] + [AddTerm(st.groups[n - 1], term)]
            && st'.filterWords == st.filterWords + TermExtra(term)
  {
    if StartsWith(term, "!") {
      assert term[..1] == "!";
    } else {
      assert st.filterWords + [] == st.filterWords;
    }
  }

  lemma ExcludedWordsReplaceLast(pre: seq<WordGroup>, cur: WordGroup, g: WordGroup, fw: seq<string>, extra: seq<string>)
    requires fw == ExcludedWords(pre + [cur])
    requires StrippedExcluded(g.excluded) == StrippedExcluded(cur.excluded) + extra
    ensures fw + extra == ExcludedWords(pre + [g])
  {
    ExcludedWordsLast(pre, cur);
    ExcludedWordsLast(pre, g);
    var a, b := ExcludedWords(pre), StrippedExcluded(cur.excluded);
    assert (a + b) + extra == a + (b + extra);
  }

  lemma FileTermFilterWords(st: LoaderState, term: string)
    requires st.groups != [] && st.filterWords == ExcludedWords(st.groups)
    ensures var st' := FileTerm(st, term); st'.filterWords == ExcludedWords(st'.groups)
  {
    var n := |st.groups|;
    var pre := st.groups[..n - 1];
    var cur := st.groups[n - 1];
    FileTermShape(st, term);
    assert st.groups == pre + [cur];
    AddTermExcluded(cur, term);
    ExcludedWordsReplaceLast(pre, cur, AddTerm(cur, term), st.filterWords, TermExtra(term));
  }

  lemma FileTermWellFormed(st: LoaderState, term: string)
    requires st.groups != [] && forall i :: 0 <= i < |st.groups| ==> WellFormedGroup(st.groups[i])
    ensures var st' := FileTerm(st, term); forall i :: 0 <= i < |st'.groups| ==> WellFormedGroup(st'.groups[i])
  {
    var n := |st.groups|;
    AddTermWellFormed(st.groups[n - 1], term);
  }

  lemma FileTermKeepsInvariant(st: LoaderState, term: string)
    requires st.groups != [] && GroupsInvariant(st)
    ensures GroupsInvariant(FileTerm(st, term)) && FileTerm(st, term).hasCurrent == st.hasCurrent
  {
    FileTermFilterWords(st, term);
    FileTermWellFormed(st, term);
  }

  lemma RenamedTermKeepsInvariant(st1: LoaderState, name: string, term: string)
    requires st1.groups != [] && st1.hasCurrent && GroupsInvariant(st1)
    ensures LoaderInvariant(FileTerm(SetDisplayName(st1, name), term))
  {
    var st2 := SetDisplayName(st1, name);
    SetDisplayNameKeepsInvariant(st1, name);
    FileTermKeepsInvariant(st2, term);
  }

  lemma {:induction false} AddKeywordLineKeepsInvariant(st: LoaderState, line: string)
    requires LoaderInvariant(st)
    ensures LoaderInvariant(AddKeywordLine(st, line))
  {
    var st1 := st.(groups := WithCurrentGroup(st), hasCurrent := true);
    WithCurrentGroupKeepsInvariant(st);
    var kl := SplitKeywordLine(line);
    match kl.displayName
    case Some(name) =>
      RenamedTermKeepsInvariant(st1, name, kl.term);
    case None =>
      FileTermKeepsInvariant(st1, kl.term);
  }

  /** Each line keeps the loader invariant. */
  lemma ParseLineKeepsInvariant(st: LoaderState, raw: string)
    requires LoaderInvariant(st)
    ensures LoaderInvariant(ParseLine(st, raw))
  {
    var line := Strip(raw);
    if line == "" || StartsWith(line, "#") {
    } else if IsHeader(line) {
      OpenSectionKeepsInvariant(st, SectionName(line));
    } else if !st.inGlobal {
      AddKeywordLineKeepsInvariant(st, line);
    }
  }

  /** The loader invariant holds after every prefix of the file. */
  lemma {:induction false} ParseLinesInvariant(lines: seq<string>)
    ensures LoaderInvariant(ParseLines(lines))
    decreases |lines|
  {
    if lines != [] {
      ParseLinesInvariant(lines[..|lines| - 1]);
      ParseLineKeepsInvariant(ParseLines(lines[..|lines| - 1]), lines[|lines| - 1]);
    }
  }

  /** The keyword file: absent, its lines (`splitlines`), or present but unreadable. */
  datatype KeywordFile = FileMissing | FileLines(lines: seq<string>) | FileUnreadable

  /**
   * `load_frequency_words_for_crawler`: a missing file gives three empty
   * lists; an unreadable one raises (`raised`). Otherwise the lines are read
   * in order, and `filter_words` is every excluded term of every group with
   * its '!' removed.
   */
  method LoadFrequencyWords(file: KeywordFile)
    returns (raised: bool, groups: seq<WordGroup>, filterWords: seq<string>, globalFilters: seq<string>)
    ensures raised <==> file.FileUnreadable?
    ensures file.FileMissing? ==> groups == [] && filterWords == [] && globalFilters == []
    ensures file.FileLines? ==>
              var st := ParseLines(file.lines);
              groups == st.groups && filterWords == st.filterWords && globalFilters == st.globalFilters
    ensures filterWords == ExcludedWords(groups)
    ensures forall i :: 0 <= i < |groups| ==> WellFormedGroup(groups[i])
  {
    match file {
      case FileMissing =>
        return false, [], [], [];
      case FileUnreadable =>
        return true, [], [], [];
      case FileLines(lines) =>
        var st := InitialLoader;
        var i := 0;
        while i < |lines|
          invariant 0 <= i <= |lines|
          invariant st == ParseLines(lines[..i])
          invariant LoaderInvariant(st)
        {
          ParseLineKeepsInvariant(st, lines[i]);
          ParseLinesNext(lines, i);
          st := ParseLine(st, lines[i]);
          i := i + 1;
        }
        assert lines[..i] == lines;
        return false, st.groups, st.filterWords, st.globalFilters;
    }
  }

  /** A `[GLOBAL_FILTER]` header (any letter case) opens the global section and closes the current group. */
  lemma GlobalHeaderLine(st: LoaderState, raw: string)
    requires IsHeader(Strip(raw)) && Upper(SectionName(Strip(raw))) == "GLOBAL_FILTER"
    ensures ParseLine(st, raw) == st.(inGlobal := true, hasCurrent := false)
  {
  }

  /** Any other header starts a new, empty group named and displayed as the section. */
  lemma GroupHeaderLine(st: LoaderState, raw: string)
    requires IsHeader(Strip(raw)) && Upper(SectionName(Strip(raw))) != "GLOBAL_FILTER"
    ensures var st' := ParseLine(st, raw);
            var s := SectionName(Strip(raw));
            st'.groups == st.groups + [WordGroup(s, s, [], [], [], [])] && st'.hasCurrent && !st'.inGlobal
            && st'.filterWords == st.filterWords && st'.globalFilters == st.globalFilters
  {
  }

  /** Inside the global section every other non-comment line is a global filter term. */
  lemma GlobalSectionLine(st: LoaderState, raw: string)
    requires st.inGlobal
    requires Strip(raw) != "" && !StartsWith(Strip(raw), "#") && !IsHeader(Strip(raw))
    ensures ParseLine(st, raw) == st.(globalFilters := st.globalFilters + [Strip(raw)])
  {
  }

  /**
   * A keyword line before any section creates the default group (name
   * "default", empty display name) and files the keyword there.
   */
  lemma KeywordLineBeforeAnySection(raw: string)
    requires Strip(raw) != "" && !StartsWith(Strip(raw), "#") && !IsHeader(Strip(raw))
    requires !Contains(Strip(raw), " => ")
    ensures var st' := ParseLine(InitialLoader, raw);
            |st'.groups| == 1 && st'.groups[0] == AddTerm(EmptyGroup("default", ""), Strip(raw)) && st'.hasCurrent
  {
  }

  /** `word => name` files `word` and renames the current group to `name`. */
  lemma DisplayNameLine(st: LoaderState, raw: string)
    requires st.hasCurrent && st.groups != [] && !st.inGlobal
    requires Strip(raw) != "" && !StartsWith(Strip(raw), "#") && !IsHeader(Strip(raw))
    requires Contains(Strip(raw), " => ")
    ensures var line := Strip(raw);
            var k := Find(line, " => ");
            var st' := ParseLine(st, raw);
            |st'.groups| == |st.groups| && st'.groups[..|st.groups| - 1] == st.groups[..|st.groups| - 1]
            && st'.groups[|st.groups| - 1]
               == AddTerm(st.groups[|st.groups| - 1].(displayName := Strip(line[k + 4..])), Strip(line[..k]))
  {
    var line := Strip(raw);
    assert ParseLine(st, raw) == AddKeywordLine(st, line);
    RenamingKeywordLine(st, line);
  }

  lemma RenamingKeywordLine(st: LoaderState, line: string)
    requires st.hasCurrent && st.groups != [] && Find(line, " => ") >= 0
    ensures var k := Find(line, " => ");
            var st' := AddKeywordLine(st, line);
            var n := |st.groups|;
            |st'.groups| == n && st'.groups[..n - 1] == st.groups[..n - 1]
            && st'.groups[n - 1] == AddTerm(st.groups[n - 1].(displayName := Strip(line[k + 4..])), Strip(line[..k]))
  {
    var k := Find(line, " => ");
    var st1 := st.(groups := WithCurrentGroup(st), hasCurrent := true);
    assert AddKeywordLine(st, line) == FileTerm(SetDisplayName(st1, Strip(line[k + 4..])), Strip(line[..k]));
    assert st1 == st;
    RenameThenFile(st, Strip(line[k + 4..]), Strip(line[..k]));
  }

  lemma RenameThenFile(st: LoaderState, name: string, term: string)
    requires st.groups != []
    ensures var st' := FileTerm(SetDisplayName(st, name), term);
            var n := |st.groups|;
            |st'.groups| == n && st'.groups[..n - 1] == st.groups[..n - 1]
            && st'.groups[n - 1] == AddTerm(st.groups[n - 1].(displayName := name), term)
  {
    var n := |st.groups|;
    var st2 := SetDisplayName(st, name);
    assert st2.groups[..n - 1] == st.groups[..n - 1];
    var st3 := FileTerm(st2, term);
    assert st3.groups[..n - 1] == st2.groups[..n - 1];
  }
}
