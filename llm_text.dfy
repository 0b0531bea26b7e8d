/**
 * What the AI analyzers do with a model's reply before handing it to
 * `json.loads`: cut the JSON out of a Markdown code fence. Both analyzers
 * spell the cut differently; all spellings are shown here to agree with
 * one definition, `FenceBody`, whose result never contains a fence.
 */
module LlmText {
  import opened Common

  const Fence := "```"
  const JsonFence := "```json"

  /** What the chat call does: a reply text, or an exception with its text. */
  datatype ChatOutcome = Replied(text: string) | ChatRaised(message: string)

  /** `s.split(sep)[0]`: the text before the first `sep`, all of `s` when there is none. */
  function UpTo(s: string, sep: string): (r: string)
    ensures |r| <= |s| && s[..|r|] == r
    ensures !Contains(s, sep) ==> r == s
  {
    var k := Find(s, sep);
    if k < 0 then s else s[..k]
  }

  /** The text after the first `sep`. */
  function After(s: string, sep: string): (r: string)
    requires Contains(s, sep)
    ensures |r| + |sep| <= |s|
  {
    s[Find(s, sep) + |sep|..]
  }

  /** The text `UpTo` keeps holds no complete `sep`. */
  lemma UpToExcludes(s: string, sep: string)
    requires sep != ""
    ensures !Contains(UpTo(s, sep), sep)
  {
    var k := Find(s, sep);
    var r := UpTo(s, sep);
    if k >= 0 {
      forall j | OccursAt(r, sep, j)
        ensures false
      {
        assert r[j..j + |sep|] == s[j..j + |sep|];
        assert OccursAt(s, sep, j) && j < k;
      }
    }
  }

  /** Cutting twice at the same separator is cutting once. */
  lemma UpToIdempotent(s: string, sep: string)
    requires sep != ""
    ensures UpTo(UpTo(s, sep), sep) == UpTo(s, sep)
  {
    UpToExcludes(s, sep);
  }

  /** The first two parts of `s.split(sep)`: before the first `sep`, and between the first and the second. */
  lemma SplitOnParts(s: string, sep: string)
    requires sep != ""
    ensures SplitOn(s, sep)[0] == UpTo(s, sep)
    ensures Contains(s, sep) ==> |SplitOn(s, sep)| >= 2 && SplitOn(s, sep)[1] == UpTo(After(s, sep), sep)
  {
    var k := Find(s, sep);
    if k >= 0 {
      var rest := s[k + |sep|..];
      assert SplitOn(s, sep) == [s[..k]] + SplitOn(rest, sep);
      var k2 := Find(rest, sep);
      if k2 >= 0 {
        assert SplitOn(rest, sep) == [rest[..k2]] + SplitOn(rest[k2 + |sep|..], sep);
      }
    }
  }

  /** Every "```json" starts a "```". */
  lemma JsonFenceIsFence(s: string)
    ensures Contains(s, JsonFence) ==> Contains(s, Fence)
  {
    var k := Find(s, JsonFence);
    if k >= 0 {
      assert s[k..k + 3] == s[k..k + 7][..3];
      assert OccursAt(s, Fence, k);
    }
  }

  /**
   * The fence cut of `NewsItemAnalyzer._parse_response`: after "```json"
   * up to the next "```" (through the next "```json" first), else between
   * the first two "```", else the whole text.
   */
  function FenceBody(s: string): string {
    if Contains(s, JsonFence) then
      SplitOnParts(s, JsonFence);
      SplitOn(SplitOn(s, JsonFence)[1], Fence)[0]
    else if Contains(s, Fence) then
      SplitOnParts(s, Fence);
      SplitOn(SplitOn(s, Fence)[1], Fence)[0]
    else s
  }

  /**
   * The cut text never holds a fence. With a "```json" it is a prefix of the
   * text after the first one, and exactly the text up to the next "```" when
   * no second "```json" follows. Without one it is the text between the first
   * two fences (the rest after a lone fence), and without any fence the whole
   * text.
   */
  lemma FenceBodySpec(s: string)
    ensures !Contains(FenceBody(s), Fence)
    ensures Contains(s, JsonFence) ==> StartsWith(After(s, JsonFence), FenceBody(s))
    ensures Contains(s, JsonFence) && !Contains(After(s, JsonFence), JsonFence) ==>
              FenceBody(s) == UpTo(After(s, JsonFence), Fence)
    ensures !Contains(s, JsonFence) && Contains(s, Fence) ==> FenceBody(s) == UpTo(After(s, Fence), Fence)
    ensures !Contains(s, Fence) ==> FenceBody(s) == s
  {
    JsonFenceIsFence(s);
    if Contains(s, JsonFence) {
      SplitOnParts(s, JsonFence);
      var seg := UpTo(After(s, JsonFence), JsonFence);
      SplitOnParts(seg, Fence);
      UpToExcludes(seg, Fence);
    } else if Contains(s, Fence) {
      SplitOnParts(s, Fence);
      var seg := UpTo(After(s, Fence), Fence);
      SplitOnParts(seg, Fence);
      UpToExcludes(After(s, Fence), Fence);
    }
  }

  /** The cut as `SimpleAnalyzer._parse_response` spells it: the bare-fence case takes `parts[1]`. */
  function SimpleFenceBody(s: string): (r: string)
    ensures r == FenceBody(s)
  {
    if Contains(s, JsonFence) then
      SplitOnParts(s, JsonFence);
      SplitOn(SplitOn(s, JsonFence)[1], Fence)[0]
    else if Contains(s, Fence) then
      var parts := SplitOn(s, Fence);
      SplitOnParts(s, Fence);
      UpToIdempotent(After(s, Fence), Fence);
      SplitOnParts(parts[1], Fence);
      if |parts| >= 2 then parts[1] else s
    else s
  }

  /** The cut as `SimpleAnalyzer.extract_keywords` spells it: the fence test first, then the "```json" test. */
  function KeywordsFenceBody(s: string): (r: string)
    ensures r == FenceBody(s)
  {
    JsonFenceIsFence(s);
    if Contains(s, Fence) then
      if !Contains(s, JsonFence) then
        SplitOnParts(s, Fence);
        UpToIdempotent(After(s, Fence), Fence);
        SplitOnParts(SplitOn(s, Fence)[1], Fence);
        SplitOn(s, Fence)[1]
      else
        SplitOnParts(s, JsonFence);
        SplitOn(SplitOn(s, JsonFence)[1], Fence)[0]
    else s
  }

  /** The text the analyzers decode: the stripped fence cut of the stripped reply; it holds no fence. */
  function JsonText(response: string): (t: string)
    ensures !Contains(t, Fence)
  {
    var cut := FenceBody(Strip(response));
    FenceBodySpec(Strip(response));
    NoFenceInSlice(cut, Strip(cut));
    Strip(cut)
  }

  /** Stripping never creates a fence: the stripped text is a slice of the original. */
  lemma NoFenceInSlice(s: string, t: string)
    requires !Contains(s, Fence) && t == Strip(s)
    ensures !Contains(t, Fence)
  {
    var a := |s| - |TrimLeft(s)|;
    assert t == s[a..a + |t|];
    forall j | OccursAt(t, Fence, j)
      ensures OccursAt(s, Fence, a + j)
    {
      assert t[j..j + 3] == s[a + j..a + j + 3];
    }
  }
}
