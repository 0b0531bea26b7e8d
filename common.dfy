/**
 * Values and Python-like string and sequence helpers shared by every module:
 * an Option type, a JSON value as Python's `json` module yields it, Python
 * truthiness, `str.strip`, `str.find`/`rfind`, slicing with negative bounds,
 * `str.split`/`join`/`replace`, and an order-preserving de-duplication.
 */
module Common {

  datatype Option<T> = None | Some(value: T)

  /** A JSON value (floating-point numbers are not modelled). */
  datatype Json =
    | JNull
    | JBool(b: bool)
    | JInt(i: int)
    | JStr(s: string)
    | JList(elems: seq<Json>)
    | JObj(fields: map<string, Json>)

  /** The outcome of `json.loads`: a value, or the decode error's text. */
  datatype Decoded = DecodeOk(value: Json) | DecodeFailed(message: string)

  /**
   * The entries `for x in v` visits when each must be a dict: a list's
   * elements. An empty string or dict has none; any other value fails, at
   * the iteration itself or at the first `.get` on a key or character.
   */
  function DictEntries(v: Json): (r: Option<seq<Json>>)
    ensures v.JList? ==> r == Some(v.elems)
    ensures !Truthy(v) && (v.JStr? || v.JObj?) ==> r == Some([])
  {
    match v
    case JList(es) => Some(es)
    case JStr(s) => if s == "" then Some([]) else None
    case JObj(m) => if m == map[] then Some([]) else None
    case _ => None
  }

  /** Python truthiness of a JSON value. */
  predicate Truthy(j: Json) {
    match j
    case JNull => false
    case JBool(b) => b
    case JInt(i) => i != 0
    case JStr(s) => s != ""
    case JList(e) => e != []
    case JObj(f) => f != map[]
  }

  /** `d.get(k, default)` */
  function Get(m: map<string, Json>, k: string, default: Json): Json {
    if k in m then m[k] else default
  }

  /** Python's `a or b`. */
  function Or(a: Json, b: Json): Json {
    if Truthy(a) then a else b
  }

  /** `str(x)` of a JSON scalar; arrays and objects have no modelled rendering. */
  function PyStr(j: Json): Option<string> {
    match j
    case JNull => Some("None")
    case JBool(b) => Some(if b then "True" else "False")
    case JInt(i) => Some(IntToString(i))
    case JStr(s) => Some(s)
    case JList(_) => None
    case JObj(_) => None
  }

  /** How an f-string renders a value: `str` of a scalar, `render` for a list or dict. */
  function Rendered(j: Json, render: Json -> string): string {
    match PyStr(j)
    case Some(s) => s
    case None => render(j)
  }

  // ---------------------------------------------------------------- characters

  /** The characters for which Python's `str.isspace()` holds (also `\s` in `re`). */
  predicate IsSpace(c: char) {
    ('\U{0009}' <= c <= '\U{000D}') || ('\U{001C}' <= c <= '\U{0020}')
    || c == '\U{0085}' || c == '\U{00A0}' || c == '\U{1680}'
    || ('\U{2000}' <= c <= '\U{200A}') || c == '\U{2028}' || c == '\U{2029}'
    || c == '\U{202F}' || c == '\U{205F}' || c == '\U{3000}'
  }

  function LowerChar(c: char): char {
    if 'A' <= c <= 'Z' then (c as int + 32) as char else c
  }

  function UpperChar(c: char): char {
    if 'a' <= c <= 'z' then (c as int - 32) as char else c
  }

  /** `str.lower()` restricted to ASCII letters. */
  function Lower(s: string): (r: string)
    ensures |r| == |s|
  {
    seq(|s|, i requires 0 <= i < |s| => LowerChar(s[i]))
  }

  /** `str.upper()` restricted to ASCII letters. */
  function Upper(s: string): (r: string)
    ensures |r| == |s|
  {
    seq(|s|, i requires 0 <= i < |s| => UpperChar(s[i]))
  }

  // ------------------------------------------------------------------ trimming

  function TrimLeft(s: string): (r: string)
    ensures |r| <= |s| && r == s[|s| - |r|..]
    ensures r == [] || !IsSpace(r[0])
  {
    if s != [] && IsSpace(s[0]) then TrimLeft(s[1..]) else s
  }

  function TrimRight(s: string): (r: string)
    ensures |r| <= |s| && r == s[..|r|]
    ensures r == [] || !IsSpace(r[|r| - 1])
  {
    if s != [] && IsSpace(s[|s| - 1]) then TrimRight(s[..|s| - 1]) else s
  }

  /** `str.strip()` */
  function Strip(s: string): (r: string)
    ensures |r| <= |s|
    ensures r == [] || (!IsSpace(r[0]) && !IsSpace(r[|r| - 1]))
  {
    TrimRight(TrimLeft(s))
  }

  /** `str.lstrip(c)` for one character: removes every leading copy of `c`. */
  function LStripChar(s: string, c: char): (r: string)
    ensures |r| <= |s| && r == s[|s| - |r|..]
    ensures r == [] || r[0] != c
  {
    if s != [] && s[0] == c then LStripChar(s[1..], c) else s
  }

  // ----------------------------------------------------------------- searching

  predicate StartsWith(s: string, p: string) {
    |p| <= |s| && s[..|p|] == p
  }

  predicate EndsWith(s: string, p: string) {
    |p| <= |s| && s[|s| - |p|..] == p
  }

  predicate OccursAt(s: string, sub: string, i: int) {
    0 <= i && i + |sub| <= |s| && s[i..i + |sub|] == sub
  }

  function FindFrom(s: string, sub: string, from: nat): (r: int)
    decreases |s| - from
    ensures r == -1 || (from <= r && OccursAt(s, sub, r))
    ensures r == -1 ==> forall j :: from <= j ==> !OccursAt(s, sub, j)
    ensures r >= 0 ==> forall j :: from <= j < r ==> !OccursAt(s, sub, j)
  {
    if from + |sub| > |s| then -1
    else if s[from..from + |sub|] == sub then from
    else FindFrom(s, sub, from + 1)
  }

  /** `str.find(sub)`: the first index of `sub`, or -1. */
  function Find(s: string, sub: string): (r: int)
    ensures r == -1 || OccursAt(s, sub, r)
    ensures r == -1 ==> forall j :: !OccursAt(s, sub, j)
    ensures r >= 0 ==> forall j :: 0 <= j < r ==> !OccursAt(s, sub, j)
  {
    FindFrom(s, sub, 0)
  }

  /** `sub in s` */
  predicate Contains(s: string, sub: string) {
    Find(s, sub) >= 0
  }

  function RFindFrom(s: string, sub: string, upto: int): (r: int)
    decreases upto + 1
    ensures r == -1 || (0 <= r <= upto && OccursAt(s, sub, r))
    ensures r == -1 ==> forall j :: 0 <= j <= upto ==> !OccursAt(s, sub, j)
    ensures r >= 0 ==> forall j :: r < j <= upto ==> !OccursAt(s, sub, j)
  {
    if upto < 0 then -1
    else if OccursAt(s, sub, upto) then upto
    else RFindFrom(s, sub, upto - 1)
  }

  /** `str.rfind(sub)`: the last index of `sub`, or -1. */
  function RFind(s: string, sub: string): (r: int)
    ensures r == -1 || OccursAt(s, sub, r)
    ensures r == -1 ==> forall j :: !OccursAt(s, sub, j)
    ensures r >= 0 ==> forall j :: r < j ==> !OccursAt(s, sub, j)
  {
    RFindFrom(s, sub, |s| - |sub|)
  }

  // ------------------------------------------------------------------- slicing

  /** Python `s[a:b]` for non-negative bounds. */
  function Slice<T>(s: seq<T>, a: nat, b: nat): (r: seq<T>)
    ensures a < b && a <= |s| ==> r == s[a..if b <= |s| then b else |s|]
    ensures b <= a || |s| <= a ==> r == []
  {
    if b <= a || |s| <= a then [] else s[a..if b <= |s| then b else |s|]
  }

  /** Python `s[:n]`; a negative `n` counts from the end. */
  function Take<T>(s: seq<T>, n: int): (r: seq<T>)
    ensures |r| <= |s|
    ensures 0 <= n ==> |r| == (if n <= |s| then n else |s|)
    ensures r == s[..|r|]
  {
    if n >= 0 then (if n <= |s| then s[..n] else s)
    else if -n <= |s| then s[..|s| + n]
    else []
  }

  /** Python `s[-n:]`; note that `s[-0:]` is the whole of `s`. */
  function TakeLast<T>(s: seq<T>, n: int): (r: seq<T>)
    ensures |r| <= |s| && r == s[|s| - |r|..]
  {
    if n > 0 then (if n <= |s| then s[|s| - n..] else s)
    else if n == 0 then s
    else if -n <= |s| then s[-n..]
    else []
  }

  // ------------------------------------------------------ split, join, replace

  /** `sep.join(parts)` */
  function Join(parts: seq<string>, sep: string): string {
    if parts == [] then ""
    else if |parts| == 1 then parts[0]
    else parts[0] + sep + Join(parts[1..], sep)
  }

  /** `s.split(sep)` for a non-empty separator. */
  function SplitOn(s: string, sep: string): (r: seq<string>)
    requires sep != ""
    decreases |s|
    ensures |r| >= 1
  {
    var k := Find(s, sep);
    if k < 0 then [s] else [s[..k]] + SplitOn(s[k + |sep|..], sep)
  }

  /** Splitting then joining with the same separator gives the text back. */
  lemma {:induction false} JoinSplit(s: string, sep: string)
    requires sep != ""
    ensures Join(SplitOn(s, sep), sep) == s
    decreases |s|
  {
    var k := Find(s, sep);
    if k >= 0 {
      var rest := s[k + |sep|..];
      JoinSplit(rest, sep);
      var tail := SplitOn(rest, sep);
      assert SplitOn(s, sep) == [s[..k]] + tail;
      assert |tail| >= 1;
      assert Join([s[..k]] + tail, sep) == s[..k] + sep + Join(tail, sep) by {
        assert ([s[..k]] + tail)[1..] == tail;
      }
      assert s[k..k + |sep|] == sep;
      assert s == s[..k] + s[k..k + |sep|] + rest;
    }
  }

  /** `s.replace(pat, rep)` for a non-empty `pat`: left to right, non-overlapping. */
  function ReplaceAll(s: string, pat: string, rep: string): string
    requires pat != ""
    decreases |s|
  {
    if |s| < |pat| then s
    else if s[..|pat|] == pat then rep + ReplaceAll(s[|pat|..], pat, rep)
    else [s[0]] + ReplaceAll(s[1..], pat, rep)
  }

  /** `replace` leaves a text that does not contain `pat` unchanged. */
  lemma {:induction false} ReplaceAbsent(s: string, pat: string, rep: string)
    requires pat != "" && !Contains(s, pat)
    ensures ReplaceAll(s, pat, rep) == s
    decreases |s|
  {
    if |s| >= |pat| {
      assert !OccursAt(s, pat, 0);
      forall j ensures !OccursAt(s[1..], pat, j) {
        if OccursAt(s[1..], pat, j) {
          assert s[j + 1..j + 1 + |pat|] == s[1..][j..j + |pat|];
          assert OccursAt(s, pat, j + 1);
        }
      }
      ReplaceAbsent(s[1..], pat, rep);
    }
  }

  /** `s * n` */
  function Repeat(s: string, n: int): string
    decreases n
  {
    if n <= 0 then "" else s + Repeat(s, n - 1)
  }

  // ----------------------------------------------------------- integers as text

  function DigitChar(d: nat): char
    requires d < 10
  {
    "0123456789"[d]
  }

  /** Decimal digits of a natural number, as `str(n)`. */
  function NatToString(n: nat): (r: string)
    decreases n
    ensures |r| >= 1
  {
    if n < 10 then [DigitChar(n)] else NatToString(n / 10) + [DigitChar(n % 10)]
  }

  /** `str(i)` */
  function IntToString(i: int): string {
    if i < 0 then "-" + NatToString(-i) else NatToString(i)
  }

  /**
   * `int(s)` on text: optional surrounding whitespace, an optional sign, and
   * decimal digits, single underscores allowed between two digits.
   */
  function ParseInt(s: string): Option<int> {
    var t := Strip(s);
    if t == [] then None
    else if t[0] == '-' || t[0] == '+' then
      (if DigitRun(t[1..])
       then var v: int := DigitsValue(t[1..]); Some(if t[0] == '-' then -v else v)
       else None)
    else if DigitRun(t) then Some(DigitsValue(t))
    else None
  }

  /** A decimal digit `int()` reads: ASCII, or full-width (U+FF10 to U+FF19). */
  predicate IsDecimal(c: char) {
    '0' <= c <= '9' || '\U{FF10}' <= c <= '\U{FF19}'
  }

  function DigitOf(c: char): (d: nat)
    requires IsDecimal(c)
    ensures d < 10
  {
    if c <= '9' then c as int - '0' as int else c as int - '\U{FF10}' as int
  }

  /** Digits with single underscores between them: not empty, no leading, trailing or doubled underscore. */
  predicate DigitRun(s: string) {
    && s != []
    && IsDecimal(s[0])
    && IsDecimal(s[|s| - 1])
    && forall i :: 0 <= i < |s| - 1 ==> IsDecimal(s[i]) || (s[i] == '_' && IsDecimal(s[i + 1]))
  }

  /** The value of the digits of `s`, underscores skipped. */
  function DigitsValue(s: string): nat {
    if s == [] then 0
    else
      var last := s[|s| - 1];
      if IsDecimal(last) then DigitsValue(s[..|s| - 1]) * 10 + DigitOf(last) else DigitsValue(s[..|s| - 1])
  }

  /** Text with no surrounding whitespace is what `strip()` leaves of it. */
  lemma StripKeeps(s: string)
    requires s != [] && !IsSpace(s[0]) && !IsSpace(s[|s| - 1])
    ensures Strip(s) == s
  {
    assert TrimLeft(s) == s;
  }

  /** Unsigned digits with nothing around them are read as their value, and as nothing otherwise. */
  lemma ParseIntDigits(s: string)
    requires s != [] && !IsSpace(s[0]) && !IsSpace(s[|s| - 1]) && s[0] != '-' && s[0] != '+'
    ensures ParseInt(s) == if DigitRun(s) then Some(DigitsValue(s)) else None
  {
    StripKeeps(s);
  }

  /** A lone decimal digit is read as its value. */
  lemma SingleDigit(c: char)
    requires IsDecimal(c) && !IsSpace(c)
    ensures ParseInt([c]) == Some(DigitOf(c))
  {
    var s := [c];
    assert DigitRun(s);
    assert DigitsValue(s) == DigitOf(c) by {
      assert s[..0] == [];
      assert DigitsValue(s[..0]) == 0;
    }
    ParseIntDigits(s);
  }

  /** `int("1_0")` is 10: an underscore between digits is skipped. */
  lemma ParseIntUnderscore()
    ensures ParseInt("1_0") == Some(10)
  {
    var a := "1_0";
    ParseIntDigits(a);
    assert DigitRun(a) by {
      forall i | 0 <= i < |a| - 1 ensures IsDecimal(a[i]) || (a[i] == '_' && IsDecimal(a[i + 1])) {
        assert i == 0 || i == 1;
      }
    }
    assert a[..2] == "1_" && a[..2][..1] == "1" && a[..2][..1][..0] == [];
    assert DigitsValue("1") == 1;
    assert DigitsValue("1_") == 1;
  }

  /** `int("５")`, a full-width digit, is 5. */
  lemma ParseIntFullWidth()
    ensures ParseInt(['\U{FF15}']) == Some(5)
  {
    var five := '\U{FF15}';
    assert IsDecimal(five);
    assert !IsSpace(five);
    assert DigitOf(five) == 5;
    SingleDigit(five);
  }

  /** Unsigned text that is not a run of digits makes `int()` raise. */
  lemma ParseIntRejects(s: string)
    requires s != [] && !IsSpace(s[0]) && !IsSpace(s[|s| - 1]) && s[0] != '-' && s[0] != '+'
    requires !DigitRun(s)
    ensures ParseInt(s).None?
  {
    StripKeeps(s);
  }

  /** A doubled underscore makes `int()` raise. */
  lemma ParseIntDoubledUnderscore()
    ensures ParseInt("1__0").None?
  {
    var c := "1__0";
    assert !DigitRun(c) by { assert !IsDecimal(c[1]) && c[1] == '_' && !IsDecimal(c[2]); }
    ParseIntRejects(c);
  }

  /** A leading underscore makes `int()` raise. */
  lemma ParseIntLeadingUnderscore()
    ensures ParseInt("_1").None?
  {
    var d := "_1";
    assert !DigitRun(d) by { assert !IsDecimal(d[0]); }
    ParseIntRejects(d);
  }

  /** The outcome of Python's `int(x)` on a JSON value. */
  datatype IntConversion = IntOk(n: int) | ValueErr | TypeErr

  function PyInt(j: Json): IntConversion {
    match j
    case JInt(i) => IntOk(i)
    case JBool(b) => IntOk(if b then 1 else 0)
    case JStr(s) => (match ParseInt(s) case Some(n) => IntOk(n) case None => ValueErr)
    case _ => TypeErr
  }

  // -------------------------------------------------------------- sequences

  predicate NoDups<T(==)>(s: seq<T>) {
    forall i, j :: 0 <= i < j < |s| ==> s[i] != s[j]
  }

  /** The elements of `s` in first-occurrence order, each once (a seen-set loop). */
  function Dedup<T(==)>(s: seq<T>): (r: seq<T>)
    decreases |s|
  {
    if s == [] then []
    else
      var d := Dedup(s[..|s| - 1]);
      if s[|s| - 1] in d then d else d + [s[|s| - 1]]
  }

  /** De-duplication keeps exactly the elements of its input, once each. */
  lemma {:induction false} DedupProperties<T>(s: seq<T>)
    ensures forall x :: x in Dedup(s) <==> x in s
    ensures NoDups(Dedup(s))
    decreases |s|
  {
    if s != [] {
      var p := s[..|s| - 1];
      DedupProperties(p);
      assert s == p + [s[|s| - 1]];
    }
  }

  /** Appending one element: kept iff it was not seen before. */
  lemma DedupSnoc<T>(s: seq<T>, x: T)
    ensures Dedup(s + [x]) == if x in s then Dedup(s) else Dedup(s) + [x]
  {
    assert (s + [x])[..|s + [x]| - 1] == s;
    DedupProperties(s);
  }

  /** De-duplicating one more element of a prefix. */
  lemma DedupPrefixNext<T>(s: seq<T>, j: int)
    requires 0 <= j < |s|
    ensures Dedup(s[..j + 1]) == if s[j] in s[..j] then Dedup(s[..j]) else Dedup(s[..j]) + [s[j]]
    ensures forall x :: x in s[..j + 1] <==> x in s[..j] || x == s[j]
  {
    assert s[..j + 1] == s[..j] + [s[j]];
    DedupSnoc(s[..j], s[j]);
  }

  /** The elements satisfying `p`, in order. */
  function KeepIf<T>(s: seq<T>, p: T -> bool): (r: seq<T>)
    ensures |r| <= |s|
    ensures forall x :: x in r ==> x in s && p(x)
  {
    if s == [] then []
    else if p(s[0]) then [s[0]] + KeepIf(s[1..], p)
    else KeepIf(s[1..], p)
  }

  /** Splitting a sequence by a predicate and its negation loses and invents nothing. */
  /** A property of the head and of every element of the tail holds of every element. */
  lemma AllCons<T>(s: seq<T>, p: T -> bool)
    requires s != [] && p(s[0])
    requires forall i :: 0 <= i < |s[1..]| ==> p(s[1..][i])
    ensures forall i :: 0 <= i < |s| ==> p(s[i])
  {
    forall i | 1 <= i < |s| ensures p(s[i]) {
      assert s[i] == s[1..][i - 1];
    }
  }

  lemma {:induction false} KeepIfPartition<T>(s: seq<T>, p: T -> bool, q: T -> bool)
    requires forall x :: q(x) <==> !p(x)
    ensures |KeepIf(s, p)| + |KeepIf(s, q)| == |s|
    ensures multiset(KeepIf(s, p)) + multiset(KeepIf(s, q)) == multiset(s)
  {
    if s != [] {
      KeepIfPartition(s[1..], p, q);
      assert s == [s[0]] + s[1..];
    }
  }

  /** Keeping from a sequence extended by one element. */
  lemma {:induction false} KeepIfSnoc<T>(s: seq<T>, x: T, p: T -> bool)
    ensures KeepIf(s + [x], p) == KeepIf(s, p) + (if p(x) then [x] else [])
  {
    if s != [] {
      KeepIfSnoc(s[1..], x, p);
      assert (s + [x])[1..] == s[1..] + [x];
    } else {
      assert [x][1..] == [];
    }
  }

  /** Filtering one more element of a prefix. */
  lemma KeepIfPrefixNext<T>(s: seq<T>, i: int, p: T -> bool)
    requires 0 <= i < |s|
    ensures KeepIf(s[..i + 1], p) == KeepIf(s[..i], p) + (if p(s[i]) then [s[i]] else [])
  {
    assert s[..i + 1] == s[..i] + [s[i]];
    KeepIfSnoc(s[..i], s[i], p);
  }

  /** Every element of `s` satisfying `p` is kept. */
  lemma {:induction false} KeepIfComplete<T>(s: seq<T>, p: T -> bool, x: T)
    requires x in s && p(x)
    ensures x in KeepIf(s, p)
  {
    if s[0] != x {
      KeepIfComplete(s[1..], p, x);
    }
  }

  /** `f` applied to each element of `xs`, in order. */
  function MapSeq<A, B>(xs: seq<A>, f: A -> B): (r: seq<B>)
    ensures |r| == |xs|
  {
    seq(|xs|, i requires 0 <= i < |xs| => f(xs[i]))
  }

  lemma MapSeqSnoc<A, B>(xs: seq<A>, x: A, f: A -> B)
    ensures MapSeq(xs + [x], f) == MapSeq(xs, f) + [f(x)]
  {
    var l, r := MapSeq(xs + [x], f), MapSeq(xs, f) + [f(x)];
    forall i | 0 <= i < |l| ensures l[i] == r[i] {
      if i < |xs| {
        assert (xs + [x])[i] == xs[i];
      }
    }
  }

  /** The sequences of `xss` concatenated in order. */
  function Flatten<T>(xss: seq<seq<T>>): seq<T> {
    if xss == [] then [] else xss[0] + Flatten(xss[1..])
  }

  /** An element of a concatenation comes from one of its parts. */
  lemma {:induction false} FlattenSound<T>(xss: seq<seq<T>>, x: T)
    requires x in Flatten(xss)
    ensures exists i :: 0 <= i < |xss| && x in xss[i]
  {
    if x !in xss[0] {
      FlattenSound(xss[1..], x);
      var i :| 0 <= i < |xss[1..]| && x in xss[1..][i];
      assert xss[i + 1] == xss[1..][i];
    }
  }

  /** Every element of every part is in the concatenation. */
  lemma {:induction false} FlattenComplete<T>(xss: seq<seq<T>>, x: T, i: int)
    requires 0 <= i < |xss| && x in xss[i]
    ensures x in Flatten(xss)
  {
    if i > 0 {
      assert xss[1..][i - 1] == xss[i];
      FlattenComplete(xss[1..], x, i - 1);
    }
  }

  /**
   * A loop that turns each element into a value to append (`Some(Some(v))`),
   * skips it (`Some(None)`) or raises (`None`): the values in order, or None
   * when some element raises.
   */
  function TryCollect<T, U>(xs: seq<T>, f: T -> Option<Option<U>>): (r: Option<seq<U>>)
    ensures r.Some? ==> |r.value| <= |xs|
    decreases |xs|
  {
    if xs == [] then Some([])
    else CollectStep(TryCollect(xs[..|xs| - 1], f), f(xs[|xs| - 1]))
  }

  /** One step of `TryCollect`. */
  function CollectStep<U>(acc: Option<seq<U>>, o: Option<Option<U>>): (r: Option<seq<U>>)
    ensures r.Some? ==> acc.Some? && |r.value| <= |acc.value| + 1
  {
    match o
    case None => None
    case Some(None) => acc
    case Some(Some(v)) => if acc.None? then None else Some(acc.value + [v])
  }

  lemma TryCollectNext<T, U>(xs: seq<T>, f: T -> Option<Option<U>>, i: nat)
    requires i < |xs|
    ensures TryCollect(xs[..i + 1], f) == CollectStep(TryCollect(xs[..i], f), f(xs[i]))
  {
    assert xs[..i + 1][..i] == xs[..i];
  }

  /** Once a prefix raises, the whole loop raises. */
  lemma {:induction false} TryCollectRaised<T, U>(xs: seq<T>, f: T -> Option<Option<U>>, i: nat)
    requires i <= |xs| && TryCollect(xs[..i], f).None?
    ensures TryCollect(xs, f).None?
    decreases |xs| - i
  {
    if i < |xs| {
      TryCollectNext(xs, f, i);
      TryCollectRaised(xs, f, i + 1);
    } else {
      assert xs[..i] == xs;
    }
  }

  /** The loop raises exactly when some element does. */
  lemma {:induction false} TryCollectFails<T, U>(xs: seq<T>, f: T -> Option<Option<U>>)
    ensures TryCollect(xs, f).None? <==> exists k :: 0 <= k < |xs| && f(xs[k]).None?
    decreases |xs|
  {
    if xs != [] {
      var n := |xs|;
      var pre := xs[..n - 1];
      TryCollectFails(pre, f);
      if TryCollect(pre, f).None? {
        var k :| 0 <= k < |pre| && f(pre[k]).None?;
        assert xs[k] == pre[k];
      }
      if TryCollect(xs, f).Some? {
        forall k | 0 <= k < n
          ensures f(xs[k]).Some?
        {
          if k < n - 1 {
            assert xs[k] == pre[k];
          }
        }
      }
    }
  }

  /** Every collected value is the value of some element. */
  lemma {:induction false} TryCollectSound<T, U>(xs: seq<T>, f: T -> Option<Option<U>>, v: U)
    requires TryCollect(xs, f).Some? && v in TryCollect(xs, f).value
    ensures exists k :: 0 <= k < |xs| && f(xs[k]) == Some(Some(v))
    decreases |xs|
  {
    var n := |xs|;
    var pre := xs[..n - 1];
    var prev := TryCollect(pre, f);
    if prev.Some? && v in prev.value {
      TryCollectSound(pre, f, v);
      var k :| 0 <= k < |pre| && f(pre[k]) == Some(Some(v));
      assert xs[k] == pre[k];
    } else {
      assert f(xs[n - 1]) == Some(Some(v));
    }
  }

  /** Every element's value is collected. */
  lemma {:induction false} TryCollectComplete<T, U>(xs: seq<T>, f: T -> Option<Option<U>>, k: nat)
    requires TryCollect(xs, f).Some? && k < |xs|
    requires f(xs[k]).Some? && f(xs[k]).value.Some?
    ensures f(xs[k]).value.value in TryCollect(xs, f).value
    decreases |xs|
  {
    var n := |xs|;
    var pre := xs[..n - 1];
    var step := CollectStep(TryCollect(pre, f), f(xs[n - 1]));
    assert TryCollect(xs, f) == step;
    if k < n - 1 {
      assert xs[k] == pre[k];
      TryCollectComplete(pre, f, k);
      assert TryCollect(pre, f).value <= step.value;
    } else {
      assert step.value == TryCollect(pre, f).value + [f(xs[k]).value.value];
    }
  }

  // ----------------------------------------------------- string ordering, sort

  /** Python's `<=` on strings: code-point lexicographic order. */
  predicate LexLe(a: string, b: string)
    decreases |a|
  {
    a == [] || (b != [] && (a[0] < b[0] || (a[0] == b[0] && LexLe(a[1..], b[1..]))))
  }

  lemma {:induction false} LexLeTotal(a: string, b: string)
    ensures LexLe(a, b) || LexLe(b, a)
    decreases |a|
  {
    if a != [] && b != [] && a[0] == b[0] {
      LexLeTotal(a[1..], b[1..]);
    }
  }

  lemma {:induction false} LexLeTrans(a: string, b: string, c: string)
    requires LexLe(a, b) && LexLe(b, c)
    ensures LexLe(a, c)
    decreases |a|
  {
    if a != [] && a[0] == b[0] && b[0] == c[0] {
      LexLeTrans(a[1..], b[1..], c[1..]);
    }
  }

  predicate SortedStrings(s: seq<string>) {
    forall i, j :: 0 <= i < j < |s| ==> LexLe(s[i], s[j])
  }

  function InsertSorted(x: string, s: seq<string>): (r: seq<string>)
  {
    if s == [] || LexLe(x, s[0]) then [x] + s else [s[0]] + InsertSorted(x, s[1..])
  }

  /** `sorted(names)` */
  function SortStrings(s: seq<string>): seq<string>
  {
    if s == [] then [] else InsertSorted(s[0], SortStrings(s[1..]))
  }

  lemma {:induction false} InsertSortedPerm(x: string, s: seq<string>)
    ensures multiset(InsertSorted(x, s)) == multiset(s) + multiset{x}
  {
    if !(s == [] || LexLe(x, s[0])) {
      InsertSortedPerm(x, s[1..]);
      assert s == [s[0]] + s[1..];
    }
  }

  /** Every element of `t` is `x` or an element of `s`, and `s[0]` is below both. */
  lemma HeadBelowInserted(x: string, s: seq<string>, t: seq<string>)
    requires s != [] && SortedStrings(s) && LexLe(s[0], x)
    requires multiset(t) == multiset(s[1..]) + multiset{x}
    ensures forall j :: 0 <= j < |t| ==> LexLe(s[0], t[j])
  {
    forall j | 0 <= j < |t| ensures LexLe(s[0], t[j]) {
      assert t[j] in multiset(t);
      if t[j] != x {
        assert t[j] in multiset(s[1..]);
        var k :| 0 <= k < |s[1..]| && s[1..][k] == t[j];
        assert s[k + 1] == t[j];
      }
    }
  }

  lemma {:induction false} InsertSortedSorted(x: string, s: seq<string>)
    requires SortedStrings(s)
    ensures SortedStrings(InsertSorted(x, s))
  {
    if s == [] || LexLe(x, s[0]) {
      forall j | 1 < j < |s| + 1 ensures LexLe(x, ([x] + s)[j]) {
        LexLeTrans(x, s[0], s[j - 1]);
      }
    } else {
      LexLeTotal(x, s[0]);
      var t := InsertSorted(x, s[1..]);
      InsertSortedSorted(x, s[1..]);
      InsertSortedPerm(x, s[1..]);
      HeadBelowInserted(x, s, t);
      assert InsertSorted(x, s) == [s[0]] + t;
    }
  }

  lemma InsertSortedCorrect(x: string, s: seq<string>)
    requires SortedStrings(s)
    ensures SortedStrings(InsertSorted(x, s))
    ensures multiset(InsertSorted(x, s)) == multiset(s) + multiset{x}
  {
    InsertSortedSorted(x, s);
    InsertSortedPerm(x, s);
  }

  /** Sorting yields an ordered permutation of its input. */
  lemma {:induction false} SortStringsCorrect(s: seq<string>)
    ensures SortedStrings(SortStrings(s))
    ensures multiset(SortStrings(s)) == multiset(s)
  {
    if s != [] {
      SortStringsCorrect(s[1..]);
      InsertSortedCorrect(s[0], SortStrings(s[1..]));
      assert s == [s[0]] + s[1..];
    }
  }
}
