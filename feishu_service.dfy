/**
 * The Feishu push service: it drains the push queue directory, formats
 * each file as a rich-text post, sends it to every configured group chat
 * and user, and counts processed, sent and failed files; plus the API
 * client's cached tenant token and the splitting of target ids.
 *
 * The network, the file system and the clock are parameters: `send` is the
 * reply to one post (None when the request raises), `load` the decoded
 * content of a queue file, `renamed` whether moving it to the processed
 * directory succeeds, and `now` the current time in whole seconds.
 */
module FeishuService {
  import opened Common
  import opened PushText
  import opened FeishuFormat

  // ---------------------------------------------------------------- sending

  /** One `send_post` call: a receiver, its id type and the message. */
  datatype Post = Post(receiveId: string, idType: string, message: Message)

  /** `result.get("code") == 0`: the reply is a dict whose code equals 0 (`False == 0` in Python). */
  predicate Accepted(reply: Option<Json>) {
    reply.Some? && reply.value.JObj? && "code" in reply.value.fields
    && (reply.value.fields["code"] == JInt(0) || reply.value.fields["code"] == JBool(false))
  }

  /** The number of receivers of one id type that accept the message, counted in send order. */
  function Successes(ids: seq<string>, idType: string, msg: Message, send: Post -> Option<Json>): (n: nat)
    ensures n <= |ids|
  {
    if ids == [] then 0
    else Successes(ids[..|ids| - 1], idType, msg, send) + (if Accepted(send(Post(ids[|ids| - 1], idType, msg))) then 1 else 0)
  }

  /** The successes are the receivers whose reply accepts the message, one each. */
  lemma {:induction false} SuccessesAreAccepting(ids: seq<string>, idType: string, msg: Message, send: Post -> Option<Json>)
    ensures Successes(ids, idType, msg, send) == |KeepIf(ids, id => Accepted(send(Post(id, idType, msg))))|
  {
    if ids != [] {
      var init := ids[..|ids| - 1];
      SuccessesAreAccepting(init, idType, msg, send);
      KeepIfSnoc(init, ids[|ids| - 1], id => Accepted(send(Post(id, idType, msg))));
      assert init + [ids[|ids| - 1]] == ids;
    }
  }

  /** Every receiver counts exactly when each reply accepts the message; none counts when none does. */
  lemma {:induction false} SuccessesExtremes(ids: seq<string>, idType: string, msg: Message, send: Post -> Option<Json>)
    ensures Successes(ids, idType, msg, send) == |ids| <==> forall id :: id in ids ==> Accepted(send(Post(id, idType, msg)))
    ensures Successes(ids, idType, msg, send) == 0 <==> forall id :: id in ids ==> !Accepted(send(Post(id, idType, msg)))
  {
    if ids != [] {
      var init := ids[..|ids| - 1];
      var last := ids[|ids| - 1];
      SuccessesExtremes(init, idType, msg, send);
      assert forall id :: id in ids <==> id in init || id == last by {
        assert ids == init + [last];
      }
    }
  }

  // ---------------------------------------------------------- one queue file

  /** What `_process_file` does with one file: it raises (and counts a failure), or sends to `count` receivers. */
  datatype FileOutcome = Raised | Handled(count: nat)

  /**
   * The outcome for one queue file: loading, a non-dict top level,
   * formatting and the final rename can raise; each send's own exceptions
   * and refusals only leave it uncounted.
   */
  function Outcome(chatIds: seq<string>, openIds: seq<string>, loaded: Decoded, render: Json -> string,
                   send: Post -> Option<Json>, renamed: bool): (o: FileOutcome)
    ensures o.Handled? ==> renamed && loaded.DecodeOk? && loaded.value.JObj?
    ensures o.Handled? ==> o.count <= |chatIds| + |openIds|
  {
    if !loaded.DecodeOk? || !loaded.value.JObj? then Raised
    else match Format(loaded.value.fields, render)
      case None => Raised
      case Some(msg) =>
        if !renamed then Raised
        else Handled(Successes(chatIds, "chat_id", msg, send) + Successes(openIds, "open_id", msg, send))
  }

  /** The three counters of the service. */
  datatype Counters = Counters(processed: nat, sent: nat, failed: nat)

  /** Every file is sent, failed, or both failed and unprocessed: sent files are processed, processed files are sent or failed. */
  predicate Consistent(c: Counters) {
    c.sent <= c.processed <= c.sent + c.failed
  }

  /** `self.stats` after one file: a raise counts a failure; a handled file counts as processed and as sent or failed. */
  function Counted(c: Counters, o: FileOutcome): (r: Counters)
    ensures r.sent + r.failed == c.sent + c.failed + 1
    ensures r.processed == c.processed + (if o.Handled? then 1 else 0)
    ensures r.sent == c.sent + (if o.Handled? && o.count > 0 then 1 else 0)
    ensures Consistent(c) ==> Consistent(r)
  {
    match o
    case Raised => c.(failed := c.failed + 1)
    case Handled(n) =>
      if n > 0 then c.(processed := c.processed + 1, sent := c.sent + 1)
      else c.(processed := c.processed + 1, failed := c.failed + 1)
  }

  /** The outcomes of the queue files, in order. */
  function QueueOutcomes(chatIds: seq<string>, openIds: seq<string>, files: seq<string>, load: string -> Decoded,
                         render: Json -> string, send: Post -> Option<Json>, renamed: string -> bool): (os: seq<FileOutcome>)
    ensures |os| == |files|
  {
    seq(|files|, i requires 0 <= i < |files| => Outcome(chatIds, openIds, load(files[i]), render, send, renamed(files[i])))
  }

  /** The counters after the outcomes in turn, starting from `c`. */
  function CountAll(c: Counters, os: seq<FileOutcome>): Counters
    decreases |os|
  {
    if os == [] then c else Counted(CountAll(c, os[..|os| - 1]), os[|os| - 1])
  }

  /** A file counts as sent when it was handled and some receiver accepted it. */
  predicate IsSent(o: FileOutcome) {
    o.Handled? && o.count > 0
  }

  /** One more outcome of a prefix is one more `Counted`. */
  lemma CountAllNext(c: Counters, os: seq<FileOutcome>, i: int)
    requires 0 <= i < |os|
    ensures CountAll(c, os[..i + 1]) == Counted(CountAll(c, os[..i]), os[i])
    ensures KeepIf(os[..i + 1], IsSent) == KeepIf(os[..i], IsSent) + (if IsSent(os[i]) then [os[i]] else [])
  {
    assert os[..i + 1][..i] == os[..i];
    KeepIfPrefixNext(os, i, IsSent);
  }

  /**
   * Over a whole queue, every file adds one to `sent` or to `failed`; `sent`
   * grows by the files sent, `processed` by at most the number of files;
   * and the counters stay consistent.
   */
  lemma {:induction false} CountAllTotals(c: Counters, os: seq<FileOutcome>)
    ensures var r := CountAll(c, os);
            && r.sent + r.failed == c.sent + c.failed + |os|
            && r.sent == c.sent + |KeepIf(os, IsSent)|
            && c.processed <= r.processed <= c.processed + |os|
            && (Consistent(c) ==> Consistent(r))
    decreases |os|
  {
    if os != [] {
      var n := |os|;
      CountAllTotals(c, os[..n - 1]);
      KeepIfSnoc(os[..n - 1], os[n - 1], IsSent);
      assert os[..n - 1] + [os[n - 1]] == os;
    }
  }

  class FeishuPushService {
    const chatIds: seq<string>
    const openIds: seq<string>
    /** `self.stats`: the processed, sent and failed counts. */
    var stats: Counters

    function Stats(): Counters
      reads this
    {
      stats
    }

    predicate Valid()
      reads this
    {
      Consistent(Stats())
    }

    constructor(chatIds: seq<string>, openIds: seq<string>)
      ensures this.chatIds == chatIds && this.openIds == openIds
      ensures Stats() == Counters(0, 0, 0) && Valid()
    {
      this.chatIds := chatIds;
      this.openIds := openIds;
      stats := Counters(0, 0, 0);
    }

    /** The two send loops of `_process_file`: group chats first, then users. */
    method SendToTargets(msg: Message, send: Post -> Option<Json>) returns (count: nat)
      ensures count == Successes(chatIds, "chat_id", msg, send) + Successes(openIds, "open_id", msg, send)
    {
      count := 0;
      var i := 0;
      while i < |chatIds|
        invariant 0 <= i <= |chatIds|
        invariant count == Successes(chatIds[..i], "chat_id", msg, send)
      {
        assert chatIds[..i + 1][..i] == chatIds[..i];
        if Accepted(send(Post(chatIds[i], "chat_id", msg))) {
          count := count + 1;
        }
        i := i + 1;
      }
      assert chatIds[..i] == chatIds;
      var j := 0;
      var users := 0;
      while j < |openIds|
        invariant 0 <= j <= |openIds|
        invariant users == Successes(openIds[..j], "open_id", msg, send)
      {
        assert openIds[..j + 1][..j] == openIds[..j];
        if Accepted(send(Post(openIds[j], "open_id", msg))) {
          users := users + 1;
        }
        j := j + 1;
      }
      assert openIds[..j] == openIds;
      count := count + users;
    }

    /** `_process_file`: returns whether some receiver accepted the post. */
    method ProcessFile(loaded: Decoded, render: Json -> string, send: Post -> Option<Json>, renamed: bool) returns (ok: bool)
      modifies this
      ensures var o := Outcome(chatIds, openIds, loaded, render, send, renamed);
              && Stats() == Counted(old(Stats()), o)
              && (ok <==> o.Handled? && o.count > 0)
    {
      ghost var o := Outcome(chatIds, openIds, loaded, render, send, renamed);
      if !loaded.DecodeOk? || !loaded.value.JObj? {
        stats := stats.(failed := stats.failed + 1);
        return false;
      }
      var formatted := Format(loaded.value.fields, render);
      if formatted.None? {
        stats := stats.(failed := stats.failed + 1);
        return false;
      }
      var count := SendToTargets(formatted.value, send);
      if !renamed {
        stats := stats.(failed := stats.failed + 1);
        return false;
      }
      assert o == Handled(count);
      stats := stats.(processed := stats.processed + 1);
      if count > 0 {
        stats := stats.(sent := stats.sent + 1);
      } else {
        stats := stats.(failed := stats.failed + 1);
      }
      ok := count > 0;
    }

    /**
     * `process_queue`: each pending file once, in sorted order; the counters
     * end as each file's outcome counted in turn, and the result is the
     * number of files sent.
     */
    method ProcessQueue(listing: seq<string>, load: string -> Decoded, render: Json -> string,
                        send: Post -> Option<Json>, renamed: string -> bool) returns (count: nat)
      requires Valid()
      modifies this
      ensures Valid()
      ensures var os := QueueOutcomes(chatIds, openIds, PendingFiles(listing), load, render, send, renamed);
              Stats() == CountAll(old(Stats()), os) && count == |KeepIf(os, IsSent)|
    {
      var files := PendingFiles(listing);
      ghost var os := QueueOutcomes(chatIds, openIds, files, load, render, send, renamed);
      count := 0;
      var i := 0;
      while i < |files|
        invariant 0 <= i <= |files|
        invariant Valid()
        invariant Stats() == CountAll(old(Stats()), os[..i]) && count == |KeepIf(os[..i], IsSent)|
      {
        CountAllNext(old(Stats()), os, i);
        var ok := ProcessFile(load(files[i]), render, send, renamed(files[i]));
        if ok {
          count := count + 1;
        }
        i := i + 1;
      }
      assert os[..i] == os;
    }
  }

  // ------------------------------------------------------------ tenant token

  /** The result of `_get_tenant_token`: a token, the service's explicit refusal, or another exception. */
  datatype TokenResult = TokenOk(token: Json) | TokenRefused(message: string) | TokenRaised

  const RefusalPrefix := "获取 tenant_token 失败: "
  const DefaultExpire := 7200
  const ExpiryMargin := 60

  /** A cached token is reused while it is truthy and more than a minute from its expiry. */
  predicate Fresh(token: Json, expiresAt: int, now: int) {
    Truthy(token) && now < expiresAt - ExpiryMargin
  }

  /** The token, its expiry and the result after one call, given the token endpoint's reply (None when the request raises). */
  datatype TokenState = TokenState(token: Json, expiresAt: int)

  function TokenStep(s: TokenState, now: int, reply: Option<Json>, render: Json -> string): (r: (TokenState, TokenResult))
    ensures Fresh(s.token, s.expiresAt, now) ==> r == (s, TokenOk(s.token))
    ensures r.1.TokenOk? ==> r.1.token == r.0.token
    ensures !r.1.TokenOk? ==> r.0.expiresAt == s.expiresAt
  {
    if Fresh(s.token, s.expiresAt, now) then (s, TokenOk(s.token))
    else if reply.None? || !reply.value.JObj? then (s, TokenRaised)
    else
      var data := reply.value.fields;
      var code := Get(data, "code", JNull);
      if code != JInt(0) && code != JBool(false) then
        (s, TokenRefused(RefusalPrefix + Rendered(Get(data, "msg", JNull), render)))
      else if "tenant_access_token" !in data then (s, TokenRaised)
      else
        var token := data["tenant_access_token"];
        match Get(data, "expire", JInt(DefaultExpire))
        case JInt(e) => (TokenState(token, now + e), TokenOk(token))
        case JBool(b) => (TokenState(token, now + (if b then 1 else 0)), TokenOk(token))
        case _ => (s.(token := token), TokenRaised)
  }

  /**
   * A token fetched at `now` with a lifetime of `e` seconds (7200 when the
   * reply names none) is reused by every later call before `now + e - 60`,
   * whatever the endpoint would reply then.
   */
  lemma TokenReused(s: TokenState, now: int, data: map<string, Json>, later: int, reply: Option<Json>, render: Json -> string)
    requires !Fresh(s.token, s.expiresAt, now)
    requires "code" in data && data["code"] == JInt(0)
    requires "tenant_access_token" in data && Truthy(data["tenant_access_token"])
    requires Get(data, "expire", JInt(DefaultExpire)).JInt?
    requires now <= later < now + Get(data, "expire", JInt(DefaultExpire)).i - ExpiryMargin
    ensures var first := TokenStep(s, now, Some(JObj(data)), render);
            && first.1 == TokenOk(data["tenant_access_token"])
            && TokenStep(first.0, later, reply, render) == (first.0, TokenOk(data["tenant_access_token"]))
  {
  }

  /** A reply with a non-zero code leaves the cache as it was and raises with the reply's message. */
  lemma TokenRefusal(s: TokenState, now: int, data: map<string, Json>, render: Json -> string)
    requires !Fresh(s.token, s.expiresAt, now)
    requires Get(data, "code", JNull) != JInt(0) && Get(data, "code", JNull) != JBool(false)
    ensures TokenStep(s, now, Some(JObj(data)), render) ==
            (s, TokenRefused(RefusalPrefix + Rendered(Get(data, "msg", JNull), render)))
  {
  }

  /** `FeishuClient`'s token cache. */
  class FeishuClient {
    var token: Json
    var expiresAt: int

    constructor()
      ensures token == JNull && expiresAt == 0
    {
      token := JNull;
      expiresAt := 0;
    }

    /** `_get_tenant_token` at time `now`, where `reply` is what the token endpoint would return. */
    method GetTenantToken(now: int, reply: Option<Json>, render: Json -> string) returns (r: TokenResult)
      modifies this
      ensures (TokenState(token, expiresAt), r) == TokenStep(old(TokenState(token, expiresAt)), now, reply, render)
    {
      if Truthy(token) && now < expiresAt - ExpiryMargin {
        return TokenOk(token);
      }
      if reply.None? || !reply.value.JObj? {
        return TokenRaised;
      }
      var data := reply.value.fields;
      var code := Get(data, "code", JNull);
      if code != JInt(0) && code != JBool(false) {
        return TokenRefused(RefusalPrefix + Rendered(Get(data, "msg", JNull), render));
      }
      if "tenant_access_token" !in data {
        return TokenRaised;
      }
      token := data["tenant_access_token"];
      match Get(data, "expire", JInt(DefaultExpire))
      case JInt(e) =>
        expiresAt := now + e;
        r := TokenOk(token);
      case JBool(b) =>
        expiresAt := now + (if b then 1 else 0);
        r := TokenOk(token);
      case _ =>
        r := TokenRaised;
    }
  }

  // ------------------------------------------------------------- target ids

  /** `[x.strip() for x in s.split(",") if x.strip()]` */
  function SplitIds(s: string): (ids: seq<string>)
    ensures |ids| <= |SplitOn(s, ",")|
    ensures forall k :: 0 <= k < |ids| ==> ids[k] != ""
  {
    NonEmptyStripped(SplitOn(s, ","))
  }

  function NonEmptyStripped(parts: seq<string>): (ids: seq<string>)
    ensures |ids| <= |parts|
    ensures forall k :: 0 <= k < |ids| ==> ids[k] != ""
  {
    if parts == [] then []
    else if Strip(parts[0]) == "" then NonEmptyStripped(parts[1..])
    else [Strip(parts[0])] + NonEmptyStripped(parts[1..])
  }

  /** An id as a command line or the environment can name it: non-empty, no comma, no surrounding whitespace. */
  predicate WellFormedId(id: string) {
    id != "" && ',' !in id && !IsSpace(id[0]) && !IsSpace(id[|id| - 1])
  }

  /** Every id taken from a comma-separated list is well formed. */
  lemma SplitIdsWellFormed(s: string)
    ensures forall id :: id in SplitIds(s) ==> WellFormedId(id)
  {
    SplitOnNoComma(s);
    NonEmptyStrippedWellFormed(SplitOn(s, ","));
  }

  lemma {:induction false} SplitOnNoComma(s: string)
    ensures forall p :: p in SplitOn(s, ",") ==> ',' !in p
    decreases |s|
  {
    var k := Find(s, ",");
    if k < 0 {
      forall j | 0 <= j < |s| ensures s[j] != ',' {
        assert !OccursAt(s, ",", j);
      }
    } else {
      SplitOnNoComma(s[k + 1..]);
      forall j | 0 <= j < k ensures s[j] != ',' {
        assert !OccursAt(s, ",", j);
      }
    }
  }

  lemma {:induction false} NonEmptyStrippedWellFormed(parts: seq<string>)
    requires forall p :: p in parts ==> ',' !in p
    ensures forall id :: id in NonEmptyStripped(parts) ==> WellFormedId(id)
  {
    if parts != [] {
      var rest := parts[1..];
      assert forall p :: p in rest ==> p in parts;
      NonEmptyStrippedWellFormed(rest);
      if Strip(parts[0]) != "" {
        assert parts[0] in parts;
        StrippedPartWellFormed(parts[0]);
        ConsMembers(Strip(parts[0]), NonEmptyStripped(rest));
      }
    }
  }

  /** A part without a comma that is not blank strips to a well-formed id. */
  lemma StrippedPartWellFormed(p: string)
    requires ',' !in p && Strip(p) != ""
    ensures WellFormedId(Strip(p))
  {
    StripWithin(p);
  }

  /** The members of a sequence with one element in front. */
  lemma ConsMembers(t: string, rest: seq<string>)
    ensures forall id :: id in [t] + rest ==> id == t || id in rest
  {
  }

  lemma StripWithin(s: string)
    ensures forall c :: c in Strip(s) ==> c in s
  {
    var l := TrimLeft(s);
    SliceMembers(s, |s| - |l|, |s|);
    SliceMembers(l, 0, |TrimRight(l)|);
  }

  /** Every element of a slice is an element of the whole. */
  lemma SliceMembers(s: string, i: int, j: int)
    requires 0 <= i <= j <= |s|
    ensures forall c :: c in s[i..j] ==> c in s
  {
    forall c | c in s[i..j] ensures c in s {
      var k :| 0 <= k < j - i && s[i..j][k] == c;
      assert s[i + k] == c;
    }
  }

  /** Splitting a comma-joined list of well-formed ids gives the list back. */
  lemma {:induction false} SplitIdsJoin(ids: seq<string>)
    requires forall id :: id in ids ==> WellFormedId(id)
    ensures SplitIds(Join(ids, ",")) == ids
  {
    forall id | id in ids ensures ',' !in id {
      assert WellFormedId(id);
    }
    SplitOnJoin(ids);
    NonEmptyStrippedKeeps(ids);
    var parts := SplitOn(Join(ids, ","), ",");
    assert SplitIds(Join(ids, ",")) == NonEmptyStripped(parts);
    if ids == [] {
      assert parts == [""];
    } else {
      assert parts == ids;
    }
  }

  lemma {:induction false} SplitOnJoin(ids: seq<string>)
    requires forall id :: id in ids ==> ',' !in id
    ensures ids != [] ==> SplitOn(Join(ids, ","), ",") == ids
    ensures ids == [] ==> SplitOn(Join(ids, ","), ",") == [""]
  {
    if |ids| == 1 {
      NoCommaNotFound(ids[0]);
    } else if |ids| > 1 {
      var s := Join(ids, ",");
      var rest := Join(ids[1..], ",");
      assert s == ids[0] + "," + rest;
      NoCommaNotFound(ids[0]);
      assert OccursAt(s, ",", |ids[0]|);
      forall j | 0 <= j < |ids[0]| ensures !OccursAt(s, ",", j) {
        assert s[j] == ids[0][j];
      }
      assert Find(s, ",") == |ids[0]|;
      assert s[..|ids[0]|] == ids[0];
      assert s[|ids[0]| + 1..] == rest;
      assert SplitOn(s, ",") == [ids[0]] + SplitOn(rest, ",");
      SplitOnJoin(ids[1..]);
      assert ids == [ids[0]] + ids[1..];
    } else {
      assert Find("", ",") == -1;
    }
  }

  lemma NoCommaNotFound(s: string)
    requires ',' !in s
    ensures Find(s, ",") == -1
  {
    forall j | 0 <= j ensures !OccursAt(s, ",", j) {
      if j + 1 <= |s| {
        assert s[j..j + 1][0] == s[j];
      }
    }
  }

  lemma {:induction false} NonEmptyStrippedKeeps(ids: seq<string>)
    requires forall id :: id in ids ==> WellFormedId(id)
    ensures NonEmptyStripped(ids) == ids
    ensures NonEmptyStripped([""]) == []
  {
    assert Strip("") == "";
    if ids != [] {
      assert ids[0] in ids;
      NonEmptyStrippedKeeps(ids[1..]);
      StripKeeps(ids[0]);
      assert ids == [ids[0]] + ids[1..];
    }
  }

  lemma StripKeeps(s: string)
    requires s != "" && !IsSpace(s[0]) && !IsSpace(s[|s| - 1])
    ensures Strip(s) == s
  {
    assert TrimLeft(s) == s;
    assert TrimRight(s) == s;
  }

  /** The receivers `main` settles on: the command-line lists, each replaced by the environment's when empty. */
  datatype Targets = Targets(chatIds: seq<string>, openIds: seq<string>)

  /** None when neither a chat nor a user is named anywhere (the service then exits with an error). */
  function ResolveTargets(cliChats: string, cliOpens: string, envChats: string, envOpens: string): (t: Option<Targets>)
    ensures t.Some? <==> SplitIds(if SplitIds(cliChats) != [] then cliChats else envChats) != []
                         || SplitIds(if SplitIds(cliOpens) != [] then cliOpens else envOpens) != []
    ensures t.Some? ==> SplitIds(cliChats) != [] ==> t.value.chatIds == SplitIds(cliChats)
    ensures t.Some? ==> SplitIds(cliChats) == [] ==> t.value.chatIds == SplitIds(envChats)
    ensures t.Some? ==> SplitIds(cliOpens) != [] ==> t.value.openIds == SplitIds(cliOpens)
    ensures t.Some? ==> SplitIds(cliOpens) == [] ==> t.value.openIds == SplitIds(envOpens)
  {
    var chats := if SplitIds(cliChats) != [] then SplitIds(cliChats) else SplitIds(envChats);
    var opens := if SplitIds(cliOpens) != [] then SplitIds(cliOpens) else SplitIds(envOpens);
    if chats == [] && opens == [] then None else Some(Targets(chats, opens))
  }
}
