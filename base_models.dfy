/**
 * The base classes of the data models: the generic `to_dict` every
 * dataclass inherits, the result header with its `mark_error`, and the news
 * item whose crawl time defaults to the clock. A dataclass instance is a
 * `Value` listing its fields in declaration order; the clock is a
 * parameter.
 */
module BaseModels {
  import opened Common

  /**
   * A field value as `to_dict` sees it: a plain value, a list, a dict, or
   * an object that has `to_dict` itself (a dataclass with the mixin).
   */
  datatype Value =
    | Plain(json: Json)
    | ListOf(elems: seq<Value>)
    | DictOf(entries: map<string, Value>)
    | Obj(fields: seq<Field>)

  datatype Field = Field(name: string, value: Value)

  /** Dataclass field names are distinct. */
  predicate DistinctNames(fs: seq<Field>) {
    forall i, j :: 0 <= i < j < |fs| ==> fs[i].name != fs[j].name
  }

  /** The dict built from the first `n` fields of object `o`. */
  function FieldsDict(o: Value, n: nat): (d: map<string, Value>)
    requires o.Obj? && n <= |o.fields|
    ensures d.Keys == set i | 0 <= i < n :: o.fields[i].name
    decreases o, 0, n
  {
    if n == 0 then map[]
    else
      var f := o.fields[n - 1];
      assert f.value < o;
      FieldsDict(o, n - 1)[f.name := Converted(f.value)]
  }

  /** `obj.to_dict()` for an object with the mixin. */
  function ToDict(o: Value): (d: map<string, Value>)
    requires o.Obj?
    ensures d.Keys == set i | 0 <= i < |o.fields| :: o.fields[i].name
    decreases o, 1, 0
  {
    FieldsDict(o, |o.fields|)
  }

  /** `item.to_dict() if hasattr(item, 'to_dict') else item`: one level only. */
  function Shallow(x: Value): (r: Value)
    ensures !x.Obj? ==> r == x
    decreases x, 2, 0
  {
    if x.Obj? then DictOf(ToDict(x)) else x
  }

  /**
   * How `to_dict` renders one field value: an object by its own `to_dict`,
   * the elements of a list and the values of a dict one level deep, any
   * other value as it is.
   */
  function Converted(v: Value): (r: Value)
    decreases v, 3, 0
  {
    match v
    case Obj(_) => DictOf(ToDict(v))
    case ListOf(xs) => ListOf(seq(|xs|, i requires 0 <= i < |xs| => Shallow(xs[i])))
    case DictOf(m) => DictOf(map k | k in m :: Shallow(m[k]))
    case Plain(_) => v
  }

  /** Each field of an object with distinct field names appears under its own name, rendered by `Converted`. */
  lemma {:induction false} FieldsDictAt(o: Value, n: nat, i: nat)
    requires o.Obj? && DistinctNames(o.fields) && i < n <= |o.fields|
    ensures FieldsDict(o, n)[o.fields[i].name] == Converted(o.fields[i].value)
  {
    if i < n - 1 {
      FieldsDictAt(o, n - 1, i);
    }
  }

  /**
   * `to_dict` yields exactly one key per field; each field's entry is its
   * rendered value; a list keeps its length, with each element an object's
   * dict or the element itself; a dict keeps its keys.
   */
  lemma ToDictSpec(o: Value, i: nat)
    requires o.Obj? && DistinctNames(o.fields) && i < |o.fields|
    ensures var d := ToDict(o);
            var v := o.fields[i].value;
            && o.fields[i].name in d && d[o.fields[i].name] == Converted(v)
            && (v.Plain? ==> d[o.fields[i].name] == v)
            && (v.ListOf? ==> d[o.fields[i].name].ListOf? && |d[o.fields[i].name].elems| == |v.elems|
                              && forall j :: 0 <= j < |v.elems| ==>
                                   d[o.fields[i].name].elems[j] == if v.elems[j].Obj? then DictOf(ToDict(v.elems[j])) else v.elems[j])
            && (v.DictOf? ==> d[o.fields[i].name].DictOf? && d[o.fields[i].name].entries.Keys == v.entries.Keys)
  {
    FieldsDictAt(o, |o.fields|, i);
  }

  /** The `success`/`error`/`timestamp` header every result carries. */
  datatype ResultStatus = ResultStatus(success: bool, error: string, timestamp: string)

  /** `mark_error(msg)`: failed with that message, the timestamp kept. */
  function ErrorMarked(s: ResultStatus, msg: string): (r: ResultStatus)
    ensures !r.success && r.error == msg && r.timestamp == s.timestamp
  {
    s.(success := false, error := msg)
  }

  /** Marking twice keeps only the last message; marking is idempotent. */
  lemma ErrorMarkedLast(s: ResultStatus, m1: string, m2: string)
    ensures ErrorMarked(ErrorMarked(s, m1), m2) == ErrorMarked(s, m2)
    ensures ErrorMarked(ErrorMarked(s, m1), m1) == ErrorMarked(s, m1)
  {
  }

  /** `BaseResult`. */
  class BaseResult {
    var success: bool
    var error: string
    var timestamp: string

    function Status(): ResultStatus
      reads this
    {
      ResultStatus(success, error, timestamp)
    }

    /** `BaseResult()` at time `now`: successful, no error. */
    constructor (now: string)
      ensures Status() == ResultStatus(true, "", now)
    {
      success, error, timestamp := true, "", now;
    }

    /** `mark_error` */
    method MarkError(msg: string)
      modifies this
      ensures Status() == ErrorMarked(old(Status()), msg)
    {
      success, error := false, msg;
    }

    /** The three fields under their names, as `to_dict` gives them. */
    function AsValue(): (v: Value)
      reads this
      ensures v.Obj? && DistinctNames(v.fields) && |v.fields| == 3
    {
      Obj([Field("success", Plain(JBool(success))),
           Field("error", Plain(JStr(error))),
           Field("timestamp", Plain(JStr(timestamp)))])
    }
  }

  /** `BaseNewsItem`: the generic news record. */
  class BaseNewsItem {
    var title: string
    var url: string
    var summary: string
    var publishedAt: string
    var crawlTime: string
    var source: string

    /**
     * The dataclass constructor followed by `__post_init__`: an empty crawl
     * time becomes `clock` (the current `%H:%M`); a given one is kept.
     */
    constructor (title: string, url: string, summary: string, publishedAt: string,
                 crawlTime: string, source: string, clock: string)
      ensures this.title == title && this.url == url && this.summary == summary
      ensures this.publishedAt == publishedAt && this.source == source
      ensures crawlTime != "" ==> this.crawlTime == crawlTime
      ensures crawlTime == "" ==> this.crawlTime == clock
    {
      this.title, this.url, this.summary := title, url, summary;
      this.publishedAt, this.crawlTime, this.source := publishedAt, crawlTime, source;
      new;
      if this.crawlTime == "" {
        this.crawlTime := clock;
      }
    }
  }
}
