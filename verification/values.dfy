/** The keyed dictionary a project is serialised to, kept abstract: no JSON
    text, only the kinds of value the project records use, and the generic
    reading rules the record decoders share. */
module Values {
  import opened Wrappers

  datatype Value =
    | Str(s: string)
    | Int(i: int)
    | List(items: seq<Value>)
    | Object(fields: map<string, Value>)

  const EmptyObject: Value := Object(map[])

  /** Why a dictionary could not be turned back into a record. */
  datatype DecodeError =
    | NotAMapping              // `**` or `.get` applied to something that is not a dict
    | NotIterable(key: string) // the value under `key` cannot be iterated over
    | UnexpectedKeyword        // a key the record's constructor does not declare
    | MissingArgument(key: string)
    | IllTyped(key: string)    // a field holds a value of the wrong kind

  /** `fields.get(key, default)`. */
  function Get(fields: map<string, Value>, key: string, default: Value): Value {
    if key in fields then fields[key] else default
  }

  /** `s` is what a text field reads as: the stored string, or `default` when the key is absent. */
  ghost predicate ReadsStr(fields: map<string, Value>, key: string, default: string, s: string) {
    (key in fields ==> fields[key] == Str(s)) && (key !in fields ==> s == default)
  }

  /** `n` is what an integer field reads as: the stored integer, or `default` when the key is absent. */
  ghost predicate ReadsInt(fields: map<string, Value>, key: string, default: int, n: int) {
    (key in fields ==> fields[key] == Int(n)) && (key !in fields ==> n == default)
  }

  function StrField(fields: map<string, Value>, key: string, default: string): Result<string, DecodeError> {
    match Get(fields, key, Str(default))
    case Str(s) => Ok(s)
    case _ => Err(IllTyped(key))
  }

  function IntField(fields: map<string, Value>, key: string, default: int): Result<int, DecodeError> {
    match Get(fields, key, Int(default))
    case Int(n) => Ok(n)
    case _ => Err(IllTyped(key))
  }

  /** The elements a `for` loop visits when it iterates over `v`, the value
      stored under `key`. An empty string or empty dict iterates zero times; a
      non-empty one yields characters or keys, none of which is a record, so
      the first element is rejected. */
  function Elements(v: Value, key: string): (r: Result<seq<Value>, DecodeError>)
    ensures v.List? ==> r == Ok(v.items)
    ensures v == Str("") || v == EmptyObject ==> r == Ok([])
    ensures v.Int? ==> r.Err?
    ensures r.Ok? <==> v.List? || v == Str("") || v == EmptyObject
  {
    match v
    case List(items) => Ok(items)
    case Str(s) => if s == "" then Ok([]) else Err(NotAMapping)
    case Object(m) => if m == map[] then Ok([]) else Err(NotAMapping)
    case Int(_) => Err(NotIterable(key))
  }

  /** `[decode(x) for x in items]`: every element decoded in order; the first
      element that fails makes the whole list fail with its error. */
  function DecodeEach<T>(items: seq<Value>, decode: Value -> Result<T, DecodeError>): (r: Result<seq<T>, DecodeError>)
    ensures r.Ok? <==> forall i :: 0 <= i < |items| ==> decode(items[i]).Ok?
    ensures r.Ok? ==> |r.value| == |items|
    ensures r.Ok? ==> forall i :: 0 <= i < |items| ==> decode(items[i]) == Ok(r.value[i])
    ensures r.Err? ==> exists i :: 0 <= i < |items| && decode(items[i]) == Err(r.error)
                                   && forall j :: 0 <= j < i ==> decode(items[j]).Ok?
    decreases |items|
  {
    if |items| == 0 then Ok([])
    else
      var head :- decode(items[0]);
      var tail :- DecodeEach(items[1..], decode);
      assert forall i :: 1 <= i < |items| ==> items[i] == items[1..][i - 1];
      Ok([head] + tail)
  }

  /** Decoding a list whose elements each decode to the matching element of
      `ts` yields exactly `ts`. */
  lemma DecodeEachExact<T>(items: seq<Value>, decode: Value -> Result<T, DecodeError>, ts: seq<T>)
    requires |items| == |ts|
    requires forall i :: 0 <= i < |items| ==> decode(items[i]) == Ok(ts[i])
    ensures DecodeEach(items, decode) == Ok(ts)
  {
    var r := DecodeEach(items, decode);
    assert r.Ok?;
    assert forall i :: 0 <= i < |ts| ==> r.value[i] == ts[i];
    assert r.value == ts;
    assert r == Ok(ts);
  }
}
