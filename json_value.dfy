/** JSON values as the console and the log formatter see them, and the two
    library functions JSON.parse and JSON.stringify, which the model takes as
    given (the JSON grammar of RFC 8259 is not modelled). */
module JsonValue {
  import opened Common

  /** A JSON value. Objects keep their keys in insertion order, as JavaScript
      objects and Python dicts do. Numbers are integers in this model. */
  datatype Json =
    | Null
    | Bool(b: bool)
    | Num(n: int)
    | Str(s: string)
    | Arr(items: seq<Json>)
    | Obj(fields: seq<(string, Json)>)

  /** The given library pair: `parse` is JSON.parse, `None` when it throws;
      `stringify` is JSON.stringify. */
  datatype Codec = Codec(parse: string -> Option<Json>, stringify: Json -> string)

  /** The three-field record the console builds for its own log lines. */
  function LogLine(timestamp: string, level: string, message: string): Json {
    Obj([("timestamp", Str(timestamp)), ("level", Str(level)), ("message", Str(message))])
  }

  /** What the model assumes of the library pair: parsing a stringified
      three-field log record gives the record back. */
  ghost predicate RoundTripsLogLines(c: Codec) {
    forall t, l, m :: c.parse(c.stringify(LogLine(t, l, m))) == Some(LogLine(t, l, m))
  }

  /** Last value stored under `key` in an ordered key/value list: the value a
      dict or object built by assigning the pairs in order ends up holding. */
  function Lookup(kv: seq<(string, Json)>, key: string): Option<Json> {
    if kv == [] then None
    else if kv[|kv| - 1].0 == key then Some(kv[|kv| - 1].1)
    else Lookup(kv[..|kv| - 1], key)
  }

  predicate HasKey(kv: seq<(string, Json)>, key: string) {
    Lookup(kv, key).Some?
  }

  /** A key is present iff some pair carries it, and the value found is the
      one of the last such pair. */
  lemma {:induction false} LookupMeaning(kv: seq<(string, Json)>, key: string)
    ensures HasKey(kv, key) <==> exists i :: 0 <= i < |kv| && kv[i].0 == key
    ensures HasKey(kv, key) ==> exists i :: 0 <= i < |kv| && kv[i] == (key, Lookup(kv, key).value)
                                   && forall j :: i < j < |kv| ==> kv[j].0 != key
  {
    if kv != [] {
      var init := kv[..|kv| - 1];
      LookupMeaning(init, key);
      if kv[|kv| - 1].0 != key {
        assert forall i :: 0 <= i < |init| ==> init[i] == kv[i];
      }
    }
  }

  predicate DistinctKeys(kv: seq<(string, Json)>) {
    forall i, j :: 0 <= i < j < |kv| ==> kv[i].0 != kv[j].0
  }

  /** JavaScript property access `v.key`; `None` stands for `undefined`.
      Reading a property of `null` throws in JavaScript, so callers must not. */
  function Get(v: Json, key: string): Option<Json>
    requires !v.Null?
  {
    match v
    case Obj(fields) => Lookup(fields, key)
    case _ => None
  }

  /** JavaScript truthiness of a value that may be `undefined`. */
  predicate Truthy(v: Option<Json>) {
    match v
    case None => false
    case Some(Null) => false
    case Some(Bool(b)) => b
    case Some(Num(n)) => n != 0
    case Some(Str(s)) => s != ""
    case Some(_) => true
  }
}
