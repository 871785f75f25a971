/** The structured log line builder of backend/scraper/logger.py:
    `JSONFormatter.format`, which decides which keys of a log record reach the
    JSON line that the server streams on /logs and serves on /download, and
    `StructuredMessage.__str__`. A record's `__dict__` is an ordered list of
    distinct attribute names with their values; the formatted entry is the
    ordered key/value list that `json.dumps` then serialises. */
module StructuredLog {
  import opened Common
  import opened JsonValue

  type Pairs = seq<(string, Json)>

  /** The standard LogRecord attributes that are never copied as extras. */
  const StandardAttrs: set<string> := {
    "args", "asctime", "created", "exc_info", "exc_text", "filename",
    "funcName", "levelname", "levelno", "lineno", "module", "msecs",
    "message", "msg", "name", "pathname", "process", "processName",
    "relativeCreated", "stack_info", "thread", "threadName", "taskName"
  }

  /** The four keys every entry starts with, in this order. */
  const BaseKeys: seq<string> := ["timestamp", "level", "message", "module"]

  /** An attribute is copied iff it is not standard and not private. */
  predicate Copied(key: string) {
    key !in StandardAttrs && !StartsWith(key, "_")
  }

  /** What every LogRecord's `__dict__` holds: distinct names, among them the
      four attributes the formatter reads. */
  predicate IsLogRecord(record: Pairs) {
    DistinctKeys(record)
    && HasKey(record, "created") && HasKey(record, "levelname")
    && HasKey(record, "msg") && HasKey(record, "module")
  }

  /** The names in an ordered key/value list. */
  function Keys(kv: Pairs): set<string> {
    set i | 0 <= i < |kv| :: kv[i].0
  }

  /** The copied attributes of a record, in record order. */
  function Extras(record: Pairs): (r: Pairs)
    ensures forall i :: 0 <= i < |r| ==> Copied(r[i].0)
    ensures Keys(r) <= Keys(record)
  {
    if record == [] then []
    else
      var init := record[..|record| - 1];
      var last := record[|record| - 1];
      assert Keys(init) <= Keys(record) by {
        forall i | 0 <= i < |init| ensures init[i].0 in Keys(record) { assert init[i] == record[i]; }
      }
      Extras(init) + (if Copied(last.0) then [last] else [])
  }

  /** The pairs whose key is not in `keys`. */
  function Without(kv: Pairs, keys: set<string>): (r: Pairs)
    ensures forall i :: 0 <= i < |r| ==> r[i].0 !in keys
    ensures Keys(r) <= Keys(kv)
  {
    if kv == [] then []
    else
      var init := kv[..|kv| - 1];
      var last := kv[|kv| - 1];
      assert Keys(init) <= Keys(kv) by {
        forall i | 0 <= i < |init| ensures init[i].0 in Keys(kv) { assert init[i] == kv[i]; }
      }
      Without(init, keys) + (if last.0 in keys then [] else [last])
  }

  /** Every copied pair is a pair of the record. */
  lemma {:induction false} ExtrasFromRecord(record: Pairs)
    ensures forall p :: p in Extras(record) ==> p in record
  {
    if record != [] {
      var init := record[..|record| - 1];
      ExtrasFromRecord(init);
      assert forall p :: p in init ==> p in record;
    }
  }

  /** Every kept pair is a pair of the input. */
  lemma {:induction false} WithoutFromInput(kv: Pairs, keys: set<string>)
    ensures forall p :: p in Without(kv, keys) ==> p in kv
  {
    if kv != [] {
      var init := kv[..|kv| - 1];
      WithoutFromInput(init, keys);
      assert forall p :: p in init ==> p in kv;
    }
  }

  /** Value under `key`, or `default` when absent. */
  function LookupOr(kv: Pairs, key: string, default: Json): Json {
    match Lookup(kv, key)
    case Some(v) => v
    case None => default
  }

  /** The entry that results from the base fields (timestamp, level, message,
      module) followed by assigning each extra in turn: an extra named like a
      base key overwrites that value in place; any other extra is added at
      the end. */
  function Layout(timestamp: Json, level: Json, message: Json, module_: Json, extras: Pairs): Pairs {
    Head(LookupOr(extras, "timestamp", timestamp), LookupOr(extras, "level", level), message, module_)
    + Without(extras, {"timestamp", "level"})
  }

  /** The four base pairs, keyed by `BaseKeys`. */
  function Head(timestamp: Json, level: Json, message: Json, module_: Json): Pairs {
    [("timestamp", timestamp), ("level", level), ("message", message), ("module", module_)]
  }

  /** The entry `JSONFormatter.format` builds for `record`, with `isoformat`
      standing for `datetime.fromtimestamp(created).isoformat()`. It begins
      with timestamp, level, message and module, in that order; every later
      pair is a copied attribute of the record, with its value, other than
      `timestamp` and `level`. */
  function Entry(record: Pairs, isoformat: Json -> string): (r: Pairs)
    requires IsLogRecord(record)
    ensures |r| >= 4 && forall i :: 0 <= i < 4 ==> r[i].0 == BaseKeys[i]
    ensures forall i :: 4 <= i < |r| ==>
      r[i] in record && Copied(r[i].0) && r[i].0 != "timestamp" && r[i].0 != "level"
  {
    var r := Layout(Str(isoformat(Lookup(record, "created").value)),
                    Lookup(record, "levelname").value,
                    Lookup(record, "msg").value,
                    Lookup(record, "module").value,
                    Extras(record));
    var kept := Without(Extras(record), {"timestamp", "level"});
    ExtrasFromRecord(record);
    WithoutFromInput(Extras(record), {"timestamp", "level"});
    forall i | 4 <= i < |r|
      ensures r[i] in record && Copied(r[i].0) && r[i].0 != "timestamp" && r[i].0 != "level"
    {
      assert r[i] == kept[i - 4] && kept[i - 4] in kept;
    }
    r
  }

  /** `log_entry[key] = value` on an ordered dict. */
  function Assign(kv: Pairs, key: string, value: Json): Pairs {
    if kv == [] then [(key, value)]
    else if kv[0].0 == key then [(key, value)] + kv[1..]
    else [kv[0]] + Assign(kv[1..], key, value)
  }

  /** `JSONFormatter.format(record)`, up to the final `json.dumps`: build the
      base dict, then copy every non-standard, non-private attribute. */
  method Format(record: Pairs, isoformat: Json -> string) returns (entry: Pairs)
    requires IsLogRecord(record)
    ensures entry == Entry(record, isoformat)
  {
    var timestamp := Str(isoformat(Lookup(record, "created").value));
    var level := Lookup(record, "levelname").value;
    var message := Lookup(record, "msg").value;
    var module_ := Lookup(record, "module").value;
    entry := Head(timestamp, level, message, module_);
    var i := 0;
    while i < |record|
      invariant 0 <= i <= |record|
      invariant entry == Layout(timestamp, level, message, module_, Extras(record[..i]))
    {
      var (key, value) := record[i];
      FormatTurn(timestamp, level, message, module_, record, i);
      if Copied(key) {
        entry := Assign(entry, key, value);
      } else {
        assert Extras(record[..i + 1]) == Extras(record[..i]);
      }
      i := i + 1;
    }
    assert record[..i] == record;
  }

  // ---- Lemmas about the pieces ----

  lemma LookupSnoc(kv: Pairs, k: string, v: Json, key: string)
    ensures Lookup(kv + [(k, v)], key) == if key == k then Some(v) else Lookup(kv, key)
  {
    assert (kv + [(k, v)])[..|kv|] == kv;
  }

  lemma {:induction false} ExtrasKeys(record: Pairs, key: string)
    ensures HasKey(Extras(record), key) <==> Copied(key) && HasKey(record, key)
    ensures Copied(key) ==> Lookup(Extras(record), key) == Lookup(record, key)
  {
    if record != [] {
      var init := record[..|record| - 1];
      ExtrasKeys(init, key);
      var last := record[|record| - 1];
      if Copied(last.0) {
        LookupSnoc(Extras(init), last.0, last.1, key);
      } else {
        assert Extras(record) == Extras(init);
      }
    }
  }

  lemma {:induction false} WithoutKeys(kv: Pairs, keys: set<string>, key: string)
    ensures key !in keys ==> Lookup(Without(kv, keys), key) == Lookup(kv, key)
    ensures key in keys ==> !HasKey(Without(kv, keys), key)
  {
    if kv != [] {
      var init := kv[..|kv| - 1];
      WithoutKeys(init, keys, key);
      var last := kv[|kv| - 1];
      if last.0 !in keys {
        LookupSnoc(Without(init, keys), last.0, last.1, key);
      } else {
        assert Without(kv, keys) == Without(init, keys);
      }
    }
  }

  lemma {:induction false} AssignAbsent(kv: Pairs, key: string, value: Json)
    requires key !in Keys(kv)
    ensures Assign(kv, key, value) == kv + [(key, value)]
  {
    if kv != [] {
      assert kv[0].0 in Keys(kv);
      assert Keys(kv[1..]) <= Keys(kv) by {
        forall i | 0 <= i < |kv[1..]| ensures kv[1..][i].0 in Keys(kv) { assert kv[1..][i] == kv[i + 1]; }
      }
      AssignAbsent(kv[1..], key, value);
    }
  }

  /** One turn of the copying loop of `Format`: assigning the next record
      attribute, when it is copied, gives the layout of one more extra. */
  lemma FormatTurn(timestamp: Json, level: Json, message: Json, module_: Json, record: Pairs, i: nat)
    requires IsLogRecord(record) && i < |record|
    ensures Extras(record[..i + 1]) == Extras(record[..i]) + (if Copied(record[i].0) then [record[i]] else [])
    ensures Copied(record[i].0) ==>
      Assign(Layout(timestamp, level, message, module_, Extras(record[..i])), record[i].0, record[i].1)
      == Layout(timestamp, level, message, module_, Extras(record[..i + 1]))
  {
    assert record[..i + 1][..i] == record[..i];
    var (key, value) := record[i];
    if Copied(key) {
      var extras := Extras(record[..i]);
      if key == "timestamp" || key == "level" {
        AssignBaseKey(timestamp, level, message, module_, extras, key, value);
      } else {
        assert key !in Keys(extras) by {
          assert key !in Keys(record[..i]) by {
            forall k | 0 <= k < i ensures record[..i][k].0 != key { assert record[..i][k] == record[k]; }
          }
        }
        AssignNewKey(timestamp, level, message, module_, extras, key, value);
      }
    }
  }

  /** Assigning an extra named `timestamp` or `level` overwrites that base pair in place. */
  lemma AssignBaseKey(timestamp: Json, level: Json, message: Json, module_: Json,
                      extras: Pairs, key: string, value: Json)
    requires key == "timestamp" || key == "level"
    ensures Assign(Layout(timestamp, level, message, module_, extras), key, value)
            == Layout(timestamp, level, message, module_, extras + [(key, value)])
  {
    var extras' := extras + [(key, value)];
    assert extras'[..|extras|] == extras;
    LookupSnoc(extras, key, value, "timestamp");
    LookupSnoc(extras, key, value, "level");
    var rest := Without(extras, {"timestamp", "level"});
    assert Without(extras', {"timestamp", "level"}) == rest;
    var t := LookupOr(extras, "timestamp", timestamp);
    var l := LookupOr(extras, "level", level);
    var tail: Pairs := [("message", message), ("module", module_)] + rest;
    var kv := Layout(timestamp, level, message, module_, extras);
    assert kv == [("timestamp", t), ("level", l)] + tail;
    var kv' := Layout(timestamp, level, message, module_, extras');
    if key == "timestamp" {
      assert kv' == [("timestamp", value), ("level", l)] + tail;
      AssignFirst(t, l, tail, value);
    } else {
      assert kv' == [("timestamp", t), ("level", value)] + tail;
      AssignSecond(t, l, tail, value);
    }
  }

  /** Assigning `timestamp` replaces the first pair in place. */
  lemma AssignFirst(t: Json, l: Json, tail: Pairs, value: Json)
    ensures Assign([("timestamp", t), ("level", l)] + tail, "timestamp", value)
            == [("timestamp", value), ("level", l)] + tail
  {
    var kv := [("timestamp", t), ("level", l)] + tail;
    assert kv[1..] == [("level", l)] + tail;
  }

  /** Assigning `level` replaces the second pair in place. */
  lemma AssignSecond(t: Json, l: Json, tail: Pairs, value: Json)
    ensures Assign([("timestamp", t), ("level", l)] + tail, "level", value)
            == [("timestamp", t), ("level", value)] + tail
  {
    var kv := [("timestamp", t), ("level", l)] + tail;
    assert kv[1..] == [("level", l)] + tail;
    assert kv[1..][1..] == tail;
    assert Assign(kv[1..], "level", value) == [("level", value)] + tail;
  }


  /** Assigning an extra whose name is not yet in the entry appends it. */
  lemma AssignNewKey(timestamp: Json, level: Json, message: Json, module_: Json,
                     extras: Pairs, key: string, value: Json)
    requires key !in BaseKeys && key !in Keys(extras)
    ensures Assign(Layout(timestamp, level, message, module_, extras), key, value)
            == Layout(timestamp, level, message, module_, extras + [(key, value)])
  {
    var extras' := extras + [(key, value)];
    assert extras'[..|extras|] == extras;
    LookupSnoc(extras, key, value, "timestamp");
    LookupSnoc(extras, key, value, "level");
    var rest := Without(extras, {"timestamp", "level"});
    assert Without(extras', {"timestamp", "level"}) == rest + [(key, value)];
    AssignAbsent(rest, key, value);
    var head := Head(LookupOr(extras, "timestamp", timestamp), LookupOr(extras, "level", level), message, module_);
    assert key !in Keys(head);
    AssignPastPrefix(head, rest, key, value);
  }

  lemma {:induction false} AssignPastPrefix(a: Pairs, b: Pairs, key: string, value: Json)
    requires key !in Keys(a)
    ensures Assign(a + b, key, value) == a + Assign(b, key, value)
  {
    if a != [] {
      assert a[0].0 in Keys(a);
      assert Keys(a[1..]) <= Keys(a) by {
        forall i | 0 <= i < |a[1..]| ensures a[1..][i].0 in Keys(a) { assert a[1..][i] == a[i + 1]; }
      }
      AssignPastPrefix(a[1..], b, key, value);
      assert (a + b)[1..] == a[1..] + b;
    } else {
      assert a + b == b;
    }
  }

  lemma {:induction false} LookupAppend(a: Pairs, b: Pairs, key: string)
    ensures Lookup(a + b, key) == if HasKey(b, key) then Lookup(b, key) else Lookup(a, key)
  {
    if b != [] {
      var b' := b[..|b| - 1];
      assert (a + b)[..|a + b| - 1] == a + b';
      LookupAppend(a, b', key);
    } else {
      assert a + b == a;
    }
  }

  lemma LookupHead(timestamp: Json, level: Json, message: Json, module_: Json, key: string)
    ensures Lookup(Head(timestamp, level, message, module_), key)
            == if key == "module" then Some(module_)
               else if key == "message" then Some(message)
               else if key == "level" then Some(level)
               else if key == "timestamp" then Some(timestamp)
               else None
  {
    var h := Head(timestamp, level, message, module_);
    var h3: Pairs := [("timestamp", timestamp), ("level", level), ("message", message)];
    var h2: Pairs := [("timestamp", timestamp), ("level", level)];
    var h1: Pairs := [("timestamp", timestamp)];
    assert h[..3] == h3 && h3[..2] == h2 && h2[..1] == h1 && h1[..0] == [];
    assert Lookup(h1, key) == if key == "timestamp" then Some(timestamp) else None;
    assert Lookup(h2, key) == if key == "level" then Some(level) else Lookup(h1, key);
    assert Lookup(h3, key) == if key == "message" then Some(message) else Lookup(h2, key);
    assert Lookup(h, key) == if key == "module" then Some(module_) else Lookup(h3, key);
  }

  /** The entry is its four base pairs followed by the extras not named
      `timestamp` or `level`; lookups split accordingly. */
  lemma EntryLookup(record: Pairs, isoformat: Json -> string, key: string)
    requires IsLogRecord(record)
    ensures Lookup(Entry(record, isoformat), key)
            == if key == "module" then Lookup(record, "module")
               else if key == "message" then Lookup(record, "msg")
               else if key == "level" then
                 (if HasKey(record, "level") then Lookup(record, "level") else Lookup(record, "levelname"))
               else if key == "timestamp" then
                 (if HasKey(record, "timestamp") then Lookup(record, "timestamp")
                  else Some(Str(isoformat(Lookup(record, "created").value))))
               else if Copied(key) then Lookup(record, key)
               else None
  {
    var extras := Extras(record);
    var t := LookupOr(extras, "timestamp", Str(isoformat(Lookup(record, "created").value)));
    var l := LookupOr(extras, "level", Lookup(record, "levelname").value);
    var head := Head(t, l, Lookup(record, "msg").value, Lookup(record, "module").value);
    var rest := Without(extras, {"timestamp", "level"});
    assert Entry(record, isoformat) == head + rest;
    LookupAppend(head, rest, key);
    LookupHead(t, l, Lookup(record, "msg").value, Lookup(record, "module").value, key);
    WithoutKeys(extras, {"timestamp", "level"}, key);
    ExtrasKeys(record, key);
    if key == "level" || key == "timestamp" {
      assert Copied(key) by {
        assert key[0] != '_';
        assert key[..1][0] == key[0];
      }
      assert !HasKey(rest, key);
    } else if key == "module" || key == "message" {
      assert !Copied(key);
      assert !HasKey(rest, key);
    } else {
      assert key !in BaseKeys;
    }
  }

  // ---- Properties of the formatted entry ----

  /** A key appears in the entry iff it is a base key or a copied attribute of
      the record. */
  lemma EntryKeys(record: Pairs, isoformat: Json -> string, key: string)
    requires IsLogRecord(record)
    ensures HasKey(Entry(record, isoformat), key)
        <==> key in BaseKeys || (Copied(key) && HasKey(record, key))
  {
    EntryLookup(record, isoformat, key);
  }

  /** No standard LogRecord attribute other than the base keys `message` and
      `module` ever appears in an entry. */
  lemma NoStandardLeak(record: Pairs, isoformat: Json -> string, key: string)
    requires IsLogRecord(record)
    requires key in StandardAttrs && key != "message" && key != "module"
    ensures !HasKey(Entry(record, isoformat), key)
  {
    EntryLookup(record, isoformat, key);
  }

  /** The message is the raw `record.msg`, not an interpolated string, and an
      extra named `message` cannot replace it. */
  lemma EntryMessageIsRawMsg(record: Pairs, isoformat: Json -> string)
    requires IsLogRecord(record)
    ensures Lookup(Entry(record, isoformat), "message") == Lookup(record, "msg")
    ensures Lookup(Entry(record, isoformat), "module") == Lookup(record, "module")
  {
    EntryLookup(record, isoformat, "message");
    EntryLookup(record, isoformat, "module");
  }

  /** Extras are written after the base fields: an extra named `level` or
      `timestamp` overwrites the base value; otherwise the base value stays. */
  lemma EntryBaseOverwrite(record: Pairs, isoformat: Json -> string)
    requires IsLogRecord(record)
    ensures Lookup(Entry(record, isoformat), "level")
            == if HasKey(record, "level") then Lookup(record, "level") else Lookup(record, "levelname")
    ensures Lookup(Entry(record, isoformat), "timestamp")
            == if HasKey(record, "timestamp") then Lookup(record, "timestamp")
               else Some(Str(isoformat(Lookup(record, "created").value)))
  {
    EntryLookup(record, isoformat, "level");
    EntryLookup(record, isoformat, "timestamp");
  }

  /** A copied attribute reaches the entry with its value unchanged. */
  lemma EntryKeepsExtras(record: Pairs, isoformat: Json -> string, key: string)
    requires IsLogRecord(record)
    requires Copied(key) && HasKey(record, key)
    ensures Lookup(Entry(record, isoformat), key) == Lookup(record, key)
  {
    EntryLookup(record, isoformat, key);
  }

  // ---- StructuredMessage ----

  /** `StructuredMessage.__str__`, with `dumps` standing for
      `json.dumps(kwargs, default=str)`. */
  function StructuredMessageStr(message: string, kwargs: Pairs, dumps: Json -> string): (r: string)
    ensures StartsWith(r, message)
    ensures r == message <==> kwargs == []
    ensures kwargs != [] ==> r[|message|..] == " | " + dumps(Obj(kwargs))
  {
    if kwargs == [] then message else message + " | " + dumps(Obj(kwargs))
  }
}
