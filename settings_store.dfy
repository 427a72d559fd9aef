/**
 * The settings document behind SkyFileConfig: a map from key to value, with the
 * get-or-set reads load() uses. A get-or-set returns the stored value when the key
 * holds a value of the default's kind; otherwise it stores the default under the key
 * and returns it, so every key read this way is present when the document is saved.
 */
module SettingsStore {
  import opened MainConfigKeys

  datatype Value =
    | BoolValue(b: bool)
    | IntValue(i: int)
    | StringValue(s: string)
    | StringListValue(strings: seq<string>)
    | IntListValue(ints: seq<int>)
    | StringMapValue(pairs: map<string, string>)
    | StringListMapValue(lists: map<string, seq<string>>)

  type Document = map<Key, Value>

  /** Whether two values are of the same kind (both booleans, both integers, ...). */
  predicate SameKind(a: Value, b: Value)
  {
    || (a.BoolValue? && b.BoolValue?)
    || (a.IntValue? && b.IntValue?)
    || (a.StringValue? && b.StringValue?)
    || (a.StringListValue? && b.StringListValue?)
    || (a.IntListValue? && b.IntListValue?)
    || (a.StringMapValue? && b.StringMapValue?)
    || (a.StringListMapValue? && b.StringListMapValue?)
  }

  /** What a get-or-set of `key` returns from `doc`. */
  function Stored(doc: Document, key: Key, default: Value): Value
  {
    if key in doc && SameKind(doc[key], default) then doc[key] else default
  }

  function StoredBool(doc: Document, key: Key, default: bool): bool
  {
    Stored(doc, key, BoolValue(default)).b
  }

  function StoredInt(doc: Document, key: Key, default: int): int
  {
    Stored(doc, key, IntValue(default)).i
  }

  function StoredString(doc: Document, key: Key, default: string): string
  {
    Stored(doc, key, StringValue(default)).s
  }

  function StoredStrings(doc: Document, key: Key, default: seq<string>): seq<string>
  {
    Stored(doc, key, StringListValue(default)).strings
  }

  function StoredInts(doc: Document, key: Key, default: seq<int>): seq<int>
  {
    Stored(doc, key, IntListValue(default)).ints
  }

  function StoredStringMap(doc: Document, key: Key, default: map<string, string>): map<string, string>
  {
    Stored(doc, key, StringMapValue(default)).pairs
  }

  function StoredStringListMap(doc: Document, key: Key, default: map<string, seq<string>>): map<string, seq<string>>
  {
    Stored(doc, key, StringListMapValue(default)).lists
  }

  /** getConfig().getBoolean(key, default): the stored boolean, or the default; nothing is written. */
  function PeekBool(doc: Document, key: Key, default: bool): bool
  {
    if key in doc && doc[key].BoolValue? then doc[key].b else default
  }

  /**
   * The round-trip law of get-or-set: the value returned is of the default's kind,
   * it is what the document holds under the key afterwards, and a second get-or-set
   * returns it again and changes nothing. A missing key yields the default.
   */
  lemma GetSetRoundTrip(doc: Document, key: Key, default: Value)
    ensures SameKind(Stored(doc, key, default), default)
    ensures key !in doc ==> Stored(doc, key, default) == default
    ensures key in doc && SameKind(doc[key], default) ==> doc[key := Stored(doc, key, default)] == doc
    ensures var after := doc[key := Stored(doc, key, default)];
            && key in after
            && Stored(after, key, default) == Stored(doc, key, default)
            && after[key := Stored(after, key, default)] == after
  {
  }
}
