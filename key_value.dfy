/**
 * The device's asynchronous key-value store, sequentialised. Every call either
 * completes or rejects; `healthy == false` stands for a store whose calls all
 * reject with an I/O error.
 */
module KeyValue {
  import opened Wrappers
  import opened Types
  import opened Decimal

  /**
   * What a key holds. The store keeps strings; the records written as JSON
   * are kept here as the records themselves.
   */
  datatype Value = Text(text: string) | Media(progress: MediaProgress) | Course(course: CourseProgress)

  /** A JSON record read back as a string: never empty, never a run of digits. */
  const RecordJson: string := "{}"

  /** The string a stored value reads as. */
  function AsText(v: Value): (s: string)
    ensures v.Text? ==> s == v.text
    ensures !v.Text? ==> s != "" && !IsDigits(s)
  {
    if v.Text? then v.text else assert !IsDigit(RecordJson[0]); RecordJson
  }

  function Get(m: map<string, Value>, key: string): (r: Option<Value>)
    ensures r.Some? <==> key in m
    ensures r.Some? ==> r.value == m[key]
  {
    if key in m then Some(m[key]) else None
  }

  /** JavaScript's `startsWith`: `s` is `prefix` followed by the rest of `s`. */
  function HasPrefix(s: string, prefix: string): (b: bool)
    ensures b ==> |prefix| <= |s| && s == prefix + s[|prefix|..]
  {
    |prefix| <= |s| && s[..|prefix|] == prefix
  }

  /** Every key built on a prefix starts with it. */
  lemma HasPrefixOfConcat(prefix: string, rest: string)
    ensures HasPrefix(prefix + rest, prefix)
  {
    assert (prefix + rest)[..|prefix|] == prefix;
  }

  /** Two keys built on the same prefix are equal only for equal suffixes. */
  lemma PrefixedKeyInjective(prefix: string, a: string, b: string)
    requires prefix + a == prefix + b
    ensures a == b
  {
    assert a == (prefix + a)[|prefix|..];
    assert b == (prefix + b)[|prefix|..];
  }

  class Store {
    var entries: map<string, Value>
    var healthy: bool

    constructor (initial: map<string, Value>, healthy: bool)
      ensures entries == initial && this.healthy == healthy
    {
      entries := initial;
      this.healthy := healthy;
    }

    /** `getItem`: the value under `key`, or null for a missing key. */
    method GetItem(key: string) returns (r: Result<Option<Value>>)
      ensures r.Failure? <==> !healthy
      ensures r.Success? ==> r.value == Get(entries, key)
    {
      if !healthy {
        return Failure;
      }
      r := Success(Get(entries, key));
    }

    /** `setItem`: overwrites `key` and nothing else. */
    method SetItem(key: string, v: Value) returns (o: Outcome)
      modifies this`entries
      ensures o.Fail? <==> !healthy
      ensures entries == if healthy then old(entries)[key := v] else old(entries)
    {
      if !healthy {
        return Fail;
      }
      entries := entries[key := v];
      o := Pass;
    }

    /** `removeItem`: drops `key` if present and nothing else. */
    method RemoveItem(key: string) returns (o: Outcome)
      modifies this`entries
      ensures o.Fail? <==> !healthy
      ensures entries == if healthy then old(entries) - {key} else old(entries)
    {
      if !healthy {
        return Fail;
      }
      entries := entries - {key};
      o := Pass;
    }

    /** `getAllKeys`: every key once, in an order the store chooses. */
    method GetAllKeys() returns (r: Result<seq<string>>)
      ensures r.Failure? <==> !healthy
      ensures r.Success? ==> NoDuplicates(r.value) && forall k :: k in r.value <==> k in entries
    {
      if !healthy {
        return Failure;
      }
      var rest := entries.Keys;
      var keys: seq<string> := [];
      while rest != {}
        invariant NoDuplicates(keys)
        invariant forall k :: k in keys ==> k !in rest
        invariant forall k :: k in entries <==> k in rest || k in keys
        decreases |rest|
      {
        var k :| k in rest;
        keys := keys + [k];
        rest := rest - {k};
      }
      r := Success(keys);
    }

    /** `multiGet`: the value (or null) under each of `keys`, in the same order. */
    method MultiGet(keys: seq<string>) returns (r: Result<seq<Option<Value>>>)
      ensures r.Failure? <==> !healthy
      ensures r.Success? ==> |r.value| == |keys|
      ensures r.Success? ==> forall i :: 0 <= i < |keys| ==> r.value[i] == Get(entries, keys[i])
    {
      if !healthy {
        return Failure;
      }
      var m := entries;
      r := Success(seq(|keys|, i requires 0 <= i < |keys| => Get(m, keys[i])));
    }

    /** `multiRemove`: drops every key of `keys` and nothing else. */
    method MultiRemove(keys: seq<string>) returns (o: Outcome)
      modifies this`entries
      ensures o.Fail? <==> !healthy
      ensures entries == if healthy then old(entries) - set k | k in keys else old(entries)
    {
      if !healthy {
        return Fail;
      }
      entries := entries - set k | k in keys;
      o := Pass;
    }
  }
}
