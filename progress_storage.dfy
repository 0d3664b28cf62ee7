/**
 * Media progress store: one `MediaProgress` record per lesson or book, kept
 * under "@media_progress_" + lessonId. Writes (save, delete, clear) pass a
 * store rejection on to the caller; reads swallow it and yield "no progress".
 */
module ProgressStorage {
  import opened Wrappers
  import opened Types
  import opened KeyValue
  import AppConstants

  function ProgressKey(lessonId: string): string {
    AppConstants.MediaProgressPrefix + lessonId
  }

  /** `value ? JSON.parse(value) : null`: a record, null, or a parse error. */
  datatype Decoded = Record(progress: MediaProgress) | Null | Malformed

  function Decode(v: Value): (d: Decoded)
    ensures d.Record? <==> v.Media?
    ensures d.Record? ==> v == Media(d.progress)
    ensures d.Null? <==> v == Text("")
  {
    match v
    case Media(p) => Record(p)
    case Text(t) => if t == "" then Null else Malformed
    case Course(_) => Malformed
  }

  /** The record `getProgress(lessonId)` yields from a store that answers. */
  function ProgressAt(entries: map<string, Value>, lessonId: string): (r: Option<MediaProgress>)
    ensures r.Some? <==> ProgressKey(lessonId) in entries && Decode(entries[ProgressKey(lessonId)]).Record?
    ensures r.Some? ==> entries[ProgressKey(lessonId)] == Media(r.value)
  {
    var key := ProgressKey(lessonId);
    if key in entries && entries[key].Media? then Some(entries[key].progress) else None
  }

  /** The keys `getAllKeys().filter(startsWith(prefix))` selects. */
  function ProgressKeys(entries: map<string, Value>): set<string> {
    set k | k in entries && HasPrefix(k, AppConstants.MediaProgressPrefix)
  }

  /** The prefixed keys that hold a record. */
  function RecordKeys(entries: map<string, Value>): set<string> {
    set k | k in ProgressKeys(entries) && entries[k].Media?
  }

  /** Some prefixed key holds a value `JSON.parse` rejects. */
  predicate AnyMalformed(entries: map<string, Value>) {
    exists k :: k in ProgressKeys(entries) && Decode(entries[k]).Malformed?
  }

  /** Different lessons use different keys, so a write to one leaves the others' progress as it was. */
  lemma OtherLessonUnaffected(entries: map<string, Value>, key: string, v: Value, other: string)
    requires key != ProgressKey(other)
    ensures ProgressAt(entries[key := v], other) == ProgressAt(entries, other)
  {
  }

  /** A record is written under its own lesson's key: a save reaches no other lesson. */
  lemma SaveReachesOnlyItsLesson(entries: map<string, Value>, p: MediaProgress, other: string)
    requires other != p.lessonId
    ensures ProgressAt(entries[ProgressKey(p.lessonId) := Media(p)], other) == ProgressAt(entries, other)
  {
    if ProgressKey(p.lessonId) == ProgressKey(other) {
      PrefixedKeyInjective(AppConstants.MediaProgressPrefix, p.lessonId, other);
    }
    OtherLessonUnaffected(entries, ProgressKey(p.lessonId), Media(p), other);
  }

  /** Of two saves for one lesson, the later is what a read returns. */
  lemma LastWriteWins(entries: map<string, Value>, first: MediaProgress, second: MediaProgress)
    requires first.lessonId == second.lessonId
    ensures var key := ProgressKey(first.lessonId);
      ProgressAt(entries[key := Media(first)][key := Media(second)], first.lessonId) == Some(second)
  {
  }

  /** The prefix filter of `getAllProgress` and `clearAllProgress`. */
  function FilterPrefixed(keys: seq<string>, prefix: string): (r: seq<string>)
    ensures forall k :: k in r <==> k in keys && HasPrefix(k, prefix)
    ensures NoDuplicates(keys) ==> NoDuplicates(r)
  {
    if keys == [] then []
    else
      assert NoDuplicates(keys) ==> NoDuplicates(keys[1..]) && keys[0] !in keys[1..];
      (if HasPrefix(keys[0], prefix) then [keys[0]] else []) + FilterPrefixed(keys[1..], prefix)
  }

  /** The value (or null) under each key, in order: what `multiGet` answers. */
  function LookupAll(entries: map<string, Value>, keys: seq<string>): (r: seq<Option<Value>>)
    ensures |r| == |keys|
    ensures forall i :: 0 <= i < |keys| ==> r[i] == Get(entries, keys[i])
  {
    if keys == [] then [] else [Get(entries, keys[0])] + LookupAll(entries, keys[1..])
  }

  /** How many of the read values are records. */
  function CountRecords(values: seq<Option<Value>>): nat {
    if values == [] then 0
    else (if values[0].Some? && values[0].value.Media? then 1 else 0) + CountRecords(values[1..])
  }

  /**
   * `map(JSON.parse).filter(non-null)`: None when any value fails to parse
   * (the exception aborts the whole read), otherwise the records in order.
   */
  function DecodeAll(values: seq<Option<Value>>): (r: Option<seq<MediaProgress>>)
    ensures r.None? <==> exists i :: 0 <= i < |values| && values[i].Some? && Decode(values[i].value).Malformed?
    ensures r.Some? ==> forall p :: p in r.value <==> exists i :: 0 <= i < |values| && values[i] == Some(Media(p))
    ensures r.Some? ==> |r.value| == CountRecords(values)
  {
    if values == [] then Some([])
    else
      var rest := DecodeAll(values[1..]);
      var head := if values[0].Some? then Decode(values[0].value) else Null;
      assert forall i :: 1 <= i < |values| ==> values[i] == values[1..][i - 1];
      if head.Malformed? || rest.None? then None
      else if head.Record? then Some([head.progress] + rest.value)
      else rest
  }

  /** The keys among `keys` that hold a record. */
  function RecordsAmong(entries: map<string, Value>, keys: seq<string>): set<string> {
    set k | k in keys && k in entries && entries[k].Media?
  }

  /** The records among a non-empty key list: the head's, if any, and the tail's. */
  lemma RecordsAmongSplit(entries: map<string, Value>, keys: seq<string>)
    requires keys != []
    ensures RecordsAmong(entries, keys) ==
      RecordsAmong(entries, keys[1..]) + (if keys[0] in entries && entries[keys[0]].Media? then {keys[0]} else {})
  {
    assert forall k :: k in keys <==> k == keys[0] || k in keys[1..];
  }

  /** Over distinct keys, the number of records read equals the number of keys holding one. */
  lemma {:induction false} CountRecordsOfKeys(entries: map<string, Value>, keys: seq<string>)
    requires NoDuplicates(keys)
    ensures CountRecords(LookupAll(entries, keys)) == |RecordsAmong(entries, keys)|
  {
    if keys == [] {
      assert RecordsAmong(entries, keys) == {};
    } else {
      var tail := keys[1..];
      assert NoDuplicates(tail);
      assert keys[0] !in tail;
      CountRecordsOfKeys(entries, tail);
      assert LookupAll(entries, keys)[1..] == LookupAll(entries, tail);
      RecordsAmongSplit(entries, keys);
      assert keys[0] !in RecordsAmong(entries, tail);
    }
  }

  /** Decoding the values of the prefixed keys fails exactly when some prefixed value is malformed. */
  lemma DecodeFailsIffMalformed(entries: map<string, Value>, keys: seq<string>)
    requires forall k :: k in keys <==> k in ProgressKeys(entries)
    ensures DecodeAll(LookupAll(entries, keys)).None? <==> AnyMalformed(entries)
  {
    var values := LookupAll(entries, keys);
    if DecodeAll(values).None? {
      var i :| 0 <= i < |values| && values[i].Some? && Decode(values[i].value).Malformed?;
      assert keys[i] in ProgressKeys(entries);
    }
    if AnyMalformed(entries) {
      var k :| k in ProgressKeys(entries) && Decode(entries[k]).Malformed?;
      var i :| 0 <= i < |keys| && keys[i] == k;
      assert values[i] == Some(entries[k]);
    }
  }

  /** When decoding succeeds, it yields exactly the stored records. */
  lemma DecodedAreStoredRecords(entries: map<string, Value>, keys: seq<string>)
    requires forall k :: k in keys <==> k in ProgressKeys(entries)
    ensures DecodeAll(LookupAll(entries, keys)).Some? ==>
      forall p :: p in DecodeAll(LookupAll(entries, keys)).value <==> exists id :: ProgressAt(entries, id) == Some(p)
  {
    var decoded := DecodeAll(LookupAll(entries, keys));
    if decoded.Some? {
      forall p
        ensures p in decoded.value <==> exists id :: ProgressAt(entries, id) == Some(p)
      {
        if p in decoded.value {
          DecodedIsStored(entries, keys, p);
        }
        if exists id :: ProgressAt(entries, id) == Some(p) {
          var id :| ProgressAt(entries, id) == Some(p);
          StoredIsDecoded(entries, keys, id);
        }
      }
    }
  }

  /** A decoded record was read from some lesson's key. */
  lemma DecodedIsStored(entries: map<string, Value>, keys: seq<string>, p: MediaProgress)
    requires forall k :: k in keys <==> k in ProgressKeys(entries)
    requires DecodeAll(LookupAll(entries, keys)).Some? && p in DecodeAll(LookupAll(entries, keys)).value
    ensures exists id :: ProgressAt(entries, id) == Some(p)
  {
    var values := LookupAll(entries, keys);
    var i :| 0 <= i < |values| && values[i] == Some(Media(p));
    assert keys[i] in ProgressKeys(entries);
    var id := keys[i][|AppConstants.MediaProgressPrefix|..];
    assert ProgressKey(id) == keys[i];
    assert ProgressAt(entries, id) == Some(p);
  }

  /** Every lesson's stored record is among the decoded ones. */
  lemma StoredIsDecoded(entries: map<string, Value>, keys: seq<string>, id: string)
    requires forall k :: k in keys <==> k in ProgressKeys(entries)
    requires DecodeAll(LookupAll(entries, keys)).Some? && ProgressAt(entries, id).Some?
    ensures ProgressAt(entries, id).value in DecodeAll(LookupAll(entries, keys)).value
  {
    var values := LookupAll(entries, keys);
    assert ProgressKey(id) in ProgressKeys(entries);
    var i :| 0 <= i < |keys| && keys[i] == ProgressKey(id);
    assert values[i] == Some(Media(ProgressAt(entries, id).value));
  }

  /** Over the prefixed keys taken once each, decoding yields one record per key holding one. */
  lemma DecodedCountsRecordKeys(entries: map<string, Value>, keys: seq<string>)
    requires NoDuplicates(keys)
    requires forall k :: k in keys <==> k in ProgressKeys(entries)
    ensures DecodeAll(LookupAll(entries, keys)).Some? ==>
      |DecodeAll(LookupAll(entries, keys)).value| == |RecordKeys(entries)|
  {
    CountRecordsOfKeys(entries, keys);
    assert RecordsAmong(entries, keys) == RecordKeys(entries);
  }

  /** `saveProgress`: overwrites this lesson's key; a store rejection is passed on. */
  method SaveProgress(store: Store, progress: MediaProgress) returns (o: Outcome)
    modifies store`entries
    ensures o.Fail? <==> !store.healthy
    ensures store.entries == if store.healthy
      then old(store.entries)[ProgressKey(progress.lessonId) := Media(progress)]
      else old(store.entries)
    ensures store.healthy ==> ProgressAt(store.entries, progress.lessonId) == Some(progress)
  {
    o := store.SetItem(ProgressKey(progress.lessonId), Media(progress));
  }

  /** `getProgress`: the stored record, or null when absent, unparseable or unreadable. */
  method GetProgress(store: Store, lessonId: string) returns (r: Option<MediaProgress>)
    ensures !store.healthy ==> r.None?
    ensures store.healthy ==> r == ProgressAt(store.entries, lessonId)
  {
    var data := store.GetItem(ProgressKey(lessonId));
    if data.Failure? || data.value.None? {
      return None;
    }
    match Decode(data.value.value)
    case Record(p) => r := Some(p);
    case Null => r := None;
    case Malformed => r := None;
  }

  /** `deleteProgress`: removes this lesson's key; a store rejection is passed on. */
  method DeleteProgress(store: Store, lessonId: string) returns (o: Outcome)
    modifies store`entries
    ensures o.Fail? <==> !store.healthy
    ensures store.entries == if store.healthy then old(store.entries) - {ProgressKey(lessonId)} else old(store.entries)
    ensures store.healthy ==> ProgressAt(store.entries, lessonId) == None
  {
    o := store.RemoveItem(ProgressKey(lessonId));
  }

  /**
   * `getAllProgress`: every record stored under the prefix, once per key, in
   * the store's key order; empty when the store rejects or any prefixed value
   * fails to parse.
   */
  method GetAllProgress(store: Store) returns (r: seq<MediaProgress>)
    ensures !store.healthy ==> r == []
    ensures store.healthy && AnyMalformed(store.entries) ==> r == []
    ensures store.healthy && !AnyMalformed(store.entries) ==>
      forall p :: p in r <==> exists id :: ProgressAt(store.entries, id) == Some(p)
    ensures store.healthy && !AnyMalformed(store.entries) ==> |r| == |RecordKeys(store.entries)|
  {
    var keys := store.GetAllKeys();
    if keys.Failure? {
      return [];
    }
    var progressKeys := FilterPrefixed(keys.value, AppConstants.MediaProgressPrefix);
    var data := store.MultiGet(progressKeys);
    if data.Failure? {
      return [];
    }
    assert data.value == LookupAll(store.entries, progressKeys);
    DecodeFailsIffMalformed(store.entries, progressKeys);
    DecodedAreStoredRecords(store.entries, progressKeys);
    DecodedCountsRecordKeys(store.entries, progressKeys);
    var decoded := DecodeAll(data.value);
    r := if decoded.Some? then decoded.value else [];
  }

  /** `clearAllProgress`: removes every prefixed key and no other; a store rejection is passed on. */
  method ClearAllProgress(store: Store) returns (o: Outcome)
    modifies store`entries
    ensures o.Fail? <==> !store.healthy
    ensures store.entries == if store.healthy then old(store.entries) - ProgressKeys(old(store.entries)) else old(store.entries)
    ensures store.healthy ==> forall id :: ProgressAt(store.entries, id) == None
  {
    var keys := store.GetAllKeys();
    if keys.Failure? {
      return Fail;
    }
    var progressKeys := FilterPrefixed(keys.value, AppConstants.MediaProgressPrefix);
    assert (set k | k in progressKeys) == ProgressKeys(store.entries);
    o := store.MultiRemove(progressKeys);
  }
}
