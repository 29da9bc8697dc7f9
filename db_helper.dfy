/**
 * The page's IndexedDB helper (src/scripts/utils/db-helper.js).
 *
 * `Backend` is the browser's persistent database "storyglow-db": its
 * version, its schema (which object stores exist, with which key path and
 * key generator) and the contents of the three stores. `DBHelper` is the
 * page's singleton: it caches one open connection in `db` and implements
 * the queue, the cached-story snapshot and the app-state map on top of it.
 *
 * Every method first runs `openDB`, so every method can fail with the
 * error `openDB` produces. A method whose object store does not exist
 * fails with NotFoundError (what `db.transaction([...])` throws); an
 * argument that is not a valid key fails with DataError.
 */
module DbHelper {
  import opened JsValues
  import opened ObjectStore

  const DB_NAME: string := "storyglow-db"
  const DB_VERSION: nat := 1

  const PENDING_STORIES: string := "pending-stories"
  const CACHED_STORIES: string := "cached-stories"
  const APP_STATE: string := "app-state"

  /** An object store definition: key path, key generator, indexes (index name to key path). */
  datatype StoreDef = StoreDef(keyPath: string, autoIncrement: bool, indexes: map<string, string>)

  type Schema = map<string, StoreDef>

  const PendingDef: StoreDef := StoreDef("id", true, map["timestamp" := "timestamp"])
  const CachedDef: StoreDef := StoreDef("id", false, map["timestamp" := "cachedAt"])
  const AppStateDef: StoreDef := StoreDef("key", false, map[])

  datatype DbError =
    | StorageUnavailable   // indexedDB.open failed
    | VersionError         // the database on disk is newer than DB_VERSION
    | NotFoundError        // the object store does not exist
    | DataError            // a key that is not a valid key, or a missing in-line key
    | ConstraintError      // add() of a key that is already present
    | TransactionAborted   // cacheStories: a put was aborted because a later put threw

  /**
   * How a helper's promise ends: it settles (resolves or rejects) with a
   * result, or no handler ever runs and it stays pending for good.
   */
  datatype Settlement<T> = Settles(result: T) | NeverSettles

  /**
   * The `onupgradeneeded` handler: create each of the three stores that is
   * missing, and leave every existing store as it is.
   */
  function Upgrade(s: Schema): (r: Schema)
    ensures r.Keys == s.Keys + {PENDING_STORIES, CACHED_STORIES, APP_STATE}
    ensures forall n :: n in s ==> r[n] == s[n]
    ensures PENDING_STORIES !in s ==> r[PENDING_STORIES] == PendingDef
    ensures CACHED_STORIES !in s ==> r[CACHED_STORIES] == CachedDef
    ensures APP_STATE !in s ==> r[APP_STATE] == AppStateDef
  {
    var s1 := if PENDING_STORIES in s then s else s[PENDING_STORIES := PendingDef];
    var s2 := if CACHED_STORIES in s1 then s1 else s1[CACHED_STORIES := CachedDef];
    if APP_STATE in s2 then s2 else s2[APP_STATE := AppStateDef]
  }

  /** Running the upgrade on a schema that already has the three stores changes nothing. */
  lemma UpgradeOnCurrentSchema(s: Schema)
    requires PENDING_STORIES in s && CACHED_STORIES in s && APP_STATE in s
    ensures Upgrade(s) == s
    ensures Upgrade(Upgrade(s)) == Upgrade(s)
  {
  }

  /** Upgrading twice is upgrading once. */
  lemma UpgradeIdempotent(s: Schema)
    ensures Upgrade(Upgrade(s)) == Upgrade(s)
  {
    UpgradeOnCurrentSchema(Upgrade(s));
  }

  // ----- the pending-stories queue -----

  /** Every record of a store holds its own key at the key path. */
  ghost predicate KeyPathHolds(m: map<Key, Record>, path: string) {
    forall k :: k in m ==> Field(m[k], path) == KeyValue(k)
  }

  /** The key generator is above every number key of the store. */
  ghost predicate GeneratorAbove(m: map<Key, Record>, keyGen: int) {
    forall k :: k in m && k.NumKey? ==> k.n < keyGen
  }

  /** A store whose records hold their own keys at `path`, in key order. */
  ghost predicate StoreOk(s: seq<Entry<Record>>, path: string) {
    Sorted(s) && KeyPathHolds(ToMap(s), path)
  }

  /** The queue: in addition, its key generator is ahead of every number key. */
  ghost predicate QueueOk(s: seq<Entry<Record>>, keyGen: int) {
    StoreOk(s, "id") && GeneratorAbove(ToMap(s), keyGen)
  }

  lemma PutKeepsStoreOk(s: seq<Entry<Record>>, k: Key, rec: Record, path: string)
    requires StoreOk(s, path) && Field(rec, path) == KeyValue(k)
    ensures StoreOk(Put(s, k, rec), path)
  {
  }

  lemma DeleteKeepsStoreOk(s: seq<Entry<Record>>, k: Key, path: string)
    requires StoreOk(s, path)
    ensures StoreOk(Delete(s, k), path)
  {
  }

  /** What `addPendingStory` stores: the caller's fields plus `timestamp` and `status: 'pending'`. */
  function PendingRecord(storyData: Record, now: int): (r: Record)
    ensures Field(r, "timestamp") == Num(now) && Field(r, "status") == Str("pending")
    ensures r.Keys == storyData.Keys + {"timestamp", "status"}
    ensures forall f :: f in storyData && f != "timestamp" && f != "status" ==> r[f] == storyData[f]
  {
    storyData["timestamp" := Num(now)]["status" := Str("pending")]
  }

  /** The record `add` stores: a missing `id` is filled in from the key generator. */
  function WithId(rec: Record, keyGen: int): Record {
    if Field(rec, "id") == Undefined then rec["id" := Num(keyGen)] else rec
  }

  datatype Added = Added(store: seq<Entry<Record>>, keyGen: int, key: Key)

  /**
   * `add(record)` on a store with in-line key path `id`: a record without an
   * `id` gets the generator's next number (written into its `id` field) when
   * the store has a generator and is a DataError otherwise; a record with an
   * `id` is stored under it, and a number key at or above the generator moves
   * the generator past it. An existing key is a ConstraintError.
   */
  function AddWithKeyPath(store: seq<Entry<Record>>, keyGen: int, autoIncrement: bool, rec: Record): (r: Result<Added, DbError>)
    requires QueueOk(store, keyGen)
    ensures r.Ok? ==> QueueOk(r.value.store, r.value.keyGen)
    ensures r.Ok? ==> r.value.key !in ToMap(store)
    ensures r.Ok? ==> ToMap(r.value.store) == ToMap(store)[r.value.key := WithId(rec, keyGen)]
  {
    var idv := Field(rec, "id");
    if idv == Undefined then
      if !autoIncrement then Err(DataError)
      else
        var k := NumKey(keyGen);
        Ok(Added(Put(store, k, rec["id" := Num(keyGen)]), keyGen + 1, k))
    else
      match ToKey(idv)
      case None => Err(DataError)
      case Some(k) =>
        if k in ToMap(store) then Err(ConstraintError)
        else Ok(Added(Put(store, k, rec), if k.NumKey? && k.n >= keyGen then k.n + 1 else keyGen, k))
  }

  /**
   * `add` fails exactly when the record has no `id` and the store no key
   * generator (DataError), its `id` is not a valid key (DataError), or a
   * record with that key is already stored (ConstraintError).
   */
  lemma AddWithKeyPathErrors(store: seq<Entry<Record>>, keyGen: int, autoIncrement: bool, rec: Record)
    requires QueueOk(store, keyGen)
    ensures var r := AddWithKeyPath(store, keyGen, autoIncrement, rec);
      && (r == Err(DataError) <==>
           (Field(rec, "id") == Undefined && !autoIncrement)
           || (Field(rec, "id") != Undefined && ToKey(Field(rec, "id")).None?))
      && (r == Err(ConstraintError) <==>
           Field(rec, "id") != Undefined && ToKey(Field(rec, "id")).Some? && ToKey(Field(rec, "id")).value in ToMap(store))
      && (r.Err? ==> r == Err(DataError) || r == Err(ConstraintError))
  {
  }

  datatype AddedAll = AddedAll(store: seq<Entry<Record>>, keyGen: int, keys: seq<Key>)

  /** A run of `add`s, stopping at the first failure. */
  function AddAll(store: seq<Entry<Record>>, keyGen: int, autoIncrement: bool, recs: seq<Record>): Result<AddedAll, DbError>
    requires QueueOk(store, keyGen)
    decreases |recs|
  {
    if |recs| == 0 then Ok(AddedAll(store, keyGen, []))
    else
      match AddWithKeyPath(store, keyGen, autoIncrement, recs[0])
      case Err(e) => Err(e)
      case Ok(a) =>
        match AddAll(a.store, a.keyGen, autoIncrement, recs[1..])
        case Err(e) => Err(e)
        case Ok(rest) => Ok(AddedAll(rest.store, rest.keyGen, [a.key] + rest.keys))
  }

  /** The records a run of generated-key adds stores: each with its generated `id`. */
  function WithIds(recs: seq<Record>, first: int): (r: seq<Record>)
    ensures |r| == |recs|
    decreases |recs|
  {
    if |recs| == 0 then [] else [recs[0]["id" := Num(first)]] + WithIds(recs[1..], first + 1)
  }

  /** The i-th record of a run gets the id `first + i`. */
  lemma {:induction false} WithIdsAt(recs: seq<Record>, first: int, i: nat)
    requires i < |recs|
    ensures WithIds(recs, first)[i] == recs[i]["id" := Num(first + i)]
    decreases i
  {
    if i != 0 {
      WithIdsAt(recs[1..], first + 1, i - 1);
    }
  }

  function NumKeys(first: int, n: nat): (r: seq<Key>)
    ensures |r| == n
    decreases n
  {
    if n == 0 then [] else [NumKey(first)] + NumKeys(first + 1, n - 1)
  }

  /**
   * FIFO: starting from a queue whose keys are all generated numbers, N adds of
   * records without `id` succeed, get the keys keyGen, keyGen+1, ..., and
   * `getAll` afterwards lists the old records followed by the new ones in the
   * order they were added; the count grows by N.
   */
  lemma {:induction false} AddsAreFifo(store: seq<Entry<Record>>, keyGen: int, recs: seq<Record>)
    requires StoreOk(store, "id") && NumKeysBelow(ToMap(store), keyGen)
    requires forall i :: 0 <= i < |recs| ==> Field(recs[i], "id") == Undefined
    ensures QueueOk(store, keyGen)
    ensures AddAll(store, keyGen, true, recs).Ok?
    ensures AddAll(store, keyGen, true, recs).value.store == store + Appended(recs, keyGen)
    ensures AddAll(store, keyGen, true, recs).value.keyGen == keyGen + |recs|
    ensures AddAll(store, keyGen, true, recs).value.keys == NumKeys(keyGen, |recs|)
    ensures Values(store + Appended(recs, keyGen)) == Values(store) + WithIds(recs, keyGen)
    ensures |Values(store + Appended(recs, keyGen))| == |Values(store)| + |recs|
  {
    AddsAppend(store, keyGen, recs);
    ValuesConcat(store, Appended(recs, keyGen));
    ValuesAppended(recs, keyGen);
  }

  lemma {:induction false} AddsAppend(store: seq<Entry<Record>>, keyGen: int, recs: seq<Record>)
    requires StoreOk(store, "id") && NumKeysBelow(ToMap(store), keyGen)
    requires forall i :: 0 <= i < |recs| ==> Field(recs[i], "id") == Undefined
    ensures QueueOk(store, keyGen)
    ensures AddAll(store, keyGen, true, recs).Ok?
    ensures AddAll(store, keyGen, true, recs).value.store == store + Appended(recs, keyGen)
    ensures AddAll(store, keyGen, true, recs).value.keyGen == keyGen + |recs|
    ensures AddAll(store, keyGen, true, recs).value.keys == NumKeys(keyGen, |recs|)
    decreases |recs|
  {
    AppendGenerated(store, keyGen, map[]);
    if |recs| == 0 {
      assert store + Appended(recs, keyGen) == store;
    } else {
      var next := store + [Entry(NumKey(keyGen), recs[0]["id" := Num(keyGen)])];
      AppendGenerated(store, keyGen, recs[0]);
      AddsAppend(next, keyGen + 1, recs[1..]);
      AddsAppendStep(store, keyGen, recs);
    }
  }

  lemma AddsAppendStep(store: seq<Entry<Record>>, keyGen: int, recs: seq<Record>)
    requires StoreOk(store, "id") && NumKeysBelow(ToMap(store), keyGen)
    requires |recs| > 0 && Field(recs[0], "id") == Undefined
    requires var next := store + [Entry(NumKey(keyGen), recs[0]["id" := Num(keyGen)])];
      && StoreOk(next, "id") && QueueOk(next, keyGen + 1)
      && AddAll(next, keyGen + 1, true, recs[1..]).Ok?
      && AddAll(next, keyGen + 1, true, recs[1..]).value.store == next + Appended(recs[1..], keyGen + 1)
      && AddAll(next, keyGen + 1, true, recs[1..]).value.keyGen == keyGen + 1 + |recs[1..]|
      && AddAll(next, keyGen + 1, true, recs[1..]).value.keys == NumKeys(keyGen + 1, |recs[1..]|)
    ensures QueueOk(store, keyGen)
    ensures AddAll(store, keyGen, true, recs).Ok?
    ensures AddAll(store, keyGen, true, recs).value.store == store + Appended(recs, keyGen)
    ensures AddAll(store, keyGen, true, recs).value.keyGen == keyGen + |recs|
    ensures AddAll(store, keyGen, true, recs).value.keys == NumKeys(keyGen, |recs|)
  {
    var next := store + [Entry(NumKey(keyGen), recs[0]["id" := Num(keyGen)])];
    var rest := AddAll(next, keyGen + 1, true, recs[1..]).value;
    assert rest.store == next + Appended(recs[1..], keyGen + 1);
    assert rest.keyGen == keyGen + 1 + |recs[1..]|;
    assert rest.keys == NumKeys(keyGen + 1, |recs[1..]|);
    AddAllStep(store, keyGen, recs, rest);
    AppendedShift(store, keyGen, recs);
    assert rest.store == store + Appended(recs, keyGen);
    assert rest.keyGen == keyGen + |recs|;
    assert [NumKey(keyGen)] + rest.keys == NumKeys(keyGen, |recs|);
  }

  lemma AppendedShift(store: seq<Entry<Record>>, keyGen: int, recs: seq<Record>)
    requires |recs| > 0
    ensures (store + [Entry(NumKey(keyGen), recs[0]["id" := Num(keyGen)])]) + Appended(recs[1..], keyGen + 1)
         == store + Appended(recs, keyGen)
    ensures [NumKey(keyGen)] + NumKeys(keyGen + 1, |recs[1..]|) == NumKeys(keyGen, |recs|)
    ensures keyGen + 1 + |recs[1..]| == keyGen + |recs|
  {
    ConcatAssoc(store, [Entry(NumKey(keyGen), recs[0]["id" := Num(keyGen)])], Appended(recs[1..], keyGen + 1));
  }

  /** The entries a run of generated-key adds puts at the end of the queue. */
  function Appended(recs: seq<Record>, first: int): (r: seq<Entry<Record>>)
    ensures |r| == |recs|
    decreases |recs|
  {
    if |recs| == 0 then []
    else [Entry(NumKey(first), recs[0]["id" := Num(first)])] + Appended(recs[1..], first + 1)
  }

  lemma {:induction false} ValuesAppended(recs: seq<Record>, first: int)
    ensures Values(Appended(recs, first)) == WithIds(recs, first)
    decreases |recs|
  {
    if |recs| != 0 {
      var a := Appended(recs, first);
      assert a[1..] == Appended(recs[1..], first + 1);
      ValuesAppended(recs[1..], first + 1);
    }
  }

  lemma {:induction false} ValuesConcat<V>(a: seq<Entry<V>>, b: seq<Entry<V>>)
    ensures Values(a + b) == Values(a) + Values(b)
    decreases |a|
  {
    if |a| != 0 {
      assert (a + b)[1..] == a[1..] + b;
      ValuesConcat(a[1..], b);
    } else {
      assert a + b == b;
    }
  }

  /** The first of a run of generated-key adds appends its record. */
  lemma AddAllStep(store: seq<Entry<Record>>, keyGen: int, recs: seq<Record>, rest: AddedAll)
    requires StoreOk(store, "id") && NumKeysBelow(ToMap(store), keyGen)
    requires |recs| > 0 && Field(recs[0], "id") == Undefined
    requires var next := store + [Entry(NumKey(keyGen), recs[0]["id" := Num(keyGen)])];
      && StoreOk(next, "id") && QueueOk(next, keyGen + 1)
      && AddAll(next, keyGen + 1, true, recs[1..]).Ok? && AddAll(next, keyGen + 1, true, recs[1..]).value == rest
    ensures QueueOk(store, keyGen)
    ensures AddAll(store, keyGen, true, recs).Ok?
    ensures AddAll(store, keyGen, true, recs).value.store == rest.store
    ensures AddAll(store, keyGen, true, recs).value.keyGen == rest.keyGen
    ensures AddAll(store, keyGen, true, recs).value.keys == [NumKey(keyGen)] + rest.keys
  {
    GeneratedAddAppends(store, keyGen, recs[0]);
  }

  /** Appending a record under the generator's key keeps the queue all-number and in order. */
  lemma AppendGenerated(store: seq<Entry<Record>>, keyGen: int, rec: Record)
    requires StoreOk(store, "id") && NumKeysBelow(ToMap(store), keyGen)
    ensures QueueOk(store, keyGen)
    ensures var s' := store + [Entry(NumKey(keyGen), rec["id" := Num(keyGen)])];
      StoreOk(s', "id") && NumKeysBelow(ToMap(s'), keyGen + 1) && QueueOk(s', keyGen + 1)
  {
    PutAboveAppends(store, keyGen, rec["id" := Num(keyGen)]);
    PutKeepsStoreOk(store, NumKey(keyGen), rec["id" := Num(keyGen)], "id");
  }

  /** One generated-key add to an all-number queue appends. */
  lemma GeneratedAddAppends(store: seq<Entry<Record>>, keyGen: int, rec: Record)
    requires StoreOk(store, "id") && NumKeysBelow(ToMap(store), keyGen)
    requires Field(rec, "id") == Undefined
    ensures QueueOk(store, keyGen)
    ensures AddWithKeyPath(store, keyGen, true, rec)
         == Ok(Added(store + [Entry(NumKey(keyGen), rec["id" := Num(keyGen)])], keyGen + 1, NumKey(keyGen)))
    ensures var s' := store + [Entry(NumKey(keyGen), rec["id" := Num(keyGen)])];
      StoreOk(s', "id") && NumKeysBelow(ToMap(s'), keyGen + 1) && QueueOk(s', keyGen + 1)
      && Values(s') == Values(store) + [rec["id" := Num(keyGen)]]
  {
    PutAboveAppends(store, keyGen, rec["id" := Num(keyGen)]);
  }

  /** The keys of the first `i` queued stories that the uploader accepted. */
  function AcceptedKeys(entries: seq<Entry<Record>>, accepted: Record -> bool): set<Key>
  {
    if |entries| == 0 then {}
    else (if accepted(entries[0].value) then {entries[0].key} else {}) + AcceptedKeys(entries[1..], accepted)
  }

  /** The queue view that keeps exactly the stories the uploader did not accept. */
  function KeepRejected(m: map<Key, Record>, accepted: Record -> bool): map<Key, Record> {
    map k | k in m && !accepted(m[k]) :: m[k]
  }

  lemma {:induction false} AcceptedKeysIn(entries: seq<Entry<Record>>, accepted: Record -> bool, k: Key)
    requires Sorted(entries)
    ensures k in AcceptedKeys(entries, accepted) <==> k in ToMap(entries) && accepted(ToMap(entries)[k])
    decreases |entries|
  {
    if |entries| != 0 {
      HeadIsLeast(entries);
      AcceptedKeysIn(entries[1..], accepted, k);
    }
  }

  /** Deleting the accepted stories' keys from the queue leaves exactly the rejected ones, unchanged. */
  lemma RemovingAcceptedKeepsRejected(entries: seq<Entry<Record>>, accepted: Record -> bool)
    requires Sorted(entries)
    ensures ToMap(entries) - AcceptedKeys(entries, accepted) == KeepRejected(ToMap(entries), accepted)
  {
    forall k ensures k in ToMap(entries) - AcceptedKeys(entries, accepted) <==> k in KeepRejected(ToMap(entries), accepted) {
      AcceptedKeysIn(entries, accepted, k);
    }
  }

  /** Deleting the i-th queued story exactly when it is accepted extends the deleted keys by one story. */
  lemma DrainMapStep(entries: seq<Entry<Record>>, accepted: Record -> bool, i: nat,
                     before: map<Key, Record>, after: map<Key, Record>, ok: bool)
    requires i < |entries|
    requires before == ToMap(entries) - AcceptedKeys(entries[..i], accepted)
    requires ok == accepted(entries[i].value)
    requires after == if ok then before - {entries[i].key} else before
    ensures after == ToMap(entries) - AcceptedKeys(entries[..i + 1], accepted)
  {
    AcceptedKeysStep(entries, accepted, i);
    if ok {
      MinusUnion(ToMap(entries), AcceptedKeys(entries[..i], accepted), {entries[i].key});
    } else {
      assert AcceptedKeys(entries[..i], accepted) + {} == AcceptedKeys(entries[..i], accepted);
    }
  }

  lemma AcceptedKeysStep(entries: seq<Entry<Record>>, accepted: Record -> bool, i: nat)
    requires i < |entries|
    ensures AcceptedKeys(entries[..i + 1], accepted)
         == AcceptedKeys(entries[..i], accepted) + (if accepted(entries[i].value) then {entries[i].key} else {})
    decreases i
  {
    if i != 0 {
      assert entries[..i + 1][1..] == entries[1..][..i];
      assert entries[..i][1..] == entries[1..][..i - 1];
      AcceptedKeysStep(entries[1..], accepted, i - 1);
    } else {
      assert entries[..1][1..] == [];
    }
  }

  // ----- the cached-stories snapshot -----

  /** What `cacheStories` puts: the story with the shared `cachedAt`. */
  function Stamp(story: Record, cachedAt: int): Record {
    story["cachedAt" := Num(cachedAt)]
  }

  function StoryKey(story: Record): Option<Key> {
    ToKey(Field(story, "id"))
  }

  predicate AllKeyed(stories: seq<Record>) {
    forall i :: 0 <= i < |stories| ==> StoryKey(stories[i]).Some?
  }

  /** The id-to-record view of putting `stories` one after the other into an empty store. */
  function CacheView(stories: seq<Record>, cachedAt: int): map<Key, Record>
    requires AllKeyed(stories)
    decreases |stories|
  {
    if |stories| == 0 then map[]
    else
      var last := stories[|stories| - 1];
      AllKeyedPrefix(stories);
      CacheView(stories[..|stories| - 1], cachedAt)[StoryKey(last).value := Stamp(last, cachedAt)]
  }

  lemma AllKeyedPrefix(stories: seq<Record>)
    requires AllKeyed(stories) && |stories| > 0
    ensures AllKeyed(stories[..|stories| - 1])
  {
    var prefix := stories[..|stories| - 1];
    forall i | 0 <= i < |prefix| ensures StoryKey(prefix[i]).Some? { assert prefix[i] == stories[i]; }
  }

  /** The cached store after clearing it and putting `stories` one after the other. */
  function CacheSnapshot(stories: seq<Record>, cachedAt: int): (r: seq<Entry<Record>>)
    requires AllKeyed(stories)
    ensures StoreOk(r, "id")
    ensures ToMap(r) == CacheView(stories, cachedAt)
    decreases |stories|
  {
    if |stories| == 0 then []
    else
      var last := stories[|stories| - 1];
      var prev := CacheSnapshot(stories[..|stories| - 1], cachedAt);
      AllKeyedPrefix(stories);
      PutKeepsStoreOk(prev, StoryKey(last).value, Stamp(last, cachedAt), "id");
      Put(prev, StoryKey(last).value, Stamp(last, cachedAt))
  }

  /** Putting one more story extends the snapshot. */
  lemma CacheSnapshotStep(stories: seq<Record>, i: nat, cachedAt: int)
    requires i < |stories| && AllKeyed(stories[..i]) && StoryKey(stories[i]).Some?
    ensures AllKeyed(stories[..i + 1])
    ensures CacheSnapshot(stories[..i + 1], cachedAt)
         == Put(CacheSnapshot(stories[..i], cachedAt), StoryKey(stories[i]).value, Stamp(stories[i], cachedAt))
  {
    var p := stories[..i + 1];
    assert p[..i] == stories[..i];
    forall j | 0 <= j < |p| ensures StoryKey(p[j]).Some? {
      if j < i { assert p[j] == stories[..i][j]; }
    }
  }

  /** `stories[i]` is the last story in `stories` whose id is `k`. */
  ghost predicate LastWithKey(stories: seq<Record>, k: Key, i: int) {
    0 <= i < |stories| && StoryKey(stories[i]) == Some(k)
    && forall j :: i < j < |stories| ==> StoryKey(stories[j]) != Some(k)
  }

  /**
   * After `cacheStories(list)` the store holds exactly the ids in `list`; the
   * record under an id is the LAST story in `list` with that id, with `cachedAt`.
   */
  lemma {:induction false} CacheSnapshotContents(stories: seq<Record>, cachedAt: int, k: Key)
    requires AllKeyed(stories)
    ensures k in ToMap(CacheSnapshot(stories, cachedAt)) <==>
      exists i :: 0 <= i < |stories| && StoryKey(stories[i]) == Some(k)
    ensures k in ToMap(CacheSnapshot(stories, cachedAt)) ==>
      exists i :: LastWithKey(stories, k, i) && ToMap(CacheSnapshot(stories, cachedAt))[k] == Stamp(stories[i], cachedAt)
  {
    CacheViewKeys(stories, cachedAt, k);
    if k in CacheView(stories, cachedAt) {
      CacheViewLast(stories, cachedAt, k);
    }
  }

  lemma {:induction false} CacheViewKeys(stories: seq<Record>, cachedAt: int, k: Key)
    requires AllKeyed(stories)
    ensures k in CacheView(stories, cachedAt) <==> exists i :: 0 <= i < |stories| && StoryKey(stories[i]) == Some(k)
    decreases |stories|
  {
    if |stories| != 0 {
      var n := |stories| - 1;
      var prefix := stories[..n];
      AllKeyedPrefix(stories);
      CacheViewKeys(prefix, cachedAt, k);
      if StoryKey(stories[n]) != Some(k) {
        forall i | 0 <= i < |stories| && StoryKey(stories[i]) == Some(k)
          ensures exists i' :: 0 <= i' < |prefix| && StoryKey(prefix[i']) == Some(k)
        {
          assert i < n && stories[i] == prefix[i];
        }
        forall i | 0 <= i < |prefix| && StoryKey(prefix[i]) == Some(k)
          ensures exists i' :: 0 <= i' < |stories| && StoryKey(stories[i']) == Some(k)
        {
          assert stories[i] == prefix[i];
        }
      }
    }
  }

  lemma {:induction false} CacheViewLast(stories: seq<Record>, cachedAt: int, k: Key)
    requires AllKeyed(stories) && k in CacheView(stories, cachedAt)
    ensures exists i :: LastWithKey(stories, k, i) && CacheView(stories, cachedAt)[k] == Stamp(stories[i], cachedAt)
    decreases |stories|
  {
    var n := |stories| - 1;
    var prefix := stories[..n];
    AllKeyedPrefix(stories);
    if StoryKey(stories[n]) == Some(k) {
      assert LastWithKey(stories, k, n);
    } else {
      CacheViewLast(prefix, cachedAt, k);
      var i :| LastWithKey(prefix, k, i) && CacheView(prefix, cachedAt)[k] == Stamp(prefix[i], cachedAt);
      assert stories[i] == prefix[i];
      forall j | i < j < |stories| ensures StoryKey(stories[j]) != Some(k) {
        if j < n { assert stories[j] == prefix[j]; }
      }
      assert LastWithKey(stories, k, i);
    }
  }

  // ----- the app-state map -----

  /** What `setState(key, value)` puts. */
  function StateRecord(key: Value, value: Value, now: int): Record {
    map["key" := key, "value" := value, "updatedAt" := Num(now)]
  }

  /** What `getState` resolves to: `request.result?.value || null`. */
  function StateValue(store: seq<Entry<Record>>, k: Key): Value {
    match Get(store, k)
    case None => Null
    case Some(rec) => Or(Field(rec, "value"), Null)
  }

  /**
   * `getState(k)` after `setState(k, v)` gives `v` back when `v` is truthy and
   * `null` when it is falsy; the other keys read as before.
   */
  lemma GetAfterSetState(store: seq<Entry<Record>>, key: Value, v: Value, now: int, other: Key)
    requires Sorted(store) && ToKey(key).Some?
    ensures StateValue(Put(store, ToKey(key).value, StateRecord(key, v, now)), ToKey(key).value)
         == if Truthy(v) then v else Null
    ensures other != ToKey(key).value ==>
      StateValue(Put(store, ToKey(key).value, StateRecord(key, v, now)), other) == StateValue(store, other)
  {
  }

  /** A key that was never set reads as `null`. */
  lemma GetMissingState(store: seq<Entry<Record>>, k: Key)
    requires k !in ToMap(store)
    ensures StateValue(store, k) == Null
  {
  }

  // ----- the persistent database and the helper -----

  class Backend {
    /** Whether the platform lets `indexedDB.open` succeed. */
    var available: bool
    /** 0 while the database does not exist. */
    var version: nat
    var schema: Schema
    var pending: seq<Entry<Record>>
    /** The pending-stories key generator's current number. */
    var keyGen: int
    var cached: seq<Entry<Record>>
    var appState: seq<Entry<Record>>

    ghost predicate Valid()
      reads this
    {
      QueueOk(pending, keyGen) && StoreOk(cached, "id") && StoreOk(appState, "key")
    }

    /** A database that does not exist yet. */
    constructor (available: bool)
      ensures Valid() && this.available == available
      ensures version == 0 && schema == map[] && pending == [] && keyGen == 1 && cached == [] && appState == []
    {
      this.available := available;
      version, schema := 0, map[];
      pending, keyGen, cached, appState := [], 1, [], [];
    }

    /** `onupgradeneeded` for an older database: create the missing stores, move to DB_VERSION. */
    method UpgradeSchema()
      requires Valid()
      modifies this
      ensures Valid()
      ensures unchanged(this`pending, this`keyGen, this`cached, this`appState, this`available)
      ensures schema == Upgrade(old(schema)) && version == DB_VERSION
    {
      schema := Upgrade(schema);
      version := DB_VERSION;
    }

    /** `add(record)` on the pending-stories store. */
    method AddPending(rec: Record) returns (r: Result<Key, DbError>)
      requires Valid() && PENDING_STORIES in schema
      modifies this
      ensures Valid()
      ensures unchanged(this`cached, this`appState, this`schema, this`version, this`available)
      ensures match AddWithKeyPath(old(pending), old(keyGen), schema[PENDING_STORIES].autoIncrement, rec)
        case Err(e) => r == Err(e) && unchanged(this`pending, this`keyGen)
        case Ok(a) => r == Ok(a.key) && pending == a.store && keyGen == a.keyGen
    {
      match AddWithKeyPath(pending, keyGen, schema[PENDING_STORIES].autoIncrement, rec)
      case Err(e) =>
        return Err(e);
      case Ok(a) =>
        pending, keyGen := a.store, a.keyGen;
        return Ok(a.key);
    }

    /** `delete(k)` on the pending-stories store. */
    method DeletePending(k: Key)
      requires Valid()
      modifies this
      ensures Valid()
      ensures unchanged(this`keyGen, this`cached, this`appState, this`schema, this`version, this`available)
      ensures pending == Delete(old(pending), k)
    {
      DeleteKeepsStoreOk(pending, k, "id");
      pending := Delete(pending, k);
    }

    /** `clear()` on the pending-stories store. */
    method ClearPending()
      requires Valid()
      modifies this
      ensures Valid()
      ensures unchanged(this`keyGen, this`cached, this`appState, this`schema, this`version, this`available)
      ensures pending == []
    {
      pending := [];
    }

    /** `put(rec)` on the app-state store, whose key path is `key`. */
    method PutState(k: Key, rec: Record)
      requires Valid() && Field(rec, "key") == KeyValue(k)
      modifies this
      ensures Valid()
      ensures unchanged(this`pending, this`keyGen, this`cached, this`schema, this`version, this`available)
      ensures appState == Put(old(appState), k, rec)
    {
      PutKeepsStoreOk(appState, k, rec, "key");
      appState := Put(appState, k, rec);
    }

    /**
     * The `cached-stories` transaction of `cacheStories`: clear, then put every
     * story stamped with `cachedAt`. A story without a valid `id` makes its
     * put throw inside the clear's success handler, which aborts the
     * transaction and rolls the clear back. The puts issued before it fail
     * with an AbortError that reaches `transaction.onerror`, so the promise
     * rejects; when the very first story has no key there is no such put,
     * only the unhandled `abort` event fires, and the promise never settles.
     */
    method ReplaceCached(stories: seq<Record>, cachedAt: int) returns (r: Settlement<Result<(), DbError>>)
      requires Valid()
      modifies this
      ensures Valid()
      ensures unchanged(this`pending, this`keyGen, this`appState, this`schema, this`version, this`available)
      ensures if AllKeyed(stories) then r == Settles(Ok(())) && cached == CacheSnapshot(stories, cachedAt)
              else unchanged(this`cached) && |stories| > 0
                   && r == (if StoryKey(stories[0]).None? then NeverSettles else Settles(Err(TransactionAborted)))
    {
      var before := cached;
      cached := [];
      for i := 0 to |stories|
        invariant Valid()
        invariant AllKeyed(stories[..i])
        invariant cached == CacheSnapshot(stories[..i], cachedAt)
        invariant unchanged(this`pending, this`keyGen, this`appState, this`schema, this`version, this`available)
      {
        var k := StoryKey(stories[i]);
        if k.None? {
          cached := before;
          if i == 0 {
            return NeverSettles;
          }
          assert stories[..i][0] == stories[0];
          return Settles(Err(TransactionAborted));
        }
        CacheSnapshotStep(stories, i, cachedAt);
        cached := Put(cached, k.value, Stamp(stories[i], cachedAt));
      }
      assert stories[..|stories|] == stories;
      return Settles(Ok(()));
    }
  }

  /** An open IndexedDB connection. */
  class Connection {
    const database: Backend

    constructor (database: Backend)
      ensures this.database == database
    {
      this.database := database;
    }
  }

  class DBHelper {
    const backend: Backend
    /** The cached connection: `this.db`. */
    var db: Connection?

    ghost predicate Valid()
      reads this, backend
    {
      backend.Valid() && (db != null ==> db.database == backend && backend.version == DB_VERSION)
    }

    /** What a call to `openDB` fails with now, if it fails. */
    ghost function OpenError(): Option<DbError>
      reads this, backend
    {
      if db != null then None
      else if !backend.available then Some(StorageUnavailable)
      else if backend.version > DB_VERSION then Some(VersionError)
      else None
    }

    /** What reading the whole queue settles with now: the open error, a missing store, or the stories in key order. */
    ghost function PendingRead(): Result<seq<Record>, DbError>
      reads this, backend
    {
      if OpenError().Some? then Err(OpenError().value)
      else if PENDING_STORIES !in (if backend.version < DB_VERSION then Upgrade(backend.schema) else backend.schema) then Err(NotFoundError)
      else Ok(Values(backend.pending))
    }

    /** `openDB` succeeded: the connection is cached, and the schema upgraded if the database was older. */
    twostate predicate Opened()
      reads this, backend
    {
      && db != null && db.database == backend
      && (old(db) != null ==> db == old(db))
      && backend.version == (if old(backend.version) < DB_VERSION then DB_VERSION else old(backend.version))
      && backend.schema == (if old(backend.version) < DB_VERSION then Upgrade(old(backend.schema)) else old(backend.schema))
      && backend.available == old(backend.available)
    }

    /** `openDB` failed: nothing is cached and the database is untouched. */
    twostate predicate OpenFailed()
      reads this, backend
    {
      db == null && unchanged(backend)
    }

    constructor (backend: Backend)
      ensures this.backend == backend && db == null
    {
      this.backend := backend;
      db := null;
    }

    /**
     * Returns the cached connection when there is one (no reopening);
     * otherwise opens version DB_VERSION, running the upgrade when the
     * database is older, and caches the new connection.
     */
    method OpenDB() returns (r: Result<Connection, DbError>)
      requires Valid()
      modifies this, backend
      ensures Valid()
      ensures old(db) != null ==> r == Ok(old(db)) && unchanged(this, backend)
      ensures old(OpenError()).Some? ==> r == Err(old(OpenError()).value) && OpenFailed()
      ensures old(OpenError()).None? ==> r == Ok(db) && Opened()
      ensures old(db) == null && r.Ok? ==> fresh(r.value)
      ensures unchanged(backend`pending, backend`keyGen, backend`cached, backend`appState)
    {
      if db != null {
        return Ok(db);
      }
      if !backend.available {
        return Err(StorageUnavailable);
      }
      if backend.version > DB_VERSION {
        return Err(VersionError);
      }
      if backend.version < DB_VERSION {
        backend.UpgradeSchema();
      }
      var c := new Connection(backend);
      db := c;
      return Ok(c);
    }

    /** `close()`: drop the cached connection, so the next call reopens. */
    method Close()
      modifies this
      ensures db == null
    {
      if db != null {
        db := null;
      }
    }

    /**
     * What `addPendingStory(storyData)` did when it resolved or rejected with
     * `r`: the open error, NotFoundError without the store, or the outcome of
     * `add` on the queue with the stamped record.
     */
    twostate predicate PendingAdded(storyData: Record, now: int, new r: Result<Key, DbError>)
      requires old(backend.Valid())
      reads this, backend
    {
      && (old(OpenError()).Some? ==> r == Err(old(OpenError()).value) && OpenFailed())
      && (old(OpenError()).None? ==> Opened() && unchanged(backend`cached, backend`appState))
      && (old(OpenError()).None? && PENDING_STORIES !in backend.schema ==>
            r == Err(NotFoundError) && unchanged(backend`pending, backend`keyGen))
      && (old(OpenError()).None? && PENDING_STORIES in backend.schema ==>
            match AddWithKeyPath(old(backend.pending), old(backend.keyGen),
                                 backend.schema[PENDING_STORIES].autoIncrement, PendingRecord(storyData, now))
            case Err(e) => r == Err(e) && unchanged(backend`pending, backend`keyGen)
            case Ok(a) => r == Ok(a.key) && backend.pending == a.store && backend.keyGen == a.keyGen)
    }

    /** Queue a story; resolves to its key. */
    method AddPendingStory(storyData: Record, now: int) returns (r: Result<Key, DbError>)
      requires Valid()
      modifies this, backend
      ensures Valid()
      ensures PendingAdded(storyData, now, r)
    {
      var c := OpenDB();
      if c.Err? {
        return Err(c.error);
      }
      if PENDING_STORIES !in backend.schema {
        return Err(NotFoundError);
      }
      r := backend.AddPending(PendingRecord(storyData, now));
    }

    /** All queued stories, in ascending key order. */
    method GetAllPendingStories() returns (r: Result<seq<Record>, DbError>)
      requires Valid()
      modifies this, backend
      ensures Valid()
      ensures old(OpenError()).Some? ==> r == Err(old(OpenError()).value) && OpenFailed()
      ensures old(OpenError()).None? ==> Opened()
      ensures old(OpenError()).None? ==>
        r == if PENDING_STORIES in backend.schema then Ok(Values(backend.pending)) else Err(NotFoundError)
      ensures r == old(PendingRead())
      ensures unchanged(backend`pending, backend`keyGen, backend`cached, backend`appState)
    {
      var c := OpenDB();
      if c.Err? {
        return Err(c.error);
      }
      if PENDING_STORIES !in backend.schema {
        return Err(NotFoundError);
      }
      return Ok(Values(backend.pending));
    }

    /** `getPendingCount()`: how many stories are queued. */
    method GetPendingCount() returns (r: Result<nat, DbError>)
      requires Valid()
      modifies this, backend
      ensures Valid()
      ensures old(OpenError()).Some? ==> r == Err(old(OpenError()).value) && OpenFailed()
      ensures old(OpenError()).None? ==> Opened()
      ensures old(OpenError()).None? ==>
        r == if PENDING_STORIES in backend.schema then Ok(|ToMap(backend.pending)|) else Err(NotFoundError)
      ensures unchanged(backend`pending, backend`keyGen, backend`cached, backend`appState)
    {
      var all := GetAllPendingStories();
      if all.Err? {
        return Err(all.error);
      }
      DistinctKeysCount(backend.pending);
      return Ok(|all.value|);
    }

    /** Remove the queued story with key `id`; a missing key is not an error. */
    method DeletePendingStory(id: Value) returns (r: Result<(), DbError>)
      requires Valid()
      modifies this, backend
      ensures Valid()
      ensures old(OpenError()).Some? ==> r == Err(old(OpenError()).value) && OpenFailed()
      ensures old(OpenError()).None? ==> Opened() && unchanged(backend`keyGen, backend`cached, backend`appState)
      ensures old(OpenError()).None? ==>
        if PENDING_STORIES !in backend.schema then r == Err(NotFoundError) && unchanged(backend`pending)
        else if ToKey(id).None? then r == Err(DataError) && unchanged(backend`pending)
        else r == Ok(()) && ToMap(backend.pending) == old(ToMap(backend.pending)) - {ToKey(id).value}
    {
      var c := OpenDB();
      if c.Err? {
        return Err(c.error);
      }
      if PENDING_STORIES !in backend.schema {
        return Err(NotFoundError);
      }
      match ToKey(id)
      case None =>
        return Err(DataError);
      case Some(k) =>
        backend.DeletePending(k);
        return Ok(());
    }

    /** `markStoryAsSynced(id)` is `deletePendingStory(id)`. */
    method MarkStoryAsSynced(id: Value) returns (r: Result<(), DbError>)
      requires Valid()
      modifies this, backend
      ensures Valid()
      ensures old(OpenError()).Some? ==> r == Err(old(OpenError()).value) && OpenFailed()
      ensures old(OpenError()).None? ==> Opened() && unchanged(backend`keyGen, backend`cached, backend`appState)
      ensures old(OpenError()).None? ==>
        if PENDING_STORIES !in backend.schema then r == Err(NotFoundError) && unchanged(backend`pending)
        else if ToKey(id).None? then r == Err(DataError) && unchanged(backend`pending)
        else r == Ok(()) && ToMap(backend.pending) == old(ToMap(backend.pending)) - {ToKey(id).value}
    {
      r := DeletePendingStory(id);
    }

    /**
     * `syncPendingStories(apiService)`: hand every queued story to
     * `apiService.addStory` in queue order and delete each one whose upload
     * did not throw; a failed story stays and the loop goes on. It resolves
     * to `undefined`, early when the queue is empty; `handed` is the list the
     * stories were handed over in. `accepts` says which uploads succeed.
     */
    method SyncPendingStories(accepts: Record -> bool) returns (r: Result<(), DbError>, ghost handed: seq<Record>)
      requires Valid()
      modifies this, backend
      ensures Valid()
      ensures old(OpenError()).Some? ==> r == Err(old(OpenError()).value) && OpenFailed()
      ensures old(OpenError()).None? ==> Opened() && unchanged(backend`keyGen, backend`cached, backend`appState)
      ensures old(OpenError()).None? && PENDING_STORIES !in backend.schema ==>
        r == Err(NotFoundError) && unchanged(backend`pending)
      ensures old(OpenError()).None? && PENDING_STORIES in backend.schema ==>
        && r == Ok(())
        && handed == old(Values(backend.pending))
        && ToMap(backend.pending) == KeepRejected(old(ToMap(backend.pending)), accepts)
    {
      handed := [];
      var all := GetAllPendingStories();
      if all.Err? {
        return Err(all.error), handed;
      }
      var stories := all.value;
      handed := stories;
      if |stories| == 0 {
        return Ok(()), handed;
      }
      ghost var entries := backend.pending;
      DeleteAccepted(stories, entries, accepts);
      return Ok(()), handed;
    }

    /** The loop of `syncPendingStories`: upload each story in turn, delete it when the upload succeeded. */
    method DeleteAccepted(stories: seq<Record>, ghost entries: seq<Entry<Record>>, accepts: Record -> bool)
      requires Valid() && db != null && PENDING_STORIES in backend.schema
      requires backend.pending == entries && stories == Values(entries)
      modifies this, backend
      ensures Valid() && db == old(db)
      ensures unchanged(backend`keyGen, backend`cached, backend`appState, backend`schema, backend`version, backend`available)
      ensures ToMap(backend.pending) == KeepRejected(ToMap(entries), accepts)
    {
      for i := 0 to |stories|
        invariant Valid() && db == old(db)
        invariant unchanged(backend`keyGen, backend`cached, backend`appState, backend`schema, backend`version, backend`available)
        invariant ToMap(backend.pending) == ToMap(entries) - AcceptedKeys(entries[..i], accepts)
      {
        ValuesAt(entries, i);
        var story := stories[i];
        ghost var done := AcceptedKeys(entries[..i], accepts);
        AcceptedKeysStep(entries, accepts, i);
        if accepts(story) {
          var id := Field(story, "id");
          assert ToKey(id) == Some(entries[i].key) by {
            HeadIsLeastAt(entries, i);
            assert id == KeyValue(entries[i].key);
          }
          var d := DeletePendingStory(id);
          MinusUnion(ToMap(entries), done, {entries[i].key});
        } else {
          assert done + {} == done;
        }
      }
      assert entries[..|stories|] == entries;
      RemovingAcceptedKeepsRejected(entries, accepts);
    }

    /** Empty the queue. */
    method ClearPendingStories() returns (r: Result<(), DbError>)
      requires Valid()
      modifies this, backend
      ensures Valid()
      ensures old(OpenError()).Some? ==> r == Err(old(OpenError()).value) && OpenFailed()
      ensures old(OpenError()).None? ==> Opened() && unchanged(backend`keyGen, backend`cached, backend`appState)
      ensures old(OpenError()).None? ==>
        if PENDING_STORIES in backend.schema then r == Ok(()) && backend.pending == []
        else r == Err(NotFoundError) && unchanged(backend`pending)
    {
      var c := OpenDB();
      if c.Err? {
        return Err(c.error);
      }
      if PENDING_STORIES !in backend.schema {
        return Err(NotFoundError);
      }
      backend.ClearPending();
      return Ok(());
    }

    /**
     * Replace the cached stories wholesale, in one transaction: clear, then put
     * every story with one shared `cachedAt`. A story without a valid `id`
     * makes its put throw, which aborts the transaction and rolls the clear
     * back; the promise then rejects, or never settles when that story is
     * the first.
     */
    method CacheStories(stories: seq<Record>, now: int) returns (r: Settlement<Result<(), DbError>>)
      requires Valid()
      modifies this, backend
      ensures Valid()
      ensures old(OpenError()).Some? ==> r == Settles(Err(old(OpenError()).value)) && OpenFailed()
      ensures old(OpenError()).None? ==> Opened() && unchanged(backend`pending, backend`keyGen, backend`appState)
      ensures old(OpenError()).None? ==>
        if CACHED_STORIES !in backend.schema then r == Settles(Err(NotFoundError)) && unchanged(backend`cached)
        else if AllKeyed(stories) then r == Settles(Ok(())) && backend.cached == CacheSnapshot(stories, now)
        else unchanged(backend`cached) && |stories| > 0
             && r == (if StoryKey(stories[0]).None? then NeverSettles else Settles(Err(TransactionAborted)))
    {
      var c := OpenDB();
      if c.Err? {
        return Settles(Err(c.error));
      }
      if CACHED_STORIES !in backend.schema {
        return Settles(Err(NotFoundError));
      }
      r := backend.ReplaceCached(stories, now);
    }

    /** All cached stories, in ascending id order. */
    method GetCachedStories() returns (r: Result<seq<Record>, DbError>)
      requires Valid()
      modifies this, backend
      ensures Valid()
      ensures old(OpenError()).Some? ==> r == Err(old(OpenError()).value) && OpenFailed()
      ensures old(OpenError()).None? ==> Opened()
      ensures old(OpenError()).None? ==>
        r == if CACHED_STORIES in backend.schema then Ok(Values(backend.cached)) else Err(NotFoundError)
      ensures unchanged(backend`pending, backend`keyGen, backend`cached, backend`appState)
    {
      var c := OpenDB();
      if c.Err? {
        return Err(c.error);
      }
      if CACHED_STORIES !in backend.schema {
        return Err(NotFoundError);
      }
      return Ok(Values(backend.cached));
    }

    /** `setState(key, value)`: put `{key, value, updatedAt}` under `key`. */
    method SetState(key: Value, value: Value, now: int) returns (r: Result<(), DbError>)
      requires Valid()
      modifies this, backend
      ensures Valid()
      ensures old(OpenError()).Some? ==> r == Err(old(OpenError()).value) && OpenFailed()
      ensures old(OpenError()).None? ==> Opened() && unchanged(backend`pending, backend`keyGen, backend`cached)
      ensures old(OpenError()).None? ==>
        if APP_STATE !in backend.schema then r == Err(NotFoundError) && unchanged(backend`appState)
        else if ToKey(key).None? then r == Err(DataError) && unchanged(backend`appState)
        else r == Ok(()) && backend.appState == Put(old(backend.appState), ToKey(key).value, StateRecord(key, value, now))
    {
      var c := OpenDB();
      if c.Err? {
        return Err(c.error);
      }
      if APP_STATE !in backend.schema {
        return Err(NotFoundError);
      }
      match ToKey(key)
      case None =>
        return Err(DataError);
      case Some(k) =>
        backend.PutState(k, StateRecord(key, value, now));
        return Ok(());
    }

    /** `getState(key)`: the stored value, or `null` when it is missing or falsy. */
    method GetState(key: Value) returns (r: Result<Value, DbError>)
      requires Valid()
      modifies this, backend
      ensures Valid()
      ensures old(OpenError()).Some? ==> r == Err(old(OpenError()).value) && OpenFailed()
      ensures old(OpenError()).None? ==> Opened()
      ensures old(OpenError()).None? ==>
        r == if APP_STATE !in backend.schema then Err(NotFoundError)
             else if ToKey(key).None? then Err(DataError)
             else Ok(StateValue(backend.appState, ToKey(key).value))
      ensures unchanged(backend`pending, backend`keyGen, backend`cached, backend`appState)
    {
      var c := OpenDB();
      if c.Err? {
        return Err(c.error);
      }
      if APP_STATE !in backend.schema {
        return Err(NotFoundError);
      }
      match ToKey(key)
      case None =>
        return Err(DataError);
      case Some(k) =>
        return Ok(StateValue(backend.appState, k));
    }
  }

  // ----- small facts the methods use -----

  lemma ConcatAssoc<T>(a: seq<T>, b: seq<T>, c: seq<T>)
    ensures (a + b) + c == a + (b + c)
  {
  }

  lemma MinusUnion<K, V>(m: map<K, V>, a: set<K>, b: set<K>)
    ensures m - a - b == m - (a + b)
  {
  }

  /** The id of the i-th queued story is its key. */
  lemma QueuedStoryKey(entries: seq<Entry<Record>>, i: nat)
    requires StoreOk(entries, "id") && i < |entries|
    ensures Values(entries)[i] == entries[i].value
    ensures ToKey(Field(Values(entries)[i], "id")) == Some(entries[i].key)
  {
    ValuesAt(entries, i);
    var e := entries[i];
    HeadIsLeastAt(entries, i);
    assert Field(e.value, "id") == KeyValue(e.key);
    ToKeyOfKeyValue(e.key);
  }

  /** In a sorted store the i-th record is the one its key maps to. */
  lemma HeadIsLeastAt(s: seq<Entry<Record>>, i: nat)
    requires Sorted(s) && i < |s|
    ensures s[i].key in ToMap(s) && ToMap(s)[s[i].key] == s[i].value
    decreases i
  {
    HeadIsLeast(s);
    if i != 0 {
      HeadIsLeastAt(s[1..], i - 1);
    }
  }

  lemma ValuesAt<V>(s: seq<Entry<V>>, i: nat)
    requires i < |s|
    ensures Values(s)[i] == s[i].value
    decreases i
  {
    if i != 0 {
      ValuesAt(s[1..], i - 1);
    }
  }

  /** A sorted store has as many records as its view has keys. */
  lemma {:induction false} DistinctKeysCount(s: seq<Entry<Record>>)
    requires Sorted(s)
    ensures |ToMap(s)| == |s|
    decreases |s|
  {
    if |s| != 0 {
      HeadIsLeast(s);
      DistinctKeysCount(s[1..]);
      assert ToMap(s).Keys == ToMap(s[1..]).Keys + {s[0].key};
    }
  }
}
