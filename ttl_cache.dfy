/** The persistent TTL cache (`PersistentCacheManager`): an in-memory map from keys to
    (timestamp, value) pairs, read with a caller-supplied time-to-live, written to one JSON
    file with forced and debounced saves.

    The clock is the parameter `now` (seconds), the outcome of writing the file is the
    parameter `writeOk`, and the file itself is the ghost field `file`. */
module TtlCache {
  import opened Wrappers

  /** One cache entry: when it was stored and what. */
  datatype Entry<V> = Entry(stamp: real, value: V)

  /** What the cache file holds under one key: a two-element list `[timestamp, value]`, or
      anything else. */
  datatype Stored<V> = Pair(stamp: real, value: V) | Malformed

  /** The cache file: not there, not readable as a JSON object, or an object of stored values. */
  datatype CacheFile<V> = Missing | Unreadable | Written(data: map<string, Stored<V>>)

  /** `SAVE_DEBOUNCE_SECONDS`. */
  const SaveDebounceSeconds: real := 1.0

  /** An entry read with time-to-live `ttl` at time `now` counts as gone once it is `ttl` old. */
  predicate Expired<V>(e: Entry<V>, ttl: real, now: real) {
    now - e.stamp >= ttl
  }

  /** What `get(key, ttl)` returns; `ttl == None` never expires anything. */
  function Lookup<V>(m: map<string, Entry<V>>, key: string, ttl: Option<real>, now: real): Option<V> {
    if key in m && !(ttl.Some? && Expired(m[key], ttl.value, now)) then Some(m[key].value) else None
  }

  /** The map after `get(key, ttl)`: an expired entry for `key` is deleted. */
  function Evict<V>(m: map<string, Entry<V>>, key: string, ttl: Option<real>, now: real): map<string, Entry<V>> {
    if key in m && ttl.Some? && Expired(m[key], ttl.value, now) then m - {key} else m
  }

  /** The entries an expiry sweep with `ttl` keeps. */
  function Unexpired<V>(m: map<string, Entry<V>>, ttl: real, now: real): map<string, Entry<V>> {
    map k | k in m && !Expired(m[k], ttl, now) :: m[k]
  }

  /** What a save writes: every entry as the list `[timestamp, value]`. */
  function Serialize<V>(m: map<string, Entry<V>>): map<string, Stored<V>> {
    map k | k in m :: Pair(m[k].stamp, m[k].value)
  }

  /** What a load keeps of a file: only the two-element lists; nothing from a missing or
      unreadable file. */
  function LoadEntries<V>(f: CacheFile<V>): map<string, Entry<V>> {
    match f
    case Written(data) => map k | k in data && data[k].Pair? :: Entry(data[k].stamp, data[k].value)
    case _ => map[]
  }

  /** `_load_from_disk`'s loop over the file's items: a two-element list becomes an entry,
      anything else is skipped. */
  method LoadPairs<V>(data: map<string, Stored<V>>) returns (m: map<string, Entry<V>>)
    ensures m == LoadEntries(Written(data))
  {
    m := map[];
    var todo := data.Keys;
    while todo != {}
      invariant todo <= data.Keys
      invariant m == map k | k in data && k !in todo && data[k].Pair? :: Entry(data[k].stamp, data[k].value)
      decreases |todo|
    {
      var key :| key in todo;
      if data[key].Pair? {
        m := m[key := Entry(data[key].stamp, data[key].value)];
      }
      todo := todo - {key};
    }
  }

  /** Statistics as `get_stats` reports them (the file-existence flag reads the disk and is not
      part of the model). */
  datatype CacheStats = CacheStats(totalEntries: nat, cacheFile: string)

  class PersistentCache<V> {
    const path: string
    var entries: map<string, Entry<V>>
    var dirty: bool
    var lastSaveTime: real
    ghost var file: CacheFile<V>

    /** `__init__` followed by `_load_from_disk`: a readable file gives its well-formed entries,
        an unreadable one an empty cache, and a missing one an empty cache that is saved at
        once. */
    constructor (cacheDir: string, cacheFile: string, onDisk: CacheFile<V>, now: real, writeOk: bool)
      ensures path == cacheDir + "/" + cacheFile
      ensures entries == LoadEntries(onDisk) && !dirty
      ensures !onDisk.Missing? ==> file == onDisk && lastSaveTime == 0.0
      ensures onDisk.Missing? && writeOk ==> file == Written(map[]) && lastSaveTime == now
      ensures onDisk.Missing? && !writeOk ==> file == Missing && lastSaveTime == 0.0
    {
      path := cacheDir + "/" + cacheFile;
      entries := map[];
      dirty := false;
      lastSaveTime := 0.0;
      file := onDisk;
      new;
      match onDisk {
        case Written(data) =>
          entries := LoadPairs(data);
        case Unreadable =>
          entries := map[];
        case Missing =>
          SaveToDisk(true, now, writeOk);
      }
    }

    /** `_save_to_disk(force)`: an unforced save less than a second after the last one only
        marks the cache dirty; otherwise the whole map is written and, if the write succeeds,
        the save time is recorded and the dirty flag cleared. A failed write changes nothing. */
    method SaveToDisk(force: bool, now: real, writeOk: bool)
      modifies this
      ensures entries == old(entries)
      ensures !force && now - old(lastSaveTime) < SaveDebounceSeconds ==>
        dirty && lastSaveTime == old(lastSaveTime) && file == old(file)
      ensures (force || now - old(lastSaveTime) >= SaveDebounceSeconds) && writeOk ==>
        file == Written(Serialize(entries)) && lastSaveTime == now && !dirty
      ensures (force || now - old(lastSaveTime) >= SaveDebounceSeconds) && !writeOk ==>
        file == old(file) && lastSaveTime == old(lastSaveTime) && dirty == old(dirty)
    {
      if !force && now - lastSaveTime < SaveDebounceSeconds {
        dirty := true;
        return;
      }
      if writeOk {
        file := Written(Serialize(entries));
        lastSaveTime := now;
        dirty := false;
      }
    }

    /** `get(key, ttl)`: the value if the key is present and not expired; an expired entry is
        deleted and the cache marked dirty. No other key changes and nothing is saved. */
    method Get(key: string, ttl: Option<real>, now: real) returns (r: Option<V>)
      modifies this
      ensures r == Lookup(old(entries), key, ttl, now)
      ensures entries == Evict(old(entries), key, ttl, now)
      ensures dirty == (old(dirty) || entries != old(entries))
      ensures lastSaveTime == old(lastSaveTime) && file == old(file)
    {
      if key !in entries {
        return None;
      }
      var e := entries[key];
      if ttl.Some? && now - e.stamp >= ttl.value {
        entries := entries - {key};
        dirty := true;
        return None;
      }
      return Some(e.value);
    }

    /** `set(key, value)`: stores `(now, value)` and forces a save. */
    method Set(key: string, value: V, now: real, writeOk: bool)
      modifies this
      ensures entries == old(entries)[key := Entry(now, value)]
      ensures writeOk ==> file == Written(Serialize(entries)) && lastSaveTime == now && !dirty
      ensures !writeOk ==> file == old(file) && lastSaveTime == old(lastSaveTime) && dirty == old(dirty)
    {
      entries := entries[key := Entry(now, value)];
      SaveToDisk(true, now, writeOk);
    }

    /** `clear()`: empties the cache and forces a save. */
    method Clear(now: real, writeOk: bool)
      modifies this
      ensures entries == map[]
      ensures writeOk ==> file == Written(map[]) && lastSaveTime == now && !dirty
      ensures !writeOk ==> file == old(file) && lastSaveTime == old(lastSaveTime) && dirty == old(dirty)
    {
      entries := map[];
      SaveToDisk(true, now, writeOk);
    }

    /** `cleanup_expired(ttl)`: deletes exactly the entries at least `ttl` old, keeps the rest
        as they are, and forces a save only when something was deleted. */
    method CleanupExpired(ttl: real, now: real, writeOk: bool)
      modifies this
      ensures entries == Unexpired(old(entries), ttl, now)
      ensures entries == old(entries) ==>
        file == old(file) && lastSaveTime == old(lastSaveTime) && dirty == old(dirty)
      ensures entries != old(entries) && writeOk ==>
        file == Written(Serialize(entries)) && lastSaveTime == now && !dirty
      ensures entries != old(entries) && !writeOk ==>
        file == old(file) && lastSaveTime == old(lastSaveTime) && dirty == old(dirty)
    {
      var expired := set k | k in entries && now - entries[k].stamp >= ttl;
      var pending := expired;
      while pending != {}
        invariant pending <= expired
        invariant entries == map k | k in old(entries) && (k !in expired || k in pending) :: old(entries)[k]
        invariant file == old(file) && lastSaveTime == old(lastSaveTime) && dirty == old(dirty)
        decreases pending
      {
        var k :| k in pending;
        entries := entries - {k};
        pending := pending - {k};
      }
      assert entries == Unexpired(old(entries), ttl, now);
      if expired != {} {
        var k :| k in expired;
        assert k !in entries;
        SaveToDisk(true, now, writeOk);
      } else {
        assert entries == old(entries);
      }
    }

    /** `get_stats()`: the number of entries and the file's path. */
    method GetStats() returns (stats: CacheStats)
      ensures stats.totalEntries == |entries|
      ensures stats.cacheFile == path
    {
      stats := CacheStats(|entries|, path);
    }

    /** `__del__`: a forced save, only when the cache is dirty. */
    method Finalize(now: real, writeOk: bool)
      modifies this
      ensures entries == old(entries)
      ensures !old(dirty) ==> file == old(file) && lastSaveTime == old(lastSaveTime) && !dirty
      ensures old(dirty) && writeOk ==> file == Written(Serialize(entries)) && lastSaveTime == now && !dirty
      ensures old(dirty) && !writeOk ==> file == old(file) && lastSaveTime == old(lastSaveTime) && dirty
    {
      if dirty {
        SaveToDisk(true, now, writeOk);
      }
    }
  }

  // ---------------------------------------------------------------------------------------
  // Properties of the cache as a whole.

  /** A value just stored is read back unchanged at the same instant with any positive TTL. */
  lemma SetThenGet<V>(m: map<string, Entry<V>>, key: string, value: V, now: real, ttl: real)
    requires ttl > 0.0
    ensures Lookup(m[key := Entry(now, value)], key, Some(ttl), now) == Some(value)
  {
  }

  /** Reading with no TTL never expires an entry and never deletes one. */
  lemma NoTtlNeverExpires<V>(m: map<string, Entry<V>>, key: string, now: real)
    ensures key in m ==> Lookup(m, key, None, now) == Some(m[key].value)
    ensures Evict(m, key, None, now) == m
  {
  }

  /** An expired entry reads as absent and is gone afterwards, so the entry count drops by one. */
  lemma ExpiredReadsAbsent<V>(m: map<string, Entry<V>>, key: string, ttl: real, now: real)
    requires key in m && Expired(m[key], ttl, now)
    ensures Lookup(m, key, Some(ttl), now) == None
    ensures key !in Evict(m, key, Some(ttl), now)
    ensures |Evict(m, key, Some(ttl), now)| == |m| - 1
  {
  }

  /** A read touches no key other than the one it reads. */
  lemma EvictKeepsOtherKeys<V>(m: map<string, Entry<V>>, key: string, ttl: Option<real>, now: real, other: string)
    requires other != key
    ensures other in Evict(m, key, ttl, now) <==> other in m
    ensures other in m ==> Evict(m, key, ttl, now)[other] == m[other]
  {
  }

  /** A sweep keeps an entry exactly when it is younger than the TTL, and keeps it unchanged. */
  lemma UnexpiredExactly<V>(m: map<string, Entry<V>>, ttl: real, now: real, key: string)
    ensures key in Unexpired(m, ttl, now) <==> key in m && now - m[key].stamp < ttl
    ensures key in Unexpired(m, ttl, now) ==> Unexpired(m, ttl, now)[key] == m[key]
  {
  }

  /** Loading a file written by a successful save reproduces the saved map. */
  lemma LoadAfterSave<V>(m: map<string, Entry<V>>)
    ensures LoadEntries(Written(Serialize(m))) == m
  {
    var loaded := LoadEntries(Written(Serialize(m)));
    assert loaded.Keys == m.Keys;
    forall k | k in m ensures loaded[k] == m[k] {
    }
  }

  /** Loading drops every stored value that is not a two-element list and keeps the others. */
  lemma LoadKeepsPairsOnly<V>(data: map<string, Stored<V>>, key: string)
    ensures key in LoadEntries(Written(data)) <==> key in data && data[key].Pair?
    ensures key in LoadEntries(Written(data)) ==>
      LoadEntries(Written(data))[key] == Entry(data[key].stamp, data[key].value)
  {
  }
}
