/** The first cache level: a bounded map with least-recently-used eviction. */
module LocalCache {
  import opened Wrappers

  type Bytes = seq<int>

  datatype Entry = Entry(value: Bytes, expiresAt: int, lastAccess: int)

  type Entries = map<string, Entry>

  const DEFAULT_MAX_ENTRIES := 512

  function MaxEntries(configured: int): (n: nat)
    ensures n > 0
  {
    if configured <= 0 then DEFAULT_MAX_ENTRIES else configured
  }

  // ------------------------------------------------------------------------------------------------------------
  // The eviction scan
  // ------------------------------------------------------------------------------------------------------------

  /** The oldest entry seen so far; the empty key stands for none. */
  datatype Scan = Scan(key: string, at: int)

  function ScanStep(acc: Scan, key: string, at: int): Scan {
    if acc.key == "" || at < acc.at then Scan(key, at) else acc
  }

  function Scanned(entries: Entries, order: seq<string>): Scan
    requires forall key :: key in order ==> key in entries
  {
    if order == [] then Scan("", 0)
    else
      var last := order[|order| - 1];
      assert forall key :: key in order[..|order| - 1] ==> key in order;
      ScanStep(Scanned(entries, order[..|order| - 1]), last, entries[last].lastAccess)
  }

  function Without(entries: Entries, victim: string): Entries {
    if victim == "" then entries else entries - {victim}
  }

  /** Without an empty key, the scan finds an entry nobody used longer ago than it, whatever the iteration order. */
  lemma {:induction false} ScanFindsOldest(entries: Entries, order: seq<string>)
    requires (forall key :: key in order ==> key in entries) && "" !in order && order != []
    ensures var s := Scanned(entries, order);
            s.key in order && s.at == entries[s.key].lastAccess
            && forall key :: key in order ==> s.at <= entries[key].lastAccess
  {
    var init, last := order[..|order| - 1], order[|order| - 1];
    assert order == init + [last];
    if init != [] {
      ScanFindsOldest(entries, init);
    }
  }

  /** The empty key is older than everything else, or alone. */
  predicate EmptyKeyOldest(entries: Entries) {
    "" in entries && forall key :: key in entries && key != "" ==> entries[""].lastAccess < entries[key].lastAccess
  }

  lemma {:induction false} ScanBounds(entries: Entries, order: seq<string>)
    requires (forall key :: key in order ==> key in entries) && Listing(order, set key | key in order)
    requires Scanned(entries, order).key == "" && order != []
    ensures order[|order| - 1] == ""
    ensures forall key :: key in order && key != "" ==> entries[""].lastAccess < entries[key].lastAccess
  {
    var init, last := order[..|order| - 1], order[|order| - 1];
    assert order == init + [last];
    assert last == "";
    forall i | 0 <= i < |init|
      ensures init[i] != ""
    {
      assert order[i] != order[|order| - 1];
    }
    if init != [] {
      ScanFindsOldest(entries, init);
    }
  }

  lemma MissedMeansOldest(entries: Entries, order: seq<string>)
    requires Listing(order, entries.Keys) && order != [] && Scanned(entries, order).key == ""
    ensures EmptyKeyOldest(entries)
  {
    assert (set key | key in order) == entries.Keys;
    ScanBounds(entries, order);
    assert order[|order| - 1] in order;
  }

  /** If the empty key is the oldest, an iteration that visits it last finds no victim. */
  lemma OldestCanBeMissed(entries: Entries, rest: seq<string>)
    requires Listing(rest, entries.Keys - {""}) && EmptyKeyOldest(entries)
    ensures Listing(rest + [""], entries.Keys) && Scanned(entries, rest + [""]).key == ""
  {
    var order := rest + [""];
    assert order[..|order| - 1] == rest;
    if rest != [] {
      ScanFindsOldest(entries, rest);
    }
  }

  // ------------------------------------------------------------------------------------------------------------
  // The cache
  // ------------------------------------------------------------------------------------------------------------

  function Looked(entries: Entries, key: string, now: int): (Entries, Option<Bytes>) {
    if key !in entries then (entries, None)
    else if entries[key].expiresAt <= now then (entries - {key}, None)
    else (entries[key := entries[key].(lastAccess := now)], Some(entries[key].value))
  }

  /** `order` is the order in which the map happened to be iterated, if an eviction was needed. */
  ghost predicate Sets(entries: Entries, max: nat, key: string, value: Bytes, expiresAt: int, now: int,
                       order: seq<string>, entries': Entries) {
    if key !in entries && |entries| >= max
    then Listing(order, entries.Keys) && entries'
        == Without(entries, Scanned(entries, order).key)[key := Entry(value, expiresAt, now)]
    else entries' == entries[key := Entry(value, expiresAt, now)]
  }

  class Cache {
    const maxEntries: nat
    var entries: Entries

    constructor (configured: int)
      ensures maxEntries == MaxEntries(configured) && entries == map[]
    {
      maxEntries, entries := MaxEntries(configured), map[];
    }

    method Get(key: string, now: int) returns (value: Option<Bytes>)
      modifies this
      ensures (entries, value) == Looked(old(entries), key, now)
    {
      if key !in entries {
        return None;
      }
      var entry := entries[key];
      if !(entry.expiresAt > now) {
        entries := entries - {key};
        return None;
      }
      entry := entry.(lastAccess := now);
      entries := entries[key := entry];
      return Some(entry.value);
    }

    method Set(key: string, value: Bytes, expiresAt: int, now: int)
      modifies this
      ensures exists order :: Sets(old(entries), maxEntries, key, value, expiresAt, now, order, entries)
    {
      ghost var order: seq<string> := [];
      if key !in entries && |entries| >= maxEntries {
        order := EvictOldest();
      }
      entries := entries[key := Entry(value, expiresAt, now)];
      assert Sets(old(entries), maxEntries, key, value, expiresAt, now, order, entries);
    }

    method EvictOldest() returns (ghost order: seq<string>)
      modifies this
      ensures Listing(order, old(entries).Keys)
      ensures entries == Without(old(entries), Scanned(old(entries), order).key)
    {
      var oldestKey, oldest := "", 0;
      var todo := entries.Keys;
      order := [];
      while todo != {}
        invariant todo <= entries.Keys && entries == old(entries)
        invariant Listing(order, entries.Keys - todo)
        invariant Scan(oldestKey, oldest) == Scanned(entries, order)
      {
        var key :| key in todo;
        if oldestKey == "" || entries[key].lastAccess < oldest {
          oldestKey, oldest := key, entries[key].lastAccess;
        }
        assert (order + [key])[..|order|] == order;
        order := order + [key];
        todo := todo - {key};
      }
      assert entries.Keys - todo == entries.Keys;
      if oldestKey != "" {
        entries := entries - {oldestKey};
      }
    }

    method Delete(keys: seq<string>)
      modifies this
      ensures entries == old(entries) - (set key | key in keys)
    {
      var i := 0;
      while i < |keys|
        invariant 0 <= i <= |keys|
        invariant entries == old(entries) - (set key | key in keys[..i])
      {
        assert keys[..i + 1] == keys[..i] + [keys[i]];
        entries := entries - {keys[i]};
        i := i + 1;
      }
      assert keys[..i] == keys;
    }
  }

  lemma SizeAfterRemoval(entries: Entries, victim: string)
    requires victim in entries
    ensures |entries - {victim}| == |entries| - 1
  {
    assert (entries - {victim}).Keys == entries.Keys - {victim};
    assert |entries.Keys - {victim}| == |entries.Keys| - 1;
    assert |entries - {victim}| == |(entries - {victim}).Keys|;
  }

  lemma SizeAfterUpdate(entries: Entries, key: string, e: Entry)
    ensures |entries[key := e]| == |entries| + (if key in entries then 0 else 1)
  {
    assert entries[key := e].Keys == entries.Keys + {key};
    assert |entries[key := e]| == |entries[key := e].Keys|;
  }

  lemma NotEmpty(entries: Entries, order: seq<string>)
    requires Listing(order, entries.Keys) && |entries| > 0
    ensures order != []
  {
    assert |entries.Keys| == |entries|;
    assert entries.Keys != {};
    var key :| key in entries.Keys;
    assert key in order;
  }

  /** As long as the empty key is never used, the cache holds at most its maximum, only the least recently used entry
      is ever given up, and the key just set maps to the value just set. */
  lemma SetKeepsBound(entries: Entries, max: nat, key: string, value: Bytes, expiresAt: int, now: int,
                      order: seq<string>, entries': Entries)
    requires max > 0 && |entries| <= max && "" !in entries && key != ""
    requires Sets(entries, max, key, value, expiresAt, now, order, entries')
    ensures |entries'| <= max && "" !in entries'
    ensures key in entries' && entries'[key] == Entry(value, expiresAt, now)
    ensures forall other :: other in entries' && other != key ==> other in entries && entries'[other] == entries[other]
    ensures forall gone :: gone in entries && gone !in entries' ==>
              |entries| == max && forall other :: other in entries ==>
                  entries[gone].lastAccess <= entries[other].lastAccess
  {
    if key !in entries && |entries| >= max {
      NotEmpty(entries, order);
      ScanFindsOldest(entries, order);
      var victim := Scanned(entries, order).key;
      SizeAfterRemoval(entries, victim);
      SizeAfterUpdate(entries - {victim}, key, Entry(value, expiresAt, now));
    } else {
      SizeAfterUpdate(entries, key, Entry(value, expiresAt, now));
    }
  }

  lemma {:induction false} ScanPicksMember(entries: Entries, order: seq<string>)
    requires forall key :: key in order ==> key in entries
    ensures Scanned(entries, order).key == "" || Scanned(entries, order).key in order
  {
    if order != [] {
      ScanPicksMember(entries, order[..|order| - 1]);
    }
  }

  lemma OverflowMeansMissed(entries: Entries, max: nat, key: string, value: Bytes, expiresAt: int, now: int,
                            order: seq<string>, entries': Entries)
    requires max > 0 && |entries| == max && key !in entries
    requires Sets(entries, max, key, value, expiresAt, now, order, entries') && |entries'| > max
    ensures EmptyKeyOldest(entries)
  {
    NotEmpty(entries, order);
    var victim := Scanned(entries, order).key;
    if victim != "" {
      ScanPicksMember(entries, order);
      SizeAfterRemoval(entries, victim);
      SizeAfterUpdate(entries - {victim}, key, Entry(value, expiresAt, now));
    } else {
      MissedMeansOldest(entries, order);
    }
  }

  /** Setting a new key in a full cache can leave it over its maximum. */
  ghost predicate CanOverflow(entries: Entries, max: nat, key: string, value: Bytes, expiresAt: int, now: int) {
    exists order, entries' :: Sets(entries, max, key, value, expiresAt, now, order, entries') && |entries'| > max
  }

  /** A full cache grows past its maximum, in some iteration order, exactly when the empty key is its oldest entry. */
  lemma SetOverflowsIff(entries: Entries, max: nat, key: string, value: Bytes, expiresAt: int, now: int,
                        rest: seq<string>)
    requires max > 0 && |entries| == max && key !in entries && Listing(rest, entries.Keys - {""})
    ensures CanOverflow(entries, max, key, value, expiresAt, now) <==> EmptyKeyOldest(entries)
  {
    if EmptyKeyOldest(entries) {
      OldestCanBeMissed(entries, rest);
      SizeAfterUpdate(entries, key, Entry(value, expiresAt, now));
      assert Sets(entries, max, key, value, expiresAt, now, rest + [""], entries[key := Entry(value, expiresAt, now)]);
    }
    if CanOverflow(entries, max, key, value, expiresAt, now) {
      var order, entries' :| Sets(entries, max, key, value, expiresAt, now, order, entries') && |entries'| > max;
      OverflowMeansMissed(entries, max, key, value, expiresAt, now, order, entries');
    }
  }

  /** That case is reached: in a cache of one entry, the empty key and then any other. */
  lemma OverflowReached(key: string, value: Bytes, expiresAt: int, now: int)
    requires key != ""
    ensures var e := Entry(value, expiresAt, now);
            && Sets(map[], 1, "", value, expiresAt, now, [], map["" := e])
            && Sets(map["" := e], 1, key, value, expiresAt, now, [""], map["" := e, key := e])
            && |map["" := e, key := e]| == 2
  {
    var e := Entry(value, expiresAt, now);
    SizeAfterUpdate(map[], "", e);
    SizeAfterUpdate(map["" := e], key, e);
    assert map["" := e][key := e] == map["" := e, key := e];
    assert [""][..0] == [];
    assert Scanned(map["" := e], [""]).key == "";
  }
}
