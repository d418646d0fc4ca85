/** The byte-bounded LRU of LTX file contents, shared by the clients of many databases. */
module FileCache {
  import opened Wrappers
  import opened Levels
  import opened Recency

  type Byte = b: int | 0 <= b < 256
  type Bytes = seq<Byte>

  datatype Key = Key(db: string, file: File)

  /** The bytes held by the listed keys. */
  function Total(order: seq<Key>, entries: map<Key, Bytes>): nat
    requires forall k :: k in order ==> k in entries
  {
    if order == [] then 0 else |entries[order[0]]| + Total(order[1..], entries)
  }

  /** The total depends on the listed entries only. */
  lemma {:induction false} TotalFrame(order: seq<Key>, m: map<Key, Bytes>, m': map<Key, Bytes>)
    requires forall k :: k in order ==> k in m && k in m' && m[k] == m'[k]
    ensures Total(order, m) == Total(order, m')
  {
    if order != [] {
      TotalFrame(order[1..], m, m');
    }
  }

  lemma {:induction false} TotalWithout(order: seq<Key>, m: map<Key, Bytes>, k: Key)
    requires Unique(order) && k in order && forall x :: x in order ==> x in m
    ensures (forall x :: x in Without(order, k) ==> x in m) && Total(Without(order, k), m) == Total(order, m) - |m[k]|
  {
    WithoutMembers(order, k);
    assert order == [order[0]] + order[1..];
    WithoutMembers(order[1..], k);
    if order[0] != k {
      TotalWithout(order[1..], m, k);
      assert Without(order, k)[1..] == Without(order[1..], k);
    }
  }

  lemma {:induction false} TotalLast(order: seq<Key>, m: map<Key, Bytes>)
    requires order != [] && forall x :: x in order ==> x in m
    ensures Total(order, m) == Total(order[..|order| - 1], m) + |m[order[|order| - 1]]|
  {
    var n := |order| - 1;
    if n > 0 {
      TotalLast(order[1..], m);
      assert order[1..][..n - 1] == order[..n][1..];
    }
  }

  /** entries lists exactly the keys of order. */
  ghost predicate Agree(order: seq<Key>, entries: map<Key, Bytes>) {
    Unique(order) && forall k :: k in order <==> k in entries
  }

  /** kept is the longest prefix of full that fits. */
  ghost predicate LongestFit(kept: seq<Key>, full: seq<Key>, m: map<Key, Bytes>, limit: int)
    requires forall k :: k in full ==> k in m
  {
    && kept <= full && Total(kept, m) <= limit
    && forall n :: |kept| < n <= |full| ==> Total(full[..n], m) > limit
  }

  /** The eviction loop's state: what is left of full, and why nothing longer fits. */
  ghost predicate Evicting(order: seq<Key>, m: map<Key, Bytes>, bytes: int, full: seq<Key>, all: map<Key, Bytes>,
                          limit: int)
  {
    && Agree(order, m) && bytes == Total(order, m) && order <= full && order != []
    && (forall k :: k in full ==> k in all) && (forall k :: k in m ==> k in all && m[k] == all[k])
    && forall n :: |order| < n <= |full| ==> Total(full[..n], all) > limit
  }

  /** Taking the last key out of the list and the map goes on evicting, while more than one is left. */
  lemma WithoutBack(order: seq<Key>, m: map<Key, Bytes>, bytes: int, full: seq<Key>, all: map<Key, Bytes>, limit: int)
    requires Evicting(order, m, bytes, full, all, limit) && bytes > limit && |m[order[0]]| <= limit
    ensures var n := |order| - 1;
            Evicting(order[..n], m - {order[n]}, bytes - |m[order[n]]|, full, all, limit)
  {
    var n := |order| - 1;
    TotalLast(order, m);
    assert order == order[..n] + [order[n]];
    assert Total(order[..0], m) == 0 && n > 0;
    TotalFrame(order[..n], m, m - {order[n]});
    TotalFrame(order, m, all);
    assert full[..n + 1] == order;
  }

  class Cache {
    var order: seq<Key>            // front = most recently used
    var entries: map<Key, Bytes>
    var bytes: int
    const limit: int

    ghost predicate Valid()
      reads this
    {
      && Agree(order, entries) && bytes == Total(order, entries)
      && bytes <= (if limit > 0 then limit else 0)
    }

    constructor (limit: int)
      ensures Valid() && order == [] && entries == map[] && this.limit == limit
    {
      order, entries, bytes, this.limit := [], map[], 0, limit;
    }

    method Get(key: Key) returns (r: Option<Bytes>)
      requires Valid()
      modifies this`order
      ensures Valid()
      ensures r == if key in entries then Some(entries[key]) else None
      ensures order == if key in entries then [key] + Without(old(order), key) else old(order)
    {
      if key !in entries {
        return None;
      }
      Touch(key);
      return Some(entries[key]);
    }

    method Touch(key: Key)
      requires Valid() && key in entries
      modifies this`order
      ensures Valid() && order == [key] + Without(old(order), key)
    {
      WithoutMembers(order, key);
      WithoutUnique(order, key);
      TotalWithout(order, entries, key);
      order := [key] + Without(order, key);
      assert order[1..] == Without(old(order), key);
    }

    method Remove(key: Key)
      requires Valid() && key in entries
      modifies this
      ensures Valid() && order == Without(old(order), key) && entries == old(entries) - {key}
    {
      WithoutMembers(order, key);
      WithoutUnique(order, key);
      TotalWithout(order, entries, key);
      TotalFrame(Without(order, key), entries, entries - {key});
      bytes := bytes - |entries[key]|;
      order := Without(order, key);
      entries := entries - {key};
    }

    method Drop(key: Key)
      requires Valid()
      modifies this
      ensures Valid() && order == Without(old(order), key) && entries == old(entries) - {key}
    {
      if key !in entries {
        WithoutMembers(order, key);
        return;
      }
      Remove(key);
    }

    /**
     A present key is only refreshed; a new one goes to the front and pushes out
     least recently used entries, as few as make the rest fit, never itself.
     */
    method Put(key: Key, data: Bytes)
      requires Valid()
      modifies this
      ensures Valid()
      ensures limit <= 0 || |data| > limit ==> order == old(order) && entries == old(entries)
      ensures limit > 0 && |data| <= limit && key in old(entries) ==>
                order == [key] + Without(old(order), key) && entries == old(entries)
      ensures limit > 0 && |data| <= limit && key !in old(entries) ==>
                && LongestFit(order, [key] + old(order), old(entries)[key := data], limit)
                && order != [] && entries == map k | k in order :: old(entries)[key := data][k]
    {
      if limit <= 0 || |data| > limit {
        return;
      }
      if key in entries {
        Touch(key);
        return;
      }
      ghost var full, all := [key] + order, entries[key := data];
      TotalFrame(order, entries, all);
      order := [key] + order;
      entries := entries[key := data];
      bytes := bytes + |data|;
      assert order[1..] == old(order);
      Evict(key);
      assert entries == map k | k in order :: all[k];
    }

    method Evict(key: Key)
      requires Agree(order, entries) && bytes == Total(order, entries) && limit > 0
      requires order != [] && order[0] == key && |entries[key]| <= limit
      modifies this
      ensures Valid() && order != [] && LongestFit(order, old(order), old(entries), limit)
      ensures forall k :: k in entries ==> k in old(entries) && entries[k] == old(entries)[k]
    {
      ghost var full, all := order, entries;
      while bytes > limit
        invariant Evicting(order, entries, bytes, full, all, limit) && order[0] == key
        decreases |order|
      {
        var last := |order| - 1;
        var back := order[last];
        WithoutBack(order, entries, bytes, full, all, limit);
        bytes := bytes - |entries[back]|;
        entries := entries - {back};
        order := order[..last];
      }
      TotalFrame(order, entries, all);
    }

    /** Every cached file of one database goes, in whatever order the map is walked. */
    method DropDB(db: string)
      requires Valid()
      modifies this
      ensures Valid() && entries == map k | k in old(entries) && k.db != db :: old(entries)[k]
    {
      var walk := entries.Keys;
      while walk != {}
        invariant Valid() && walk <= old(entries).Keys
        invariant forall k :: k in entries <==> k in old(entries) && (k.db != db || k in walk)
        invariant forall k :: k in entries ==> entries[k] == old(entries)[k]
        decreases |walk|
      {
        var k :| k in walk;
        walk := walk - {k};
        if k.db == db {
          Remove(k);
        }
      }
    }
  }
}
