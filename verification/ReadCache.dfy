/**
 The bounded LRU of read sessions.  order is the recency list, entries the map
 beside it; closes, added and removed record every Close call and every observer
 callback.
 */
module ReadCache {
  import opened Wrappers
  import opened Recency

  type Key = nat

  /** One session: equal values are the same session. */
  datatype Instance = Instance(key: Key, id: nat)

  datatype Entry = Entry(instance: Instance, lastUsed: int)

  /** The list and the map hold the same keys, and each entry sits under its own key. */
  ghost predicate Agree(order: seq<Key>, entries: map<Key, Entry>) {
    && Unique(order) && (forall k :: k in order <==> k in entries)
    && forall k :: k in entries ==> entries[k].instance.key == k
  }

  /** Last-use times fall from front to back and none is after now. */
  ghost predicate Recent(order: seq<Key>, entries: map<Key, Entry>, now: int)
    requires forall k :: k in order ==> k in entries
  {
    && (forall k :: k in order ==> entries[k].lastUsed <= now)
    && forall i, j :: 0 <= i < j < |order| ==> entries[order[i]].lastUsed >= entries[order[j]].lastUsed
  }

  /** No session has been closed twice, and none that is cached has been closed. */
  ghost predicate ClosedOnce(entries: map<Key, Entry>, closes: seq<Instance>) {
    Unique(closes) && forall k :: k in entries ==> entries[k].instance !in closes
  }

  ghost predicate Known(entries: map<Key, Entry>, closes: seq<Instance>, inst: Instance) {
    inst in closes || (inst.key in entries && entries[inst.key].instance == inst)
  }

  lemma AgreeSize(order: seq<Key>, entries: map<Key, Entry>)
    requires Agree(order, entries)
    ensures |entries| == |order|
  {
    UniqueSize(order);
    assert entries.Keys == Members(order);
  }

  /** Removing a key keeps the list and the map in agreement and the times in order. */
  lemma RemoveKeeps(order: seq<Key>, entries: map<Key, Entry>, key: Key)
    requires Agree(order, entries) && key in entries
    ensures Agree(Without(order, key), entries - {key}) && |Without(order, key)| == |order| - 1
    ensures forall now :: Recent(order, entries, now) ==> Recent(Without(order, key), entries - {key}, now)
  {
    WithoutMembers(order, key);
    WithoutUnique(order, key);
    WithoutLength(order, key);
    forall now | Recent(order, entries, now) ensures Recent(Without(order, key), entries - {key}, now) {
      RemoveRecent(order, entries, key, now);
    }
  }

  lemma RemoveRecent(order: seq<Key>, entries: map<Key, Entry>, key: Key, now: int)
    requires (forall k :: k in order ==> k in entries) && Recent(order, entries, now)
    ensures forall k :: k in Without(order, key) ==> k in entries - {key}
    ensures Recent(Without(order, key), entries - {key}, now)
  {
    WithoutMembers(order, key);
    var s := Without(order, key);
    forall i, j | 0 <= i < j < |s| ensures entries[s[i]].lastUsed >= entries[s[j]].lastUsed {
      var a, b := WithoutKeepsOrder(order, key, i, j);
      assert entries[order[a]].lastUsed >= entries[order[b]].lastUsed;
    }
  }

  /** A new or refreshed key at the front carries the newest time. */
  lemma PushKeeps(order: seq<Key>, entries: map<Key, Entry>, e: Entry, now: int)
    requires Agree(order, entries) && e.instance.key !in entries
    ensures Agree([e.instance.key] + order, entries[e.instance.key := e])
    ensures Recent(order, entries, now) && now <= e.lastUsed ==>
              Recent([e.instance.key] + order, entries[e.instance.key := e], e.lastUsed)
  {
  }

  /** The cached sessions, however they are ordered. */
  function Bag(order: seq<Key>, entries: map<Key, Entry>): multiset<Instance>
    requires forall k :: k in order ==> k in entries
  {
    if order == [] then multiset{}
    else multiset{entries[order[0]].instance} + Bag(order[1..], entries)
  }

  lemma {:induction false} BagFrame(order: seq<Key>, m: map<Key, Entry>, m': map<Key, Entry>)
    requires forall k :: k in order ==> k in m && k in m' && m[k].instance == m'[k].instance
    ensures Bag(order, m) == Bag(order, m')
  {
    if order != [] {
      BagFrame(order[1..], m, m');
    }
  }

  lemma {:induction false} BagWithout(order: seq<Key>, m: map<Key, Entry>, k: Key)
    requires Unique(order) && k in order && forall x :: x in order ==> x in m
    ensures forall x :: x in Without(order, k) ==> x in m
    ensures Bag(order, m) == Bag(Without(order, k), m) + multiset{m[k].instance}
  {
    WithoutMembers(order, k);
    assert order == [order[0]] + order[1..];
    WithoutMembers(order[1..], k);
    if order[0] != k {
      BagWithout(order[1..], m, k);
      assert Without(order, k)[1..] == Without(order[1..], k);
    }
  }

  lemma BagRemove(order: seq<Key>, m: map<Key, Entry>, k: Key)
    requires Agree(order, m) && k in m
    ensures Agree(Without(order, k), m - {k})
    ensures Bag(order, m) == Bag(Without(order, k), m - {k}) + multiset{m[k].instance}
  {
    WithoutMembers(order, k);
    WithoutUnique(order, k);
    BagWithout(order, m, k);
    BagFrame(Without(order, k), m, m - {k});
  }

  lemma BagPush(order: seq<Key>, m: map<Key, Entry>, e: Entry)
    requires Agree(order, m) && e.instance.key !in m
    ensures Bag([e.instance.key] + order, m[e.instance.key := e]) == Bag(order, m) + multiset{e.instance}
  {
    var k := e.instance.key;
    BagFrame(order, m, m[k := e]);
    assert ([k] + order)[1..] == order;
  }

  /** The cached sessions, from the least recently used on. */
  function FromBack(order: seq<Key>, entries: map<Key, Entry>): seq<Instance>
    requires forall k :: k in order ==> k in entries
  {
    if order == [] then []
    else [entries[order[|order| - 1]].instance] + FromBack(order[..|order| - 1], entries)
  }

  lemma {:induction false} FromBackCons(order: seq<Key>, m: map<Key, Entry>)
    requires order != [] && forall k :: k in order ==> k in m
    ensures FromBack(order, m) == FromBack(order[1..], m) + [m[order[0]].instance]
  {
    var n := |order| - 1;
    var last := m[order[n]].instance;
    if n > 0 {
      var mid := order[1..][..n - 1];
      FromBackCons(order[..n], m);
      assert order[..n][1..] == mid;
      assert FromBack(order[1..], m) == [last] + FromBack(mid, m);
      var first := m[order[0]].instance;
      assert [last] + (FromBack(mid, m) + [first]) == ([last] + FromBack(mid, m)) + [first];
    }
  }

  lemma {:induction false} BagIsFromBack(order: seq<Key>, m: map<Key, Entry>)
    requires forall k :: k in order ==> k in m
    ensures multiset(FromBack(order, m)) == Bag(order, m)
  {
    if order != [] {
      FromBackCons(order, m);
      BagIsFromBack(order[1..], m);
    }
  }

  lemma {:induction false} FromBackFrame(order: seq<Key>, m: map<Key, Entry>, m': map<Key, Entry>)
    requires forall k :: k in order ==> k in m && k in m' && m[k] == m'[k]
    ensures FromBack(order, m) == FromBack(order, m')
  {
    if order != [] {
      FromBackFrame(order[..|order| - 1], m, m');
    }
  }

  /** What has been closed and what is still to be, from the back, make up the whole. */
  ghost predicate Closing(order: seq<Key>, entries: map<Key, Entry>, closes: seq<Instance>, was: seq<Instance>,
                          all: seq<Instance>)
  {
    (forall k :: k in order ==> k in entries) && closes + FromBack(order, entries) == was + all
  }

  lemma ClosingStep(order: seq<Key>, entries: map<Key, Entry>, closes: seq<Instance>, was: seq<Instance>,
                    all: seq<Instance>)
    requires Agree(order, entries) && order != [] && Closing(order, entries, closes, was, all)
    ensures var last := order[|order| - 1];
            Closing(order[..|order| - 1], entries - {last}, closes + [entries[last].instance], was, all)
  {
    var n := |order| - 1;
    var inst, rest := entries[order[n]].instance, FromBack(order[..n], entries);
    FromBackFrame(order[..n], entries, entries - {order[n]});
    assert (closes + [inst]) + rest == closes + ([inst] + rest);
  }

  class Cache {
    const max: int
    const idleTTL: int
    var order: seq<Key>                 // front = most recently used
    var entries: map<Key, Entry>
    var closes: seq<Instance>
    var added: nat
    var removed: nat

    ghost predicate Valid()
      reads this
    {
      && Agree(order, entries) && |order| <= (if Enabled() then max else 0)
      && added == removed + |order|
    }

    /** Every session ever handed over: cached, or closed as often as it was closed. */
    ghost function Sessions(): multiset<Instance>
      reads this
      requires Agree(order, entries)
    {
      Bag(order, entries) + multiset(closes)
    }

    ghost predicate Enabled() {
      max > 0 && idleTTL > 0
    }

    constructor (max: int, idleTTL: int)
      ensures Valid() && this.max == max && this.idleTTL == idleTTL && order == [] && closes == []
    {
      this.max, this.idleTTL, order, entries, closes, added, removed := max, idleTTL, [], map[], [], 0, 0;
    }

    /** Takes key out, closes its session and tells the observer. */
    method Remove(key: Key)
      requires Valid() && key in entries
      modifies this
      ensures Valid() && order == Without(old(order), key) && entries == old(entries) - {key}
      ensures closes == old(closes) + [old(entries)[key].instance] && added == old(added)
      ensures |order| == |old(order)| - 1
      ensures forall now :: Recent(old(order), old(entries), now) ==> Recent(order, entries, now)
      ensures old(ClosedOnce(entries, closes)) ==> ClosedOnce(entries, closes)
      ensures Sessions() == old(Sessions())
    {
      RemoveKeeps(order, entries, key);
      BagRemove(order, entries, key);
      closes := closes + [entries[key].instance];
      order, entries := Without(order, key), entries - {key};
      removed := removed + 1;
    }

    /** A hit refreshes the key; an entry idle for longer than the TTL is closed and counts as a miss. */
    method Get(key: Key, now: int) returns (r: Option<Instance>)
      requires Valid()
      modifies this
      ensures Valid() && |order| <= |old(order)|
      ensures r.Some? <==>
                max > 0 && idleTTL > 0 && key in old(entries) && now - old(entries)[key].lastUsed <= idleTTL
      ensures r.Some? ==>
                && r.value == old(entries)[key].instance && closes == old(closes)
                && order == [key] + Without(old(order), key) && entries == old(entries)[key := Entry(r.value, now)]
      ensures r.None? && Enabled() && key in old(entries) ==>
                && order == Without(old(order), key) && entries == old(entries) - {key}
                && closes == old(closes) + [old(entries)[key].instance]
      ensures r.None? && !(Enabled() && key in old(entries)) ==>
                order == old(order) && entries == old(entries) && closes == old(closes)
      ensures old(Recent(order, entries, now)) ==> Recent(order, entries, now)
      ensures old(ClosedOnce(entries, closes)) ==> ClosedOnce(entries, closes)
      ensures Sessions() == old(Sessions())
    {
      if max <= 0 || idleTTL <= 0 || key !in entries {
        return None;
      }
      if now - entries[key].lastUsed > idleTTL {
        Remove(key);
        return None;
      }
      r := Some(entries[key].instance);
      Refresh(key, now);
    }

    method Refresh(key: Key, now: int)
      requires Valid() && key in entries
      modifies this`order, this`entries
      ensures Valid() && order == [key] + Without(old(order), key) && |order| == |old(order)|
      ensures entries == old(entries)[key := Entry(old(entries)[key].instance, now)]
      ensures old(Recent(order, entries, now)) ==> Recent(order, entries, now)
      ensures Bag(order, entries) == Bag(old(order), old(entries))
    {
      var e := Entry(entries[key].instance, now);
      RemoveKeeps(order, entries, key);
      PushKeeps(Without(order, key), entries - {key}, e, now);
      assert (entries - {key})[key := e] == entries[key := e];
      BagRemove(order, entries, key);
      BagPush(Without(order, key), entries - {key}, e);
      order, entries := [key] + Without(order, key), entries[key := e];
    }

    /** The session goes to the front under its key. */
    method Push(inst: Instance, now: int)
      requires Agree(order, entries) && Enabled() && |order| < max && added == removed + |order| && inst.key !in entries
      modifies this`order, this`entries, this`added
      ensures Valid() && order == [inst.key] + old(order) && entries == old(entries)[inst.key := Entry(inst, now)]
      ensures old(Recent(order, entries, now)) ==> Recent(order, entries, now)
      ensures ClosedOnce(old(entries), closes) ==> (ClosedOnce(entries, closes) <==> inst !in closes)
      ensures Sessions() == old(Sessions()) + multiset{inst}
    {
      PushKeeps(order, entries, Entry(inst, now), now);
      BagPush(order, entries, Entry(inst, now));
      order, entries, added := [inst.key] + order, entries[inst.key := Entry(inst, now)], added + 1;
      assert entries[inst.key].instance == inst;
    }

    /**
     A session of the same key is replaced and closed; a full cache closes its
     least recently used session first.  No session is closed twice and no
     closed one stays cached, exactly when inst is neither cached nor closed yet.
     */
    method Put(inst: Instance, now: int)
      requires Valid()
      modifies this
      ensures Valid()
      ensures max <= 0 || idleTTL <= 0 ==>
                order == old(order) && entries == old(entries) && closes == old(closes) + [inst]
      ensures max > 0 && idleTTL > 0 ==>
                order != [] && order[0] == inst.key && order[1..] <= Without(old(order), inst.key)
      ensures Enabled() ==> inst.key in entries && entries[inst.key] == Entry(inst, now)
      ensures Enabled() ==>
                forall k :: k in entries && k != inst.key ==> k in old(entries) && entries[k] == old(entries)[k]
      ensures Enabled() && inst.key in old(entries) ==>
                closes == old(closes) + [old(entries)[inst.key].instance] && |order| == |old(order)|
      ensures Enabled() && inst.key !in old(entries) && |old(order)| < max ==>
                closes == old(closes) && |order| == |old(order)| + 1
      ensures Enabled() && inst.key !in old(entries) && |old(order)| == max ==>
                |order| == max && closes == old(closes) + [old(entries)[old(order)[max - 1]].instance]
      ensures old(Recent(order, entries, now)) ==> Recent(order, entries, now)
      ensures old(ClosedOnce(entries, closes)) ==>
                (ClosedOnce(entries, closes) <==> !Known(old(entries), old(closes), inst))
      ensures Sessions() == old(Sessions()) + multiset{inst}
    {
      if max <= 0 || idleTTL <= 0 {
        if old(ClosedOnce(entries, closes)) {
          UniqueSnoc(closes, inst);
        }
        closes := closes + [inst];
        return;
      }
      MakeRoom(inst.key);
      Push(inst, now);
    }

    /** Takes out the key's own session, or the least recently used one of a full cache. */
    method MakeRoom(key: Key)
      requires Valid() && Enabled()
      modifies this
      ensures Valid() && |order| < max && key !in entries && order <= Without(old(order), key)
      ensures forall k :: k in entries ==> k in old(entries) && entries[k] == old(entries)[k]
      ensures key in old(entries) ==>
                closes == old(closes) + [old(entries)[key].instance] && |order| == |old(order)| - 1
      ensures key !in old(entries) && |old(order)| < max ==> closes == old(closes) && order == old(order)
      ensures key !in old(entries) && |old(order)| == max ==>
                |order| == max - 1 && closes == old(closes) + [old(entries)[old(order)[max - 1]].instance]
      ensures forall now :: Recent(old(order), old(entries), now) ==> Recent(order, entries, now)
      ensures old(ClosedOnce(entries, closes)) ==> ClosedOnce(entries, closes)
      ensures forall inst: Instance :: inst.key == key ==> (inst in closes <==> Known(old(entries), old(closes), inst))
      ensures Sessions() == old(Sessions())
    {
      if key in entries {
        Remove(key);
      } else {
        WithoutMembers(order, key);
        AgreeSize(order, entries);
        if |entries| >= max {
          RemoveOldest();
        }
      }
    }

    method RemoveOldest()
      requires Valid() && order != []
      modifies this
      ensures Valid() && order == old(order)[..|old(order)| - 1] && added == old(added)
      ensures var oldest := old(order)[|old(order)| - 1];
              && oldest in old(entries) && entries == old(entries) - {oldest}
              && closes == old(closes) + [old(entries)[oldest].instance]
      ensures forall now :: Recent(old(order), old(entries), now) ==> Recent(order, entries, now)
      ensures old(ClosedOnce(entries, closes)) ==> ClosedOnce(entries, closes)
      ensures Sessions() == old(Sessions())
    {
      WithoutLast(order);
      Remove(order[|order| - 1]);
    }

    method Evict(key: Key)
      requires Valid()
      modifies this
      ensures Valid() && order == Without(old(order), key) && entries == old(entries) - {key}
      ensures closes == old(closes) + (if key in old(entries) then [old(entries)[key].instance] else [])
      ensures forall now :: Recent(old(order), old(entries), now) ==> Recent(order, entries, now)
      ensures old(ClosedOnce(entries, closes)) ==> ClosedOnce(entries, closes)
      ensures Sessions() == old(Sessions())
    {
      if key !in entries {
        WithoutMembers(order, key);
        return;
      }
      Remove(key);
    }

    /** Every session is closed, the least recently used first. */
    method Close()
      requires Valid()
      modifies this
      ensures Valid() && order == [] && entries == map[] && added == removed
      ensures closes == old(closes) + FromBack(old(order), old(entries))
      ensures old(ClosedOnce(entries, closes)) ==> ClosedOnce(entries, closes)
      ensures Sessions() == old(Sessions())
    {
      ghost var all := FromBack(order, entries);
      BagIsFromBack(order, entries);
      CloseAll();
      assert multiset(old(closes) + all) == multiset(old(closes)) + multiset(all);
    }

    method CloseAll()
      requires Valid()
      modifies this
      ensures Valid() && order == [] && entries == map[]
      ensures closes == old(closes) + FromBack(old(order), old(entries))
      ensures old(ClosedOnce(entries, closes)) ==> ClosedOnce(entries, closes)
    {
      ghost var was, all := closes, FromBack(order, entries);
      while |order| > 0
        invariant Valid() && Closing(order, entries, closes, was, all)
        invariant old(ClosedOnce(entries, closes)) ==> ClosedOnce(entries, closes)
        decreases |order|
      {
        ClosingStep(order, entries, closes, was, all);
        RemoveOldest();
      }
    }

    method Len() returns (n: nat)
      requires Valid()
      ensures n == |order| == added - removed
    {
      AgreeSize(order, entries);
      n := |entries|;
    }
  }

  // -------------------------------------------------------- sequential runs

  datatype Op = GetOp(key: Key, now: int) | PutOp(inst: Instance, now: int) | EvictOp(key: Key) | CloseOp

  /** The sessions handed over by a sequence of operations. */
  function Puts(ops: seq<Op>): multiset<Instance> {
    if ops == [] then multiset{}
    else
      var last := ops[|ops| - 1];
      Puts(ops[..|ops| - 1]) + if last.PutOp? then multiset{last.inst} else multiset{}
  }

  /** The clock the operations read does not go back, and is never before from. */
  ghost predicate Monotone(ops: seq<Op>, from: int) {
    && (forall i :: 0 <= i < |ops| && Timed(ops[i]) ==> from <= ops[i].now)
    && forall i, j :: 0 <= i < j < |ops| && Timed(ops[i]) && Timed(ops[j]) ==> ops[i].now <= ops[j].now
  }

  predicate Timed(op: Op) {
    op.GetOp? || op.PutOp?
  }

  method Perform(c: Cache, op: Op, ghost t: int)
    requires c.Valid() && (Timed(op) ==> t <= op.now)
    modifies c
    ensures c.Valid() && c.Sessions() == old(c.Sessions()) + (if op.PutOp? then multiset{op.inst} else multiset{})
    ensures old(Recent(c.order, c.entries, t)) ==> Recent(c.order, c.entries, if Timed(op) then op.now else t)
  {
    match op
    case GetOp(key, now) =>
      LaterRecent(c.order, c.entries, t, now);
      var r := c.Get(key, now);
    case PutOp(inst, now) =>
      LaterRecent(c.order, c.entries, t, now);
      c.Put(inst, now);
    case EvictOp(key) => c.Evict(key);
    case CloseOp => c.Close();
  }

  lemma LaterRecent(order: seq<Key>, entries: map<Key, Entry>, t: int, now: int)
    requires forall k :: k in order ==> k in entries
    ensures t <= now && Recent(order, entries, t) ==> Recent(order, entries, now)
  {
  }

  /** The last clock reading of a sequence of operations, or from. */
  function LastRead(ops: seq<Op>, from: int): int {
    if ops == [] then from
    else
      var last := ops[|ops| - 1];
      if Timed(last) then last.now else LastRead(ops[..|ops| - 1], from)
  }

  lemma {:induction false} LastReadBound(ops: seq<Op>, from: int, n: nat)
    requires n < |ops| && Monotone(ops, from) && Timed(ops[n])
    ensures LastRead(ops[..n], from) <= ops[n].now
  {
    LastReadIsOne(ops[..n], from);
  }

  lemma {:induction false} LastReadIsOne(ops: seq<Op>, from: int)
    ensures || LastRead(ops, from) == from
            || exists i :: 0 <= i < |ops| && Timed(ops[i]) && ops[i].now == LastRead(ops, from)
  {
    if ops != [] && !Timed(ops[|ops| - 1]) {
      LastReadIsOne(ops[..|ops| - 1], from);
    }
  }

  lemma Twice(s: seq<Instance>, i: nat, j: nat)
    requires i < j < |s| && s[i] == s[j]
    ensures multiset(s)[s[i]] >= 2
  {
    assert s == s[..j] + [s[j]] + s[j + 1..];
    assert s[i] in s[..j];
  }

  /** If nothing was handed over twice, nothing is closed twice and nothing cached has been closed. */
  lemma HandedOverOnce(order: seq<Key>, entries: map<Key, Entry>, closes: seq<Instance>)
    requires Agree(order, entries) && forall i :: (Bag(order, entries) + multiset(closes))[i] <= 1
    ensures ClosedOnce(entries, closes)
  {
    var all := Bag(order, entries) + multiset(closes);
    forall i, j | 0 <= i < j < |closes| ensures closes[i] != closes[j] {
      assert all[closes[i]] <= 1;
      if closes[i] == closes[j] {
        Twice(closes, i, j);
      }
    }
    forall k | k in entries ensures entries[k].instance !in closes {
      var inst := entries[k].instance;
      BagWithout(order, entries, k);
      assert Bag(order, entries)[inst] >= 1;
      assert all[inst] <= 1;
      assert inst in closes <==> inst in multiset(closes);
    }
  }

  /**
   Over any sequence of operations on an empty cache: nothing handed over is
   lost or closed twice beyond its own number, so that a session handed over
   once is cached or has been closed once; under a clock that does not go back
   the last-use times fall from front to back; and the length is adds minus removes.
   */
  method Run(c: Cache, ops: seq<Op>, from: int)
    requires c.Valid() && c.order == [] && c.closes == []
    modifies c
    ensures c.Valid() && Bag(c.order, c.entries) + multiset(c.closes) == Puts(ops)
    ensures Monotone(ops, from) ==> Recent(c.order, c.entries, LastRead(ops, from))
  {
    ghost var steady := Monotone(ops, from);
    for i := 0 to |ops|
      invariant c.Valid() && c.Sessions() == Puts(ops[..i])
      invariant steady ==> Recent(c.order, c.entries, LastRead(ops[..i], from))
    {
      ghost var t := LastRead(ops[..i], from);
      if steady && Timed(ops[i]) {
        LastReadBound(ops, from, i);
      } else if Timed(ops[i]) {
        t := ops[i].now;
      }
      OneMore(ops, i, from);
      Perform(c, ops[i], t);
    }
    assert ops[..|ops|] == ops;
  }

  lemma OneMore(ops: seq<Op>, i: nat, from: int)
    requires i < |ops|
    ensures Puts(ops[..i + 1]) == Puts(ops[..i]) + (if ops[i].PutOp? then multiset{ops[i].inst} else multiset{})
    ensures LastRead(ops[..i + 1], from) == if Timed(ops[i]) then ops[i].now else LastRead(ops[..i], from)
  {
    assert ops[..i + 1][..i] == ops[..i];
  }

  lemma {:induction false} WithoutLast(s: seq<Key>)
    requires Unique(s) && s != []
    ensures Without(s, s[|s| - 1]) == s[..|s| - 1]
  {
    var n := |s| - 1;
    if n == 0 {
      assert s[1..] == [];
    } else {
      WithoutLast(s[1..]);
      assert s[1..][..n - 1] == s[..n][1..];
      assert [s[0]] + s[1..n] == s[..n];
    }
  }
}
