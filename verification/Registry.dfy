/**
 The refcounted registry of open databases.  Each method is one critical
 section of the runtime's mutex or one teardown outside it, so an interleaving
 of callers is a sequence of calls, and what Valid says holds in all of them.

 An entry is a reference into table.  due holds the entries some caller has
 decided to tear down and not torn down yet; held records, for the proof, which
 entry each caller has.
 */
module Registry {
  import opened Wrappers
  import opened Recency

  type Key = nat       // database identity and storage profile
  type Ref = nat
  type Caller = nat

  datatype Entry = Entry(key: Key, refs: int, evicted: bool)

  /** The registry's fields as one value. */
  datatype View = View(
    dbs: map<Key, Ref>,
    order: seq<Ref>,             // front = most recently used
    table: map<Ref, Entry>,      // every entry ever made
    born: Ref,
    due: set<Ref>,
    torn: seq<Ref>,              // teardowns, in order
    held: map<Caller, Ref>)

  ghost function Of(held: map<Caller, Ref>, p: Ref): set<Caller> {
    set c | c in held && held[c] == p
  }

  // ------------------------------------------------------------ the invariant

  /** The map and the list hold the same entries: exactly those not evicted. */
  ghost predicate Linked(v: View) {
    && Unique(v.order) && (forall p :: p in v.table ==> p < v.born)
    && (forall k :: k in v.dbs ==> v.dbs[k] in v.table && v.table[v.dbs[k]].key == k && !v.table[v.dbs[k]].evicted)
    && (forall p :: p in v.table && !v.table[p].evicted ==> v.table[p].key in v.dbs && v.dbs[v.table[p].key] == p)
    && forall p :: p in v.order <==> p in v.table && !v.table[p].evicted
  }

  /** An entry's count is the number of callers that have it. */
  ghost predicate Counted(v: View) {
    && (forall c :: c in v.held ==> v.held[c] in v.table)
    && forall p :: p in v.table ==> v.table[p].refs == |Of(v.held, p)|
  }

  predicate Idle(e: Entry) {
    e.evicted && e.refs == 0
  }

  /** Exactly the evicted entries nobody has are torn down or due to be, once. */
  ghost predicate Fated(v: View) {
    && Unique(v.torn) && (forall p :: p in v.torn ==> p !in v.due)
    && forall p :: p in v.due || p in v.torn <==> p in v.table && Idle(v.table[p])
  }

  /** No entry ever made is forgotten. */
  ghost predicate Remembered(v: View) {
    forall p: Ref :: p < v.born ==> p in v.table
  }

  ghost predicate Ok(v: View) {
    Linked(v) && Counted(v) && Fated(v) && Remembered(v)
  }

  /** As many entries in the list as in the map. */
  lemma SameSize(v: View)
    requires Linked(v)
    ensures |v.dbs| == |v.order|
  {
    UniqueSize(v.order);
    KeysCount(v.dbs.Keys, v.dbs, Members(v.order));
  }

  lemma {:induction false} KeysCount(ks: set<Key>, m: map<Key, Ref>, s: set<Ref>)
    requires ks <= m.Keys && (forall k :: k in ks ==> m[k] in s)
    requires forall k, l :: k in ks && l in ks && m[k] == m[l] ==> k == l
    requires forall p :: p in s ==> exists k :: k in ks && m[k] == p
    ensures |ks| == |s|
    decreases |ks|
  {
    if ks == {} {
      assert s == {};
    } else {
      var k :| k in ks;
      forall p | p in s - {m[k]} ensures exists l :: l in ks - {k} && m[l] == p {
        var l :| l in ks && m[l] == p;
        assert l in ks - {k};
      }
      KeysCount(ks - {k}, m, s - {m[k]});
    }
  }

  // ------------------------------------------------------------- the sections

  /** A caller takes an entry that exists. */
  function Taken(v: View, p: Ref, c: Caller): View
    requires p in v.table
  {
    v.(table := v.table[p := v.table[p].(refs := v.table[p].refs + 1)], held := v.held[c := p],
       order := [p] + Without(v.order, p))
  }

  lemma CountTake(held: map<Caller, Ref>, c: Caller, p: Ref)
    requires c !in held
    ensures |Of(held[c := p], p)| == |Of(held, p)| + 1 && forall q :: q != p ==> Of(held[c := p], q) == Of(held, q)
  {
    assert Of(held[c := p], p) == Of(held, p) + {c};
  }

  lemma TakeKeeps(v: View, p: Ref, c: Caller)
    requires Ok(v) && p in v.order && c !in v.held
    ensures Ok(Taken(v, p, c))
  {
    TakeLinked(v, p, c);
    CountTake(v.held, c, p);
  }

  lemma TakeLinked(v: View, p: Ref, c: Caller)
    requires Linked(v) && p in v.order
    ensures Linked(Taken(v, p, c))
  {
    WithoutMembers(v.order, p);
    WithoutUnique(v.order, p);
  }

  /** A new entry at the front, already taken. */
  function Opened(v: View, key: Key, c: Caller): View {
    v.(dbs := v.dbs[key := v.born], order := [v.born] + v.order, table := v.table[v.born := Entry(key, 1, false)],
       born := v.born + 1, held := v.held[c := v.born])
  }

  lemma OpenKeeps(v: View, key: Key, c: Caller)
    requires Ok(v) && key !in v.dbs && c !in v.held
    ensures Ok(Opened(v, key, c))
  {
    assert Of(v.held, v.born) == {};
    CountTake(v.held, c, v.born);
    OpenLinked(v, key, c);
    assert v.born !in v.table;
  }

  lemma OpenLinked(v: View, key: Key, c: Caller)
    requires Linked(v) && key !in v.dbs
    ensures Linked(Opened(v, key, c))
  {
    assert v.born !in v.table;
  }

  /** The least recently used entry leaves, and is due at once when nobody has it. */
  function Popped(v: View): View
    requires v.order != [] && v.order[|v.order| - 1] in v.table
  {
    var n := |v.order| - 1;
    var p := v.order[n];
    var e := v.table[p].(evicted := true);
    v.(dbs := v.dbs - {e.key}, order := v.order[..n], table := v.table[p := e],
       due := if e.refs == 0 then v.due + {p} else v.due)
  }

  lemma PopKeeps(v: View)
    requires Ok(v) && v.order != []
    ensures Ok(Popped(v)) && |Popped(v).order| == |v.order| - 1
  {
    PopLinked(v);
  }

  /** The most recently used entries that fit are left, in the same order. */
  ghost predicate LeastRecentOut(was: seq<Ref>, order: seq<Ref>, limit: nat) {
    order <= was && |order| == if |was| <= limit then |was| else limit
  }

  /** p is the key's resident entry and the most recently used. */
  ghost predicate Fronts(v: View, p: Ref, key: Key) {
    v.order != [] && v.order[0] == p && p in v.table && v.table[p].key == key && !v.table[p].evicted
  }

  lemma PopFront(v: View, p: Ref, key: Key)
    requires Ok(v) && |v.order| > 1 && Fronts(v, p, key)
    ensures Fronts(Popped(v), p, key) && |Popped(v).dbs| == |Popped(v).order| == |v.order| - 1
  {
    PopKeeps(v);
    SameSize(Popped(v));
    var n := |v.order| - 1;
    assert v.order[0] != v.order[n];
  }

  /** The eviction loop's state. */
  ghost predicate Evicting(v: View, p: Ref, key: Key, was: seq<Ref>, limit: nat) {
    && Ok(v) && |v.dbs| == |v.order| && Fronts(v, p, key)
    && v.order <= was && (|v.order| >= limit || v.order == was)
  }

  lemma EvictingStarts(v: View, p: Ref, key: Key, limit: nat)
    requires Ok(v) && Fronts(v, p, key)
    ensures Evicting(v, p, key, v.order, limit)
  {
    SameSize(v);
  }

  lemma EvictingPops(v: View, p: Ref, key: Key, was: seq<Ref>, limit: nat)
    requires Evicting(v, p, key, was, limit) && |v.dbs| > limit >= 1
    ensures v.order[|v.order| - 1] in v.table && Evicting(Popped(v), p, key, was, limit)
  {
    PopKeeps(v);
    PopFront(v, p, key);
  }

  lemma PopLinked(v: View)
    requires Linked(v) && v.order != []
    ensures Linked(Popped(v))
  {
    var n := |v.order| - 1;
    assert v.order == v.order[..n] + [v.order[n]];
  }

  function Dropped(v: View, c: Caller): View
    requires c in v.held && v.held[c] in v.table
  {
    var p := v.held[c];
    var e := v.table[p].(refs := v.table[p].refs - 1);
    v.(table := v.table[p := e], held := v.held - {c}, due := if Idle(e) then v.due + {p} else v.due)
  }

  lemma CountDrop(held: map<Caller, Ref>, c: Caller)
    requires c in held
    ensures |Of(held - {c}, held[c])| == |Of(held, held[c])| - 1
    ensures forall q :: q != held[c] ==> Of(held - {c}, q) == Of(held, q)
  {
    assert Of(held, held[c]) == Of(held - {c}, held[c]) + {c};
  }

  lemma DropKeeps(v: View, c: Caller)
    requires Ok(v) && c in v.held
    ensures v.table[v.held[c]].refs > 0 && Ok(Dropped(v, c))
  {
    CountDrop(v.held, c);
    assert c in Of(v.held, v.held[c]);
    DropFated(v, c);
  }

  lemma DropFated(v: View, c: Caller)
    requires Fated(v) && c in v.held && v.held[c] in v.table && v.table[v.held[c]].refs > 0
    ensures Fated(Dropped(v, c))
  {
  }

  /** Every resident entry leaves. */
  function Shut(v: View): View {
    v.(dbs := map[], order := [], table := map p | p in v.table :: v.table[p].(evicted := true),
       due := v.due + set p | p in v.table && !v.table[p].evicted && v.table[p].refs == 0)
  }

  lemma ShutKeeps(v: View)
    requires Ok(v)
    ensures Ok(Shut(v))
  {
  }

  function TornDown(v: View, p: Ref): View {
    v.(due := v.due - {p}, torn := v.torn + [p])
  }

  lemma TearKeeps(v: View, p: Ref)
    requires Ok(v) && p in v.due
    ensures Ok(TornDown(v, p))
  {
    assert p !in v.torn;
  }

  // ------------------------------------------------------------ what it means

  /** Nobody has a torn-down entry, and no entry is torn down twice. */
  lemma NeverTornInUse(v: View, p: Ref)
    requires Ok(v) && (p in v.torn || p in v.due)
    ensures forall c :: c in v.held ==> v.held[c] != p
    ensures Unique(v.torn)
  {
    assert |Of(v.held, p)| == 0;
    forall c | c in v.held ensures v.held[c] != p {
      assert v.held[c] == p ==> c in Of(v.held, p);
    }
  }

  /** Shut, with nothing held and nothing due, every entry ever made has been torn down. */
  lemma NothingLeaks(v: View)
    requires Ok(v) && v.order == [] && v.held == map[] && v.due == {}
    ensures forall p: Ref :: p < v.born <==> p in v.torn
  {
    forall p | p in v.table ensures Idle(v.table[p]) {
      assert Of(v.held, p) == {};
    }
  }

  // ----------------------------------------------------------------- the code

  class Runtime {
    var dbs: map<Key, Ref>
    var order: seq<Ref>
    var table: map<Ref, Entry>
    var born: Ref
    var closed: bool
    const limit: nat
    ghost var due: set<Ref>
    ghost var torn: seq<Ref>
    ghost var held: map<Caller, Ref>

    ghost function Now(): View
      reads this
    {
      View(dbs, order, table, born, due, torn, held)
    }

    ghost predicate Valid()
      reads this
    {
      Ok(Now()) && 1 <= limit && |dbs| <= limit && (closed ==> order == [])
    }

    constructor (maxReadInstances: int)
      ensures Valid() && !closed && limit >= 1 && table == map[] && held == map[] && due == {} && torn == []
      ensures limit == if maxReadInstances <= 0 then 64 else maxReadInstances
    {
      dbs, order, table, born, closed := map[], [], map[], 0, false;
      limit := if maxReadInstances <= 0 then 64 else maxReadInstances;
      due, torn, held := {}, [], map[];
    }

    /**
     A reference to the key's entry: the resident one, or a new one that pushes
     out the least recently used.  None when closed or when registering fails.
     */
    method Database(key: Key, registers: bool, ghost c: Caller) returns (r: Option<Ref>)
      requires Valid() && c !in held
      modifies this
      ensures Valid() && closed == old(closed) && torn == old(torn)
      ensures r.None? <==> old(closed) || (key !in old(dbs) && !registers)
      ensures r.None? ==> Now() == old(Now())
      ensures born == if r.Some? && key !in old(dbs) then old(born) + 1 else old(born)
      ensures r.Some? ==>
                && held == old(held)[c := r.value] && Fronts(Now(), r.value, key)
                && r.value == if key in old(dbs) then old(dbs)[key] else old(born)
      ensures r.Some? && key in old(dbs) ==> dbs == old(dbs) && order == [r.value] + Without(old(order), r.value)
      ensures r.Some? && key !in old(dbs) ==> LeastRecentOut([r.value] + old(order), order, limit)
    {
      if closed {
        return None;
      }
      if key in dbs {
        var p := Take(key, c);
        return Some(p);
      }
      if !registers {
        return None;
      }
      var p := Add(key, c);
      return Some(p);
    }

    method Add(key: Key, ghost c: Caller) returns (p: Ref)
      requires Ok(Now()) && limit >= 1 && key !in dbs && c !in held
      modifies this`dbs, this`order, this`table, this`born, this`held, this`due
      ensures Ok(Now()) && |dbs| <= limit && Fronts(Now(), p, key)
      ensures p == old(born) && born == p + 1 && held == old(held)[c := p]
      ensures LeastRecentOut([p] + old(order), order, limit)
    {
      p := OpenNew(key, c);
      EvictOverLimit(p, key);
    }

    method Take(key: Key, ghost c: Caller) returns (p: Ref)
      requires Ok(Now()) && key in dbs && c !in held
      modifies this`order, this`table, this`held
      ensures Ok(Now()) && Fronts(Now(), p, key)
      ensures p == old(dbs)[key] && held == old(held)[c := p] && order == [p] + Without(old(order), p)
    {
      p := dbs[key];
      TakeKeeps(Now(), p, c);
      order := [p] + Without(order, p);
      table := table[p := table[p].(refs := table[p].refs + 1)];
      held := held[c := p];
      assert Now() == Taken(old(Now()), p, c);
    }

    method OpenNew(key: Key, ghost c: Caller) returns (p: Ref)
      requires Ok(Now()) && key !in dbs && c !in held
      modifies this`table, this`order, this`dbs, this`born, this`held
      ensures Ok(Now()) && p == old(born) && Now() == Opened(old(Now()), key, c) && Fronts(Now(), p, key)
    {
      OpenKeeps(Now(), key, c);
      p := born;
      table, order, dbs, born := table[p := Entry(key, 1, false)], [p] + order, dbs[key := p], born + 1;
      held := held[c := p];
    }

    /** Evicts from the back down to the limit; the entry at the front stays. */
    method EvictOverLimit(ghost p: Ref, ghost key: Key)
      requires Ok(Now()) && limit >= 1 && Fronts(Now(), p, key)
      modifies this`dbs, this`order, this`table, this`due
      ensures Ok(Now()) && |dbs| <= limit && Fronts(Now(), p, key) && LeastRecentOut(old(order), order, limit)
    {
      EvictingStarts(Now(), p, key, limit);
      while |dbs| > limit
        invariant Evicting(Now(), p, key, old(order), limit)
        decreases |order|
      {
        EvictingPops(Now(), p, key, old(order), limit);
        PopOne();
      }
    }

    method PopOne()
      requires Ok(Now()) && order != []
      modifies this`dbs, this`order, this`table, this`due
      ensures Ok(Now()) && old(order)[|old(order)| - 1] in old(table) && Now() == Popped(old(Now()))
    {
      PopKeeps(Now());
      var n := |order| - 1;
      var oldest := order[n];
      var e := table[oldest].(evicted := true);
      dbs, order, table := dbs - {e.key}, order[..n], table[oldest := e];
      if e.refs == 0 {
        due := due + {oldest};
      }
    }

    /** Gives a reference back; the last one of an evicted entry makes it due. */
    method ReleaseDatabase(p: Ref, ghost c: Caller)
      requires Valid() && c in held && held[c] == p
      modifies this
      ensures Valid() && closed == old(closed) && torn == old(torn)
      ensures held == old(held) - {c} && dbs == old(dbs) && order == old(order) && born == old(born)
      ensures p in due <==> p in table && table[p].evicted && forall x :: x in held ==> held[x] != p
    {
      DropKeeps(Now(), c);
      var e := table[p].(refs := table[p].refs - 1);
      table := table[p := e];
      held := held - {c};
      if e.evicted && e.refs == 0 {
        due := due + {p};
      }
      assert Now() == Dropped(old(Now()), c);
      LastHolder(old(Now()), c);
    }

    /** Runs outside the mutex, some time after its entry became due. */
    method TeardownDatabase(p: Ref)
      requires Valid() && p in due
      modifies this`due, this`torn
      ensures Valid() && torn == old(torn) + [p] && due == old(due) - {p}
      ensures p !in old(torn) && forall c :: c in held ==> held[c] != p
    {
      NeverTornInUse(Now(), p);
      TearKeeps(Now(), p);
      due, torn := due - {p}, torn + [p];
    }

    /** No entry is resident afterwards; each that nobody holds is due, and the others when their holders leave. */
    method Close()
      requires Valid()
      modifies this
      ensures Valid() && closed && order == [] && held == old(held) && torn == old(torn) && born == old(born)
      ensures forall p :: p in due <==> p in old(due) || (p in old(order) && forall c :: c in held ==> held[c] != p)
    {
      if closed {
        return;
      }
      closed := true;
      ShutKeeps(Now());
      table := map p | p in table :: table[p].(evicted := true);
      due := due + set p | p in old(table) && !old(table)[p].evicted && old(table)[p].refs == 0;
      dbs, order := map[], [];
      assert Now() == Shut(old(Now()));
      ShutDue(old(Now()));
    }
  }

  /** What becomes due when every resident leaves. */
  lemma ShutDue(v: View)
    requires Ok(v)
    ensures forall p :: p in Shut(v).due <==> p in v.due || (p in v.order && forall c :: c in v.held ==> v.held[c] != p)
  {
    forall p | p in v.order ensures v.table[p].refs == 0 <==> forall c :: c in v.held ==> v.held[c] != p {
      NobodyHas(v.held, p);
    }
  }

  lemma NobodyHas(held: map<Caller, Ref>, p: Ref)
    ensures |Of(held, p)| == 0 <==> forall c :: c in held ==> held[c] != p
  {
    assert forall c :: c in held && held[c] == p ==> c in Of(held, p);
    if |Of(held, p)| != 0 {
      var c :| c in Of(held, p);
    }
  }

  lemma LastHolder(v: View, c: Caller)
    requires Ok(v) && c in v.held && Ok(Dropped(v, c))
    ensures var v' := Dropped(v, c);
            var p := v.held[c];
            p in v'.due <==> p in v'.table && v'.table[p].evicted && forall x :: x in v'.held ==> v'.held[x] != p
  {
    var v' := Dropped(v, c);
    var p := v.held[c];
    assert c in Of(v.held, p);
    assert p !in v.due && p !in v.torn;
    assert v'.table[p].refs == 0 <==> Of(v'.held, p) == {};
    assert Of(v'.held, p) == {} <==> forall x :: x in v'.held ==> v'.held[x] != p;
  }
}
