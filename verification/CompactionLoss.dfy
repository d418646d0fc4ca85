/**
 How compaction loses TXIDs, from an empty replica on, at threshold 3: writes,
 passes that delete only sources of their own, one flush whose manifest PUT is
 lost, the repair that follows it, and passes again.
 */
module CompactionLoss {
  import opened Levels
  import opened CompactionPass

  const THRESHOLD: nat := 3

  /**
   What the manifest lists, what the store holds, how many TXIDs have been
   flushed, and which of them belong to writes that were never acknowledged.
   */
  datatype Replica = Replica(manifest: set<File>, store: set<File>, flushed: nat, unsure: set<nat>)

  datatype Move =
    | Write                                            // the next TXID, flushed and indexed
    | Flush                                            // the next TXID, flushed and not indexed
    | Repair                                           // rebuilt from the listing, for the last TXID's sake
    | Compact(ms: seq<File>, deleted: set<File>)       // one pass and some of its deletions

  function Tail(t: nat): File {
    File(0, t, t)
  }

  /** The database can be opened where it ends: the listed files exist and hold everything flushed. */
  ghost predicate Openable(r: Replica) {
    && r.manifest <= r.store && CoversUpTo(r.manifest, r.flushed) && Within(r.store, r.flushed)
  }

  /** The candidates of info hold every TXID of its range. */
  ghost predicate NoHole(x: set<File>, info: File) {
    forall t :: Has(info, t) ==> Covers(Candidates(x, info.level), t)
  }

  ghost predicate Seamless(x: set<File>, ms: seq<File>)
    decreases |ms|
  {
    ms == [] || (NoHole(x, ms[0]) && Seamless(x + {ms[0]}, ms[1..]))
  }

  ghost predicate Compacted(r: Replica, r': Replica, ms: seq<File>, deleted: set<File>) {
    && Openable(r) && r.manifest != {} && IsPass(r.manifest, THRESHOLD, 1, ms) && ms != [] && Seamless(r.manifest, ms)
    && var sources := Sources(r.manifest, ms);
    && deleted <= sources
    && r' == Replica(Published(r.manifest, ms, sources), (r.store + AsSet(ms)) - deleted, r.flushed, r.unsure)
  }

  ghost predicate Moves(r: Replica, r': Replica, move: Move) {
    match move
    case Write =>
      var next := {Tail(r.flushed + 1)};
      Openable(r) && r' == Replica(r.manifest + next, r.store + next, r.flushed + 1, r.unsure)
    case Flush =>
      && Openable(r) && r.manifest != {}
      && r' == Replica(r.manifest, r.store + {Tail(r.flushed + 1)}, r.flushed + 1, r.unsure + {r.flushed + 1})
    case Repair =>
      && r.flushed >= 2 && Within(r.manifest, r.flushed - 1) && Within(r.store, r.flushed)
      && r.manifest != {} && Tail(r.flushed) in r.store
      && r' == Replica(r.store, r.store, r.flushed, r.unsure)
    case Compact(ms, deleted) => Compacted(r, r', ms, deleted)
  }

  /** The moves of a replica, from empty on. */
  datatype History = Empty | Then(before: History, move: Move, replica: Replica)

  function End(h: History): Replica {
    match h
    case Empty => Replica({}, {}, 0, {})
    case Then(_, _, r) => r
  }

  ghost predicate IsHistory(h: History) {
    match h
    case Empty => true
    case Then(before, move, r) => IsHistory(before) && Moves(End(before), r, move)
  }

  /** Some history ends in r. */
  ghost predicate Arises(r: Replica) {
    exists h :: IsHistory(h) && End(h) == r
  }

  /** A replica that arises and can be opened. */
  ghost predicate Even(manifest: set<File>, store: set<File>, n: nat, u: set<nat>) {
    Arises(Replica(manifest, store, n, u)) && Openable(Replica(manifest, store, n, u))
  }

  lemma Extend(r: Replica, r': Replica, move: Move)
    requires Arises(r) && Moves(r, r', move)
    ensures Arises(r')
  {
    var h :| IsHistory(h) && End(h) == r;
    assert IsHistory(Then(h, move, r')) && End(Then(h, move, r')) == r';
  }

  /** A pass, by what it lists and leaves. */
  lemma Compacts(x: set<File>, store: set<File>, n: nat, u: set<nat>, ms: seq<File>, deleted: set<File>,
                 x': set<File>, store': set<File>)
    requires Even(x, store, n, u) && x != {} && IsPass(x, THRESHOLD, 1, ms) && ms != [] && Seamless(x, ms)
    requires deleted <= Sources(x, ms)
    requires x' == (x - Sources(x, ms)) + AsSet(ms) && store' == (store + AsSet(ms)) - deleted
    ensures Arises(Replica(x', store', n, u))
  {
    Extend(Replica(x, store, n, u), Replica(x', store', n, u), Compact(ms, deleted));
  }

  // ------------------------------------------------------- shapes of passes

  ghost predicate QuietFrom(x: set<File>, threshold: nat, l: nat) {
    forall k :: l <= k < TOP_LEVEL ==> |LevelFiles(x, k)| <= threshold
  }

  /** One turn fires and no later one. */
  lemma OneMerge(x: set<File>, threshold: nat, l: nat, info: File)
    requires 1 <= l <= TOP_LEVEL && Fires(x, threshold, l) && IsMerge(info, Candidates(x, l), l)
    requires QuietFrom(x + {info}, threshold, l)
    ensures IsPass(x, threshold, l, [info])
  {
    QuietPass(x + {info}, threshold, l + 1);
    PassCons(x, threshold, l, info, []);
    assert [info] + [] == [info];
  }

  /** Two turns in a row fire and no later one. */
  lemma TwoMerges(x: set<File>, threshold: nat, l: nat, i: File, j: File)
    requires 1 <= l < TOP_LEVEL && Fires(x, threshold, l) && IsMerge(i, Candidates(x, l), l)
    requires Fires(x + {i}, threshold, l + 1) && IsMerge(j, Candidates(x + {i}, l + 1), l + 1)
    requires QuietFrom(x + {i} + {j}, threshold, l + 1)
    ensures IsPass(x, threshold, l, [i, j])
  {
    OneMerge(x + {i}, threshold, l + 1, j);
    PassCons(x, threshold, l, i, [j]);
    assert [i] + [j] == [i, j];
  }

  /** The first turn is skipped and the second fires. */
  lemma SkipThenMerge(x: set<File>, threshold: nat, l: nat, info: File)
    requires 1 <= l < TOP_LEVEL && |LevelFiles(x, l - 1)| <= threshold
    requires Fires(x, threshold, l + 1) && IsMerge(info, Candidates(x, l + 1), l + 1)
    requires QuietFrom(x + {info}, threshold, l + 1)
    ensures IsPass(x, threshold, l, [info])
  {
    OneMerge(x, threshold, l + 1, info);
  }

  lemma OneSource(x: set<File>, i: File)
    ensures Sources(x, [i]) == Gone(x, i) && AsSet([i]) == {i}
  {
    assert [i][1..] == [];
  }

  lemma TwoSources(x: set<File>, i: File, j: File)
    ensures Sources(x, [i, j]) == Gone(x, i) + Gone(After(x, i), j) && AsSet([i, j]) == {i, j}
  {
    assert [i, j][1..] == [j];
    OneSource(After(x, i), j);
  }

  // ------------------------------------------------------------ four writes

  /** The level-0 files of the count writes after n. */
  function Tails(n: nat, count: nat): set<File> {
    set t | n < t <= n + count :: Tail(t)
  }

  lemma TailsStep(n: nat, count: nat)
    ensures Tails(n, count + 1) == Tails(n, count) + {Tail(n + count + 1)} && Tail(n + count + 1) !in Tails(n, count)
  {
  }

  lemma OneWrite(x: set<File>, store: set<File>, n: nat, u: set<nat>)
    requires Even(x, store, n, u)
    ensures Even(x + {Tail(n + 1)}, store + {Tail(n + 1)}, n + 1, u)
  {
    var next := {Tail(n + 1)};
    Extend(Replica(x, store, n, u), Replica(x + next, store + next, n + 1, u), Write);
    assert Tail(n + 1) in x + next && Has(Tail(n + 1), n + 1);
    CoversMore(x, x + next, n);
  }

  lemma {:induction false} Writes(x: set<File>, store: set<File>, n: nat, u: set<nat>, count: nat)
    requires Even(x, store, n, u)
    ensures Even(x + Tails(n, count), store + Tails(n, count), n + count, u)
  {
    if count == 0 {
      assert x + Tails(n, 0) == x && store + Tails(n, 0) == store;
    } else {
      Writes(x, store, n, u, count - 1);
      TailsStep(n, count - 1);
      OneWrite(x + Tails(n, count - 1), store + Tails(n, count - 1), n + count - 1, u);
      assert x + Tails(n, count - 1) + {Tail(n + count)} == x + Tails(n, count);
      assert store + Tails(n, count - 1) + {Tail(n + count)} == store + Tails(n, count);
    }
  }

  /** Files above level 0, none of level 1 reaching past n. */
  ghost predicate Base(hi: set<File>, n: nat) {
    forall f :: f in hi ==> f.level >= 1 && (f.level == 1 ==> f.max <= n)
  }

  lemma FourTails(n: nat)
    ensures Tails(n, 4) == {Tail(n + 1), Tail(n + 2), Tail(n + 3), Tail(n + 4)} && |Tails(n, 4)| == 4
  {
    assert Tails(n, 4) == {Tail(n + 1), Tail(n + 2), Tail(n + 3), Tail(n + 4)};
  }

  lemma TailsCover(n: nat, count: nat)
    ensures forall t :: n < t <= n + count ==> Covers(Tails(n, count), t)
  {
    forall t | n < t <= n + count ensures Covers(Tails(n, count), t) {
      assert Tail(t) in Tails(n, count) && Has(Tail(t), t);
    }
  }

  /** Four new files are over the threshold and are what the first turn merges. */
  lemma FourMerge(hi: set<File>, n: nat)
    requires Base(hi, n)
    ensures var x, i := hi + Tails(n, 4), File(1, n + 1, n + 4);
            && Fires(x, THRESHOLD, 1) && IsMerge(i, Candidates(x, 1), 1) && NoHole(x, i)
            && Gone(x, i) == Tails(n, 4) && (x - Gone(x, i)) + {i} == hi + {i}
  {
    var x, i := hi + Tails(n, 4), File(1, n + 1, n + 4);
    FourTails(n);
    assert LevelFiles(x, 0) == Tails(n, 4);
    assert Candidates(x, 1) == Tails(n, 4);
    assert Tail(n + 1) in Tails(n, 4) && Tail(n + 4) in Tails(n, 4);
    TailsCover(n, 4);
  }

  lemma OneSeamless(x: set<File>, i: File)
    requires NoHole(x, i)
    ensures Seamless(x, [i])
  {
    assert [i][1..] == [];
  }

  /** A pass over four new files with room in level 1. */
  lemma FourPass(hi: set<File>, store: set<File>, n: nat, u: set<nat>, deleted: set<File>)
    requires Even(hi + Tails(n, 4), store, n + 4, u) && Base(hi, n)
    requires QuietFrom(hi + {File(1, n + 1, n + 4)}, THRESHOLD, 1) && deleted <= Tails(n, 4)
    ensures Arises(Replica(hi + {File(1, n + 1, n + 4)}, (store + {File(1, n + 1, n + 4)}) - deleted, n + 4, u))
  {
    var x, i := hi + Tails(n, 4), File(1, n + 1, n + 4);
    FourMerge(hi, n);
    forall k: nat | 1 <= k < TOP_LEVEL ensures |LevelFiles(x + {i}, k)| <= THRESHOLD {
      assert LevelFiles(x + {i}, k) == LevelFiles(hi + {i}, k);
    }
    OneMerge(x, THRESHOLD, 1, i);
    OneSource(x, i);
    OneSeamless(x, i);
    assert Tail(n + 1) in x;
    Compacts(x, store, n + 4, u, [i], deleted, hi + {i}, (store + {i}) - deleted);
  }

  /** A replica above level 0 with room in level 1. */
  ghost predicate Roomy(hi: set<File>, store: set<File>, n: nat, u: set<nat>) {
    Even(hi, store, n, u) && Base(hi, n) && QuietFrom(hi + {File(1, n + 1, n + 4)}, THRESHOLD, 1)
  }

  lemma Longer(hi: set<File>, store: set<File>, n: nat, u: set<nat>, extra: set<File>)
    requires Openable(Replica(hi, store, n, u)) && Within(extra, n + 4)
    ensures Openable(Replica(hi + {File(1, n + 1, n + 4)}, store + {File(1, n + 1, n + 4)} + extra, n + 4, u))
  {
    var i := File(1, n + 1, n + 4);
    CoversMore(hi, hi + {i}, n);
    assert i in hi + {i};
    forall t | 1 <= t <= n + 4 ensures Covers(hi + {i}, t) {
      if t > n {
        assert Has(i, t);
      }
    }
  }

  /** Four writes and the pass after them, which deletes all its sources, */
  lemma Round(hi: set<File>, store: set<File>, n: nat, u: set<nat>)
    requires Roomy(hi, store, n, u)
    ensures Even(hi + {File(1, n + 1, n + 4)}, store + {File(1, n + 1, n + 4)}, n + 4, u)
  {
    var i := File(1, n + 1, n + 4);
    Writes(hi, store, n, u, 4);
    FourPass(hi, store + Tails(n, 4), n, u, Tails(n, 4));
    assert (store + Tails(n, 4) + {i}) - Tails(n, 4) == store + {i};
    Longer(hi, store, n, u, {});
    assert store + {i} + {} == store + {i};
  }

  /** or all but the last. */
  lemma RoundLeavingOne(hi: set<File>, store: set<File>, n: nat, u: set<nat>)
    requires Roomy(hi, store, n, u)
    ensures Even(hi + {File(1, n + 1, n + 4)}, store + {File(1, n + 1, n + 4)} + {Tail(n + 4)}, n + 4, u)
  {
    var i := File(1, n + 1, n + 4);
    Writes(hi, store, n, u, 4);
    TailsStep(n, 3);
    FourPass(hi, store + Tails(n, 4), n, u, Tails(n, 3));
    assert forall f :: f in store ==> f !in Tails(n, 3);
    assert (store + Tails(n, 4) + {i}) - Tails(n, 3) == store + {i} + {Tail(n + 4)};
    Longer(hi, store, n, u, {Tail(n + 4)});
  }

  /** Files of levels 1 and 2 only, at most three of each. */
  lemma SmallIsQuiet(x: set<File>, l: nat, one: set<File>, two: set<File>)
    requires l >= 1 && LevelFiles(x, 1) == one && LevelFiles(x, 2) == two && |two| <= THRESHOLD
    requires (l == 1 ==> |one| <= THRESHOLD) && forall f :: f in x ==> f.level <= 2
    ensures QuietFrom(x, THRESHOLD, l)
  {
    forall k: nat | l <= k < TOP_LEVEL ensures |LevelFiles(x, k)| <= THRESHOLD {
      if k >= 3 {
        assert LevelFiles(x, k) == {};
      }
    }
  }

  /** The pass over four new files in which level 1 overflows as well. */
  lemma FullPass(hi: set<File>, n: nat, i: File, j: File)
    requires Base(hi, n) && i == File(1, n + 1, n + 4) && |LevelFiles(hi + {i}, 1)| > THRESHOLD
    requires IsMerge(j, Candidates(hi + {i}, 2), 2) && NoHole(hi + {i}, j) && QuietFrom(hi + {i} + {j}, THRESHOLD, 2)
    ensures IsPass(hi + Tails(n, 4), THRESHOLD, 1, [i, j]) && Seamless(hi + Tails(n, 4), [i, j])
    ensures Sources(hi + Tails(n, 4), [i, j]) == Tails(n, 4) + Gone(hi + {i}, j) && AsSet([i, j]) == {i, j}
  {
    var x := hi + Tails(n, 4);
    FourMerge(hi, n);
    SameAbove0(x + {i}, hi + {i}, Tails(n, 4));
    forall k: nat | 2 <= k < TOP_LEVEL ensures |LevelFiles(x + {i} + {j}, k)| <= THRESHOLD {
      assert LevelFiles(x + {i} + {j}, k) == LevelFiles(hi + {i} + {j}, k);
    }
    TwoMerges(x, THRESHOLD, 1, i, j);
    TwoSources(x, i, j);
    OneSeamless(x + {i}, j);
    assert [i, j][1..] == [j];
  }

  lemma WithoutTails(hi: set<File>, tails: set<File>, gone: set<File>, merged: set<File>)
    requires (forall f :: f in hi ==> f.level >= 1) && forall f :: f in tails ==> f.level == 0
    ensures ((hi + tails) - (tails + gone)) + merged == (hi - gone) + merged
  {
  }

  lemma WithoutNew(store: set<File>, tails: set<File>, deleted: set<File>, merged: set<File>, n: nat)
    requires Within(store, n) && forall f :: f in tails ==> f.level == 0 && f.max > n
    requires forall f :: f in merged ==> f.level >= 1
    ensures (store + tails + merged) - (tails + deleted) == (store + merged) - deleted
  {
  }

  /** Four writes and that pass, which deletes the new files and some of level 1. */
  lemma FullRound(hi: set<File>, store: set<File>, n: nat, u: set<nat>, i: File, j: File, deleted: set<File>)
    requires Even(hi, store, n, u) && Base(hi, n)
    requires i == File(1, n + 1, n + 4) && |LevelFiles(hi + {i}, 1)| > THRESHOLD
    requires IsMerge(j, Candidates(hi + {i}, 2), 2) && NoHole(hi + {i}, j) && QuietFrom(hi + {i} + {j}, THRESHOLD, 2)
    requires deleted <= Gone(hi + {i}, j)
    ensures Arises(Replica((hi - Gone(hi + {i}, j)) + {i, j}, (store + {i, j}) - deleted, n + 4, u))
  {
    var x, gone, tails := hi + Tails(n, 4), Gone(hi + {i}, j), Tails(n, 4);
    FullPass(hi, n, i, j);
    Writes(hi, store, n, u, 4);
    WithoutTails(hi, tails, gone, {i, j});
    WithoutNew(store, tails, deleted, {i, j}, n);
    assert Tail(n + 1) in x;
    Compacts(x, store + tails, n + 4, u, [i, j], tails + deleted, (hi - gone) + {i, j}, (store + {i, j}) - deleted);
  }

  /** Level-0 files do not matter to the second turn. */
  lemma SameAbove0(x: set<File>, y: set<File>, tails: set<File>)
    requires x == y + tails && forall f :: f in tails ==> f.level == 0
    requires forall f :: f in y ==> f.level >= 1
    ensures LevelFiles(x, 1) == LevelFiles(y, 1) && Candidates(x, 2) == Candidates(y, 2)
  {
  }

  /** A set by its three lowest levels. */
  ghost predicate Split(x: set<File>, zero: set<File>, one: set<File>, two: set<File>) {
    && x == zero + one + two && (forall f :: f in zero ==> f.level == 0)
    && (forall f :: f in one ==> f.level == 1) && forall f :: f in two ==> f.level == 2
  }

  /** A merge of level 1 that reads the files above level 2 and retires all of them. */
  lemma LevelOneMerge(x: set<File>, zero: set<File>, one: set<File>, two: set<File>, cs: set<File>, j: File)
    requires Split(x, zero, one, two) && cs <= one && cs != {} && IsMerge(j, cs, 2)
    requires forall f :: f in one ==> f.max <= j.max && (f in cs <==> forall g :: g in two ==> g.max < f.min)
    ensures LevelFiles(x, 0) == zero && LevelFiles(x, 1) == one && Candidates(x, 2) == cs && Gone(x, j) == one
    ensures LevelFiles(x + {j}, 1) == one && LevelFiles(x + {j}, 2) == two + {j}
    ensures forall f :: f in x + {j} ==> f.level <= 2
  {
    assert LevelFiles(x, 1) == one && LevelFiles(x, 2) == two;
  }

  lemma LevelOnePass(x: set<File>, zero: set<File>, one: set<File>, two: set<File>, cs: set<File>, j: File)
    requires Split(x, zero, one, two) && cs <= one && cs != {} && IsMerge(j, cs, 2)
    requires forall f :: f in one ==> f.max <= j.max && (f in cs <==> forall g :: g in two ==> g.max < f.min)
    requires |zero| <= THRESHOLD < |one| && |two + {j}| <= THRESHOLD
    requires forall t :: Has(j, t) ==> Covers(cs, t)
    ensures IsPass(x, THRESHOLD, 1, [j]) && Sources(x, [j]) == one && AsSet([j]) == {j} && Seamless(x, [j])
  {
    LevelOneMerge(x, zero, one, two, cs, j);
    SmallIsQuiet(x + {j}, 2, one, two + {j});
    SkipThenMerge(x, THRESHOLD, 1, j);
    OneSource(x, j);
    OneSeamless(x, j);
  }

  lemma SplitDifference(x: set<File>, zero: set<File>, one: set<File>, two: set<File>, j: File)
    requires Split(x, zero, one, two) && j.level == 2
    ensures (x - one) + {j} == zero + two + {j} && (x + {j}) - one == zero + two + {j}
  {
  }

  /** A pass that only merges level 1, and deletes what it retires. */
  lemma OnlyLevelOne(x: set<File>, n: nat, u: set<nat>, zero: set<File>, one: set<File>, two: set<File>, j: File)
    requires Even(x, x, n, u) && Split(x, zero, one, two) && j.level == 2
    requires IsPass(x, THRESHOLD, 1, [j]) && Sources(x, [j]) == one && AsSet([j]) == {j} && Seamless(x, [j])
    ensures Arises(Replica(zero + two + {j}, zero + two + {j}, n, u))
  {
    SplitDifference(x, zero, one, two, j);
    Compacts(x, x, n, u, [j], one, zero + two + {j}, zero + two + {j});
  }

  // -------------------------------------------------------------- the history

  /** Four writes and a pass. */
  lemma Upto4()
    ensures Even({File(1, 1, 4)}, {File(1, 1, 4)}, 4, {})
  {
    var none: set<File> := {};
    FirstQuiet(none);
    Round(none, none, 0, {});
    assert none + {File(1, 1, 4)} == {File(1, 1, 4)};
  }

  lemma FirstQuiet(none: set<File>)
    requires none == {}
    ensures Roomy(none, none, 0, {})
  {
    assert IsHistory(Empty) && End(Empty) == Replica(none, none, 0, {});
    var x := none + {File(1, 1, 4)};
    assert LevelFiles(x, 1) == {File(1, 1, 4)} && LevelFiles(x, 2) == {};
    SmallIsQuiet(x, 1, {File(1, 1, 4)}, {});
  }

  lemma Upto8()
    ensures Even({File(1, 1, 4), File(1, 5, 8)}, {File(1, 1, 4), File(1, 5, 8)}, 8, {})
  {
    Upto4();
    var a, b := File(1, 1, 4), File(1, 5, 8);
    assert {a} + {b} == {a, b};
    SmallIsQuiet({a, b}, 1, {a, b}, {});
    Round({a}, {a}, 4, {});
  }

  ghost const THREE: set<File> := {File(1, 1, 4), File(1, 5, 8), File(1, 9, 12)}

  lemma Upto12()
    ensures Even(THREE, THREE, 12, {})
  {
    Upto8();
    var a, b, c := File(1, 1, 4), File(1, 5, 8), File(1, 9, 12);
    assert {a, b} + {c} == THREE;
    SmallIsQuiet(THREE, 1, {a, b, c}, {});
    Round({a, b}, {a, b}, 8, {});
  }

  ghost const LOW: set<File> := {File(1, 13, 16), File(2, 1, 16)}
  ghost const FOUR: set<File> := {File(1, 1, 4), File(1, 5, 8), File(1, 9, 12), File(1, 13, 16)}

  /** A level 1 under an empty level 2 is merged as a whole. */
  lemma WholeLevel(x: set<File>, lo: File, hi: File)
    requires lo in x && hi in x && forall f :: f in x ==> f.level == 1 && lo.min <= f.min && f.max <= hi.max
    ensures LevelFiles(x, 1) == x && Candidates(x, 2) == x
    ensures IsMerge(File(2, lo.min, hi.max), x, 2) && Gone(x, File(2, lo.min, hi.max)) == x
  {
  }

  lemma FourIsMerged()
    ensures |LevelFiles(FOUR, 1)| > THRESHOLD && IsMerge(File(2, 1, 16), Candidates(FOUR, 2), 2)
    ensures NoHole(FOUR, File(2, 1, 16))
    ensures Gone(FOUR, File(2, 1, 16)) == FOUR && QuietFrom(FOUR + {File(2, 1, 16)}, THRESHOLD, 2)
  {
    WholeLevel(FOUR, File(1, 1, 4), File(1, 13, 16));
    SmallIsQuiet(FOUR + {File(2, 1, 16)}, 2, FOUR, {File(2, 1, 16)});
    forall t | Has(File(2, 1, 16), t) ensures Covers(FOUR, t) {
      var f := if t <= 4 then File(1, 1, 4) else if t <= 8 then File(1, 5, 8)
               else if t <= 12 then File(1, 9, 12) else File(1, 13, 16);
      assert f in FOUR && Has(f, t);
    }
  }

  /**
   The fourth pass cascades.  Its deletions go through the sources in the order
   in which they were retired and stop after level 0.
   */
  lemma Upto16()
    ensures Even(LOW, FOUR + {File(2, 1, 16)}, 16, {})
  {
    Upto12();
    var i, j := File(1, 13, 16), File(2, 1, 16);
    FourIsMerged();
    assert THREE + {i} == FOUR;
    FullRound(THREE, THREE, 12, {}, i, j, {});
    assert (THREE - FOUR) + {i, j} == LOW && (THREE + {i, j}) - {} == FOUR + {j};
    LowIsOpenable();
  }

  lemma LowIsOpenable()
    ensures Openable(Replica(LOW, FOUR + {File(2, 1, 16)}, 16, {}))
  {
    assert File(2, 1, 16) in LOW;
    assert forall t :: 1 <= t <= 16 ==> Has(File(2, 1, 16), t);
  }

  ghost const FIVE: set<File> := {File(1, 1, 4), File(1, 5, 8), File(1, 9, 12), File(1, 13, 16), File(1, 17, 20)}
  ghost const REBUILT: set<File> := FIVE + {File(2, 1, 16), Tail(20), Tail(21)}

  lemma LowHasRoom()
    ensures QuietFrom(LOW + {File(1, 17, 20)}, THRESHOLD, 1) && Base(LOW, 16)
  {
    var b, c, j := File(1, 13, 16), File(1, 17, 20), File(2, 1, 16);
    var x := {b, j, c};
    assert LevelFiles(x, 1) == {b, c} && LevelFiles(x, 2) == {j};
    SmallIsQuiet(x, 1, {b, c}, {j});
    assert LOW + {c} == x;
  }

  /** The fifth pass leaves its source 20 undeleted. */
  lemma Upto20()
    ensures Even(LOW + {File(1, 17, 20)}, FOUR + {File(2, 1, 16)} + {File(1, 17, 20)} + {Tail(20)}, 20, {})
  {
    Upto16();
    LowHasRoom();
    RoundLeavingOne(LOW, FOUR + {File(2, 1, 16)}, 16, {});
  }

  /** A repair for the sake of one flushed TXID leaves the database openable. */
  lemma RepairedIsOpenable(m: set<File>, store: set<File>, n: nat, u: set<nat>)
    requires Openable(Replica(m, store, n, u))
    ensures var all := store + {Tail(n + 1)}; Openable(Replica(all, all, n + 1, u))
  {
    var all := store + {Tail(n + 1)};
    CoversMore(m, all, n);
    assert Tail(n + 1) in all && Has(Tail(n + 1), n + 1);
  }

  /** 21 is flushed, its manifest PUT is lost, and the next write repairs the manifest. */
  lemma Repaired()
    ensures Even(REBUILT, REBUILT, 21, {21})
  {
    Upto20();
    var m, store := LOW + {File(1, 17, 20)}, FOUR + {File(2, 1, 16)} + {File(1, 17, 20)} + {Tail(20)};
    assert File(1, 17, 20) in m;
    Extend(Replica(m, store, 20, {}), Replica(m, store + {Tail(21)}, 21, {} + {21}), Flush);
    assert store + {Tail(21)} == REBUILT;
    assert {} + {21} == {21};
    RepairedIsOpenable(m, store, 20, {});
    Extend(Replica(m, REBUILT, 21, {21}), Replica(REBUILT, REBUILT, 21, {21}), Repair);
  }

  // ------------------------------------------------------- after the repair

  ghost const TOPS: set<File> := {File(2, 1, 16), File(2, 17, 20)}
  ghost const LAST: set<File> := {Tail(20), Tail(21), Tail(22)}

  lemma WithTwentyTwo()
    ensures Even(LAST + FIVE + {File(2, 1, 16)}, LAST + FIVE + {File(2, 1, 16)}, 22, {21})
  {
    Repaired();
    OneWrite(REBUILT, REBUILT, 21, {21});
    assert REBUILT + {Tail(22)} == LAST + FIVE + {File(2, 1, 16)};
  }

  lemma FiveIsMerged(x: set<File>, low: File, c: File, j: File)
    requires low == File(2, 1, 16) && c == File(1, 17, 20) && j == File(2, 17, 20) && x == LAST + FIVE + {low}
    ensures Split(x, LAST, FIVE, {low}) && IsPass(x, THRESHOLD, 1, [j]) && Sources(x, [j]) == FIVE
    ensures AsSet([j]) == {j} && Seamless(x, [j])
  {
    FiveSplit(x, low);
    FiveRead(low, c, j);
    FiveCounts(low, j);
    LevelOnePass(x, LAST, FIVE, {low}, {c}, j);
  }

  lemma FiveSplit(x: set<File>, low: File)
    requires low == File(2, 1, 16) && x == LAST + FIVE + {low}
    ensures Split(x, LAST, FIVE, {low})
  {
  }

  lemma FiveRead(low: File, c: File, j: File)
    requires low == File(2, 1, 16) && c == File(1, 17, 20) && j == File(2, 17, 20)
    ensures {c} <= FIVE && IsMerge(j, {c}, 2) && forall t :: Has(j, t) ==> Covers({c}, t)
    ensures forall f :: f in FIVE ==> f.max <= j.max && (f in {c} <==> forall g :: g in {low} ==> g.max < f.min)
  {
    assert c in {c} && low in {low};
    assert forall t :: Has(j, t) ==> Has(c, t);
  }

  lemma FiveCounts(low: File, j: File)
    requires low == File(2, 1, 16) && j == File(2, 17, 20)
    ensures |LAST| <= THRESHOLD < |FIVE| && |{low} + {j}| <= THRESHOLD
  {
    assert |FIVE| == 5 && |LAST| == 3;
    assert {low} + {j} == {low, j};
  }

  /** Level 0 is within the threshold and skipped; level 1 is emptied above the leftover 20. */
  lemma Upto22()
    ensures Even(LAST + TOPS, LAST + TOPS, 22, {21})
  {
    WithTwentyTwo();
    var low, c, j := File(2, 1, 16), File(1, 17, 20), File(2, 17, 20);
    FiveIsMerged(LAST + FIVE + {low}, low, c, j);
    OnlyLevelOne(LAST + FIVE + {low}, 22, {21}, LAST, FIVE, {low}, j);
    assert LAST + {low} + {j} == LAST + TOPS;
    LastIsOpenable(LAST + TOPS);
  }

  lemma TopsCover(x: set<File>)
    requires TOPS <= x
    ensures CoversUpTo(x, 20)
  {
    forall t: nat | 1 <= t <= 20 ensures Covers(x, t) {
      var f := if t <= 16 then File(2, 1, 16) else File(2, 17, 20);
      assert f in TOPS && Has(f, t);
    }
  }

  lemma LastIsOpenable(x: set<File>)
    requires x == LAST + TOPS
    ensures Openable(Replica(x, x, 22, {21}))
  {
    TopsCover(x);
    assert Tail(21) in x && Has(Tail(21), 21) && Tail(22) in x && Has(Tail(22), 22);
  }

  ghost const STRADDLING: set<File> := TOPS + {File(1, 20, 23)}

  lemma TopsHaveRoom()
    ensures Base(TOPS, 19) && QuietFrom(STRADDLING, THRESHOLD, 1)
  {
    assert LevelFiles(STRADDLING, 1) == {File(1, 20, 23)} && LevelFiles(STRADDLING, 2) == TOPS;
    SmallIsQuiet(STRADDLING, 1, {File(1, 20, 23)}, TOPS);
  }

  lemma WithTwentyThree()
    ensures Even(TOPS + Tails(19, 4), TOPS + Tails(19, 4), 23, {21})
  {
    Upto22();
    OneWrite(LAST + TOPS, LAST + TOPS, 22, {21});
    FourTails(19);
    assert LAST + TOPS + {Tail(23)} == TOPS + Tails(19, 4);
  }

  /** 23 is written; 20 is merged again, across the end of level 2, and its sources are deleted. */
  lemma Upto23()
    ensures Even(STRADDLING, STRADDLING, 23, {21})
  {
    WithTwentyThree();
    TopsHaveRoom();
    FourPass(TOPS, TOPS + Tails(19, 4), 19, {21}, Tails(19, 4));
    NoTails(TOPS, File(1, 20, 23), 19);
    StraddlingIsOpenable(STRADDLING);
  }

  lemma StraddlingIsOpenable(x: set<File>)
    requires x == STRADDLING
    ensures Openable(Replica(x, x, 23, {21}))
  {
    TopsCover(x);
    assert File(1, 20, 23) in x;
    assert forall t :: 20 < t <= 23 ==> Has(File(1, 20, 23), t);
  }

  lemma NoTails(hi: set<File>, i: File, n: nat)
    requires i.level >= 1 && forall f :: f in hi ==> f.level >= 1
    ensures (hi + Tails(n, 4) + {i}) - Tails(n, 4) == hi + {i}
  {
  }

  lemma StraddlingHasRoom()
    ensures Base(STRADDLING, 23) && QuietFrom(STRADDLING + {File(1, 24, 27)}, THRESHOLD, 1)
  {
    var a, b, x := File(1, 20, 23), File(1, 24, 27), STRADDLING + {File(1, 24, 27)};
    assert LevelFiles(x, 1) == {a, b} && LevelFiles(x, 2) == TOPS;
    SmallIsQuiet(x, 1, {a, b}, TOPS);
  }

  ghost const ALMOST: set<File> := STRADDLING + {File(1, 24, 27)} + {File(1, 28, 31)}

  lemma AlmostHasRoom()
    ensures QuietFrom(ALMOST, THRESHOLD, 1)
  {
    var none: set<File> := {};
    var one := {File(1, 20, 23), File(1, 24, 27), File(1, 28, 31)};
    assert ALMOST == none + one + TOPS;
    SplitIsQuiet(ALMOST, none, one, TOPS);
  }

  lemma SplitIsQuiet(x: set<File>, none: set<File>, one: set<File>, two: set<File>)
    requires Split(x, none, one, two) && none == {} && |one| <= THRESHOLD && |two| <= THRESHOLD
    ensures QuietFrom(x, THRESHOLD, 1)
  {
    assert LevelFiles(x, 1) == one && LevelFiles(x, 2) == two;
    SmallIsQuiet(x, 1, one, two);
  }

  lemma NearlyBase(x: set<File>)
    requires x == STRADDLING + {File(1, 24, 27)}
    ensures Base(x, 27)
  {
  }

  lemma Upto31()
    ensures Even(ALMOST, ALMOST, 31, {21})
  {
    Upto23();
    StraddlingHasRoom();
    Round(STRADDLING, STRADDLING, 23, {21});
    AlmostHasRoom();
    NearlyBase(STRADDLING + {File(1, 24, 27)});
    Round(STRADDLING + {File(1, 24, 27)}, STRADDLING + {File(1, 24, 27)}, 27, {21});
  }

  ghost const ENDING: set<File> := {File(2, 1, 16), File(2, 17, 20), File(2, 24, 35)}
  ghost const ONES: set<File> := {File(1, 20, 23), File(1, 24, 27), File(1, 28, 31), File(1, 32, 35)}

  /** The merge of level 1 does not read (1,20,23), which starts inside level 2, and retires it. */
  lemma PassedOver(x: set<File>)
    requires x == ALMOST + {File(1, 32, 35)}
    ensures LevelFiles(x, 1) == ONES && |ONES| == 4 && Gone(x, File(2, 24, 35)) == ONES
    ensures IsMerge(File(2, 24, 35), Candidates(x, 2), 2) && NoHole(x, File(2, 24, 35))
    ensures QuietFrom(x + {File(2, 24, 35)}, THRESHOLD, 2)
  {
    var none: set<File> := {};
    var cs, j := {File(1, 24, 27), File(1, 28, 31), File(1, 32, 35)}, File(2, 24, 35);
    AlmostSplit(x, none);
    OnesRead(cs, j);
    LevelOneMerge(x, none, ONES, TOPS, cs, j);
    EndingCount(j);
    SmallIsQuiet(x + {j}, 2, ONES, ENDING);
  }

  lemma EndingCount(j: File)
    requires j == File(2, 24, 35)
    ensures TOPS + {j} == ENDING && |ENDING| == 3
  {
  }

  lemma AlmostSplit(x: set<File>, none: set<File>)
    requires x == ALMOST + {File(1, 32, 35)} && none == {}
    ensures Split(x, none, ONES, TOPS) && |ONES| == 4
  {
    assert x == none + ONES + TOPS;
  }

  lemma OnesRead(cs: set<File>, j: File)
    requires cs == {File(1, 24, 27), File(1, 28, 31), File(1, 32, 35)} && j == File(2, 24, 35)
    ensures cs <= ONES && cs != {} && IsMerge(j, cs, 2) && forall t :: Has(j, t) ==> Covers(cs, t)
    ensures forall f :: f in ONES ==> f.max <= j.max && (f in cs <==> forall g :: g in TOPS ==> g.max < f.min)
  {
    assert File(1, 24, 27) in cs && File(1, 32, 35) in cs && File(2, 17, 20) in TOPS;
    forall t | Has(j, t) ensures Covers(cs, t) {
      var f := if t <= 27 then File(1, 24, 27) else if t <= 31 then File(1, 28, 31) else File(1, 32, 35);
      assert f in cs && Has(f, t);
    }
  }

  lemma AlmostBase()
    ensures Base(ALMOST, 31)
  {
  }

  lemma Upto35()
    ensures Arises(Replica(ENDING + {File(1, 32, 35)}, ENDING, 35, {21}))
  {
    Upto31();
    AlmostBase();
    var i, j := File(1, 32, 35), File(2, 24, 35);
    PassedOver(ALMOST + {i});
    FullRound(ALMOST, ALMOST, 31, {21}, i, j, ONES);
    Difference(i, j);
  }

  lemma Difference(i: File, j: File)
    requires i == File(1, 32, 35) && j == File(2, 24, 35)
    ensures (ALMOST - ONES) + {i, j} == ENDING + {i} && (ALMOST + {i, j}) - ONES == ENDING
  {
    assert ALMOST - ONES == TOPS;
  }

  /**
   The promise that compaction keeps every TXID fails after a repair.  There is
   a history from the empty replica in which 22 and 23 are written and indexed
   like any other, the manifest once lists 1 to 31 without a gap, and after one
   more pass neither the manifest nor the store holds 21, 22 or 23.
   */
  lemma CompactionLosesTxids()
    ensures Arises(Replica(ALMOST, ALMOST, 31, {21})) && CoversUpTo(ALMOST, 31)
    ensures Arises(Replica(ENDING + {File(1, 32, 35)}, ENDING, 35, {21}))
    ensures forall t :: 21 <= t <= 23 ==> !Covers(ENDING + {File(1, 32, 35)}, t) && !Covers(ENDING, t)
  {
    Upto31();
    Upto35();
    EndingMisses(ENDING + {File(1, 32, 35)});
  }

  lemma EndingMisses(x: set<File>)
    requires x == ENDING + {File(1, 32, 35)}
    ensures forall t :: 21 <= t <= 23 ==> !Covers(x, t) && !Covers(ENDING, t)
  {
  }
}
