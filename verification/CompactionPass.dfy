/**
 One compaction pass over a manifest: which merges it writes at a given
 threshold, which sources it retires, and what the runtime publishes.
 */
module CompactionPass {
  import opened Levels

  /** Level l is merged into when the level below is over threshold and has new files. */
  ghost predicate Fires(x: set<File>, threshold: nat, l: nat)
    requires l >= 1
  {
    |LevelFiles(x, l - 1)| > threshold && Candidates(x, l) != {}
  }

  /** ms are the merges of the levels l..8, in order, given the client's listing x. */
  ghost predicate IsPass(x: set<File>, threshold: nat, l: nat, ms: seq<File>)
    requires l >= 1
    decreases TOP_LEVEL + 1 - l
  {
    if l > TOP_LEVEL then ms == []
    else if Fires(x, threshold, l) then
      && ms != [] && IsMerge(ms[0], Candidates(x, l), l)
      && IsPass(x + {ms[0]}, threshold, l + 1, ms[1..])
    else IsPass(x, threshold, l + 1, ms)
  }

  /** A turn that fires, then the rest. */
  lemma PassCons(x: set<File>, threshold: nat, l: nat, info: File, rest: seq<File>)
    requires 1 <= l <= TOP_LEVEL && Fires(x, threshold, l) && IsMerge(info, Candidates(x, l), l)
    requires IsPass(x + {info}, threshold, l + 1, rest)
    ensures IsPass(x, threshold, l, [info] + rest)
  {
    var all := [info] + rest;
    assert all[0] == info && all[1..] == rest;
  }

  /** Levels within the threshold are left alone. */
  lemma {:induction false} QuietPass(x: set<File>, threshold: nat, l: nat)
    requires l >= 1 && forall k :: l - 1 <= k < TOP_LEVEL ==> |LevelFiles(x, k)| <= threshold
    ensures IsPass(x, threshold, l, [])
    decreases TOP_LEVEL + 1 - l
  {
    if l <= TOP_LEVEL {
      QuietPass(x, threshold, l + 1);
    }
  }

  ghost function AsSet(ms: seq<File>): set<File> {
    set m | m in ms
  }

  /** The active set after retiring each merge's sources in turn. */
  ghost function Updated(u: set<File>, ms: seq<File>): set<File>
    decreases |ms|
  {
    if ms == [] then u else Updated(After(u, ms[0]), ms[1..])
  }

  ghost function Sources(u: set<File>, ms: seq<File>): set<File>
    decreases |ms|
  {
    if ms == [] then {} else Gone(u, ms[0]) + Sources(After(u, ms[0]), ms[1..])
  }

  /** What the runtime writes: the delta applied to the re-read manifest. */
  ghost function Published(base: set<File>, ms: seq<File>, sources: set<File>): set<File> {
    (base - sources) + AsSet(ms)
  }

  ghost predicate Ascending(ms: seq<File>) {
    forall i, j :: 0 <= i < j < |ms| ==> ms[i].level < ms[j].level
  }

  lemma AsSetCons(ms: seq<File>)
    requires ms != []
    ensures AsSet(ms) == {ms[0]} + AsSet(ms[1..])
  {
  }

  /** Merges one after the other, each over what the one before left listed, at rising levels from l on. */
  ghost predicate Chain(x: set<File>, l: nat, ms: seq<File>)
    decreases |ms|
  {
    ms == [] ||
    (&& l <= ms[0].level <= TOP_LEVEL && IsMerge(ms[0], Candidates(x, ms[0].level), ms[0].level)
     && Chain(x + {ms[0]}, ms[0].level + 1, ms[1..]))
  }

  /** What a pass writes is such a chain. */
  lemma {:induction false} PassIsChain(x: set<File>, threshold: nat, l: nat, ms: seq<File>)
    requires l >= 1 && IsPass(x, threshold, l, ms)
    ensures Chain(x, l, ms)
    decreases TOP_LEVEL + 1 - l
  {
    if l > TOP_LEVEL {
    } else if Fires(x, threshold, l) {
      PassIsChain(x + {ms[0]}, threshold, l + 1, ms[1..]);
    } else {
      PassIsChain(x, threshold, l + 1, ms);
    }
  }

  lemma {:induction false} ChainAscends(x: set<File>, l: nat, ms: seq<File>)
    requires Chain(x, l, ms)
    ensures Ascending(ms) && forall i :: 0 <= i < |ms| ==> l <= ms[i].level <= TOP_LEVEL
    decreases |ms|
  {
    if ms != [] {
      ChainAscends(x + {ms[0]}, ms[0].level + 1, ms[1..]);
    }
  }

  lemma PassAscends(x: set<File>, threshold: nat, l: nat, ms: seq<File>)
    requires l >= 1 && IsPass(x, threshold, l, ms)
    ensures Chain(x, l, ms) && Ascending(ms) && forall i :: 0 <= i < |ms| ==> l <= ms[i].level <= TOP_LEVEL
  {
    PassIsChain(x, threshold, l, ms);
    ChainAscends(x, l, ms);
  }

  /** Some merge of the pass names f among its sources. */
  ghost predicate Retired(f: File, ms: seq<File>) {
    exists i :: 0 <= i < |ms| && f.level + 1 == ms[i].level && f.max <= ms[i].max
  }

  /**
   Replaying the merges retires exactly the files, of the set or of the pass,
   that some merge names; what is left is the updated set.
   */
  lemma {:induction false} UpdatedIs(u: set<File>, ms: seq<File>)
    requires Ascending(ms)
    ensures Updated(u, ms) == (u + AsSet(ms)) - Sources(u, ms)
    ensures forall f :: f in Sources(u, ms) <==> f in u + AsSet(ms) && Retired(f, ms)
    decreases |ms|
  {
    if ms != [] {
      AsSetCons(ms);
      UpdatedIs(After(u, ms[0]), ms[1..]);
      assert forall f :: f in AsSet(ms[1..]) ==> f.level > ms[0].level;
      forall f ensures f in Sources(u, ms) <==> f in u + AsSet(ms) && Retired(f, ms) {
        RetiredCons(f, ms);
      }
    }
  }

  lemma RetiredCons(f: File, ms: seq<File>)
    requires ms != []
    ensures Retired(f, ms) <==> (f.level + 1 == ms[0].level && f.max <= ms[0].max) || Retired(f, ms[1..])
  {
    if Retired(f, ms) {
      var i :| 0 <= i < |ms| && f.level + 1 == ms[i].level && f.max <= ms[i].max;
      assert i == 0 || ms[i] == ms[1..][i - 1];
    }
    if Retired(f, ms[1..]) {
      var i :| 0 <= i < |ms[1..]| && f.level + 1 == ms[1..][i].level && f.max <= ms[1..][i].max;
      assert ms[i + 1] == ms[1..][i];
    }
  }

  /** On an unchanged manifest the published set is the updated set plus the merges retired in the same pass. */
  lemma PublishedIsUpdatedPlusIntermediates(x: set<File>, threshold: nat, ms: seq<File>)
    requires IsPass(x, threshold, 1, ms)
    ensures Published(x, ms, Sources(x, ms)) == Updated(x, ms) + (AsSet(ms) * Sources(x, ms))
  {
    PassAscends(x, threshold, 1, ms);
    UpdatedIs(x, ms);
  }

  // ------------------------------------------------------------- coverage

  /** At turn l the client's listing and the shrinking active set agree from level l - 1 up. */
  ghost predicate Agree(x: set<File>, u: set<File>, l: nat)
    requires l >= 1
  {
    u <= x && forall f :: f in x && f.level >= l - 1 ==> f in u
  }

  lemma AgreeOnTurn(x: set<File>, u: set<File>, l: nat)
    requires l >= 1 && Agree(x, u, l)
    ensures Candidates(x, l) == Candidates(u, l) && LevelFiles(x, l - 1) == LevelFiles(u, l - 1)
  {
  }

  lemma AgreeAfter(x: set<File>, u: set<File>, l: nat, info: File)
    requires l >= 1 && Agree(x, u, l) && info.level == l
    ensures Agree(x + {info}, After(u, info), l + 1)
  {
  }

  /** What a merge hands to the next, relative to what is kept. */
  lemma NextTurn(x: set<File>, u: set<File>, keep: set<File>, l: nat, info: File)
    requires 1 <= l <= info.level && Agree(x, u, l) && keep <= u && StackedFrom(u, keep, l - 1)
    requires IsMerge(info, Candidates(x, info.level), info.level)
    ensures Candidates(x, info.level) == Candidates(u, info.level)
    ensures Agree(x + {info}, After(u, info), info.level + 1)
    ensures var keep' := (keep - Gone(u, info)) + {info};
            keep' <= After(u, info) && StackedFrom(After(u, info), keep', info.level)
  {
    AgreeOnTurn(x, u, info.level);
    MergeKeepsCoverage(u, keep, info.level, info);
    AgreeAfter(x, u, info.level, info);
  }

  /** The rest of a pass loses no TXID, and its sources stay covered by what it leaves. */
  lemma {:induction false} PassConserves(x: set<File>, u: set<File>, l: nat, ms: seq<File>)
    requires l >= 1 && Agree(x, u, l) && StackedFrom(u, u, l - 1) && Chain(x, l, ms)
    ensures forall t :: Covers(u, t) ==> Covers(Updated(u, ms), t)
    ensures forall f, t :: f in Sources(u, ms) && Has(f, t) ==> Covers(Updated(u, ms), t)
    decreases |ms|
  {
    if ms != [] {
      var info := ms[0];
      NextTurn(x, u, u, l, info);
      MergeKeepsCoverage(u, u, info.level, info);
      PassConserves(x + {info}, After(u, info), info.level + 1, ms[1..]);
      forall f, t | f in Sources(u, ms) && Has(f, t)
        ensures Covers(Updated(u, ms), t)
      {
        if f in Gone(u, info) {
          assert Covers(u, t);
        }
      }
    }
  }

  lemma {:induction false} PassWithin(x: set<File>, l: nat, n: nat, ms: seq<File>)
    requires l >= 1 && Within(x, n) && Chain(x, l, ms)
    ensures Within(AsSet(ms), n)
    decreases |ms|
  {
    if ms != [] {
      MergeWithin(x, n, ms[0].level, ms[0]);
      AsSetCons(ms);
      PassWithin(x + {ms[0]}, ms[0].level + 1, n, ms[1..]);
    }
  }

  /**
   Compaction conserves coverage under concurrent writes: a delta computed on
   a stacked snapshot, applied to any later manifest that still lists the
   snapshot and covers 1..n, covers exactly 1..n, and so does what is left of
   it once the retired sources are deleted.
   */
  lemma DeltaConserves(snap: set<File>, base: set<File>, n: nat, threshold: nat, ms: seq<File>)
    requires Stacked(snap, snap) && snap <= base && Within(base, n) && CoversUpTo(base, n)
    requires IsPass(snap, threshold, 1, ms)
    ensures var final := Published(base, ms, Sources(snap, ms));
            && (forall t :: Covers(final, t) <==> Covers(base, t))
            && CoversUpTo(final - Sources(snap, ms), n)
  {
    var sources := Sources(snap, ms);
    var final := Published(base, ms, sources);
    PassAscends(snap, threshold, 1, ms);
    PassConserves(snap, snap, 1, ms);
    UpdatedIs(snap, ms);
    PassWithin(snap, 1, n, ms);
    forall t | 1 <= t <= n
      ensures Covers(final - sources, t)
    {
      assert Covers(base, t);
      var f :| f in base && Has(f, t);
      if f in sources {
        assert Covers(Updated(snap, ms), t);
        var g :| g in Updated(snap, ms) && Has(g, t);
        assert g in final - sources;
      } else {
        assert f in final - sources;
      }
    }
    forall t | Covers(base, t) ensures Covers(final, t) {
      assert Covers(final - sources, t);
      var f :| f in final - sources && Has(f, t);
      assert f in final;
    }
    forall t | Covers(final, t) ensures Covers(base, t) {
      var f :| f in final && Has(f, t);
    }
  }

  // ------------------------------------------------- how far a pass gets

  /** No level of the pass is over threshold without having anything new to merge. */
  ghost predicate Unstuck(x: set<File>, threshold: nat, l: nat, ms: seq<File>)
    requires l >= 1
    decreases TOP_LEVEL + 1 - l
  {
    if l > TOP_LEVEL then true
    else if Fires(x, threshold, l) then ms != [] && Unstuck(x + {ms[0]}, threshold, l + 1, ms[1..])
    else |LevelFiles(x, l - 1)| <= threshold && Unstuck(x, threshold, l + 1, ms)
  }

  /** No level below the top holds more than threshold files. */
  ghost predicate Balanced(x: set<File>, threshold: nat, l: nat) {
    forall k :: l <= k < TOP_LEVEL ==> |LevelFiles(x, k)| <= threshold
  }

  /** Level k is merged upward. */
  ghost predicate MergedUp(ms: seq<File>, k: nat) {
    exists i :: 0 <= i < |ms| && ms[i].level == k + 1
  }

  /** Level k, counting the merges of the pass, is within the threshold unless it is merged upward. */
  ghost predicate WithinUnlessMerged(x: set<File>, threshold: nat, ms: seq<File>, k: nat) {
    MergedUp(ms, k) || |LevelFiles(x + AsSet(ms), k)| <= threshold
  }

  /** A pass is never stuck exactly when every level is merged upward or within the threshold. */
  lemma {:induction false} UnstuckIff(x: set<File>, threshold: nat, l: nat, ms: seq<File>)
    requires l >= 1 && IsPass(x, threshold, l, ms)
    ensures Unstuck(x, threshold, l, ms)
       <==> forall k :: l - 1 <= k < TOP_LEVEL ==> WithinUnlessMerged(x, threshold, ms, k)
    decreases TOP_LEVEL + 1 - l
  {
    if l <= TOP_LEVEL {
      if Fires(x, threshold, l) {
        UnstuckIff(x + {ms[0]}, threshold, l + 1, ms[1..]);
        assert ms[0].level == l - 1 + 1;
        assert WithinUnlessMerged(x, threshold, ms, l - 1);
        forall k: nat | l <= k < TOP_LEVEL
          ensures WithinUnlessMerged(x, threshold, ms, k) <==> WithinUnlessMerged(x + {ms[0]}, threshold, ms[1..], k)
        {
          SameLevelsLater(x, threshold, ms, k);
        }
      } else {
        UnstuckIff(x, threshold, l + 1, ms);
        PassAscends(x, threshold, l + 1, ms);
        assert LevelFiles(x + AsSet(ms), l - 1) == LevelFiles(x, l - 1);
        assert WithinUnlessMerged(x, threshold, ms, l - 1) <==> |LevelFiles(x, l - 1)| <= threshold;
      }
    }
  }

  lemma SameLevelsLater(x: set<File>, threshold: nat, ms: seq<File>, k: nat)
    requires ms != [] && ms[0].level <= k
    ensures WithinUnlessMerged(x, threshold, ms, k) <==> WithinUnlessMerged(x + {ms[0]}, threshold, ms[1..], k)
  {
    AsSetCons(ms);
    assert (x + {ms[0]}) + AsSet(ms[1..]) == x + AsSet(ms);
    assert forall i :: 0 <= i < |ms[1..]| ==> ms[1..][i] == ms[i + 1];
    assert forall i :: 1 <= i < |ms| ==> ms[i] == ms[1..][i - 1];
  }

  /** The files of the level m merges that end past it: the retiring test spares them. */
  ghost function Past(x: set<File>, ms: seq<File>, m: File): set<File> {
    set f | f in x + AsSet(ms) && f.level + 1 == m.level && f.max > m.max
  }

  /** The same with the level's own merge, which the published manifest lists though it is retired. */
  ghost function StillListed(x: set<File>, ms: seq<File>, m: File): set<File> {
    set f | f in x + AsSet(ms) && f.level + 1 == m.level && (f.max > m.max || f in AsSet(ms))
  }

  /** What a pass leaves of a level it merged upward. */
  lemma MergedLevel(x: set<File>, ms: seq<File>, i: nat)
    requires Ascending(ms) && i < |ms| && ms[i].level >= 1
    ensures LevelFiles(Updated(x, ms), ms[i].level - 1) == Past(x, ms, ms[i])
    ensures LevelFiles(Published(x, ms, Sources(x, ms)), ms[i].level - 1) == StillListed(x, ms, ms[i])
  {
    UpdatedIs(x, ms);
    assert forall f: File :: f.level + 1 == ms[i].level ==> (Retired(f, ms) <==> f.max <= ms[i].max);
  }

  /** What it leaves of any other level: all of it. */
  lemma UnmergedLevel(x: set<File>, ms: seq<File>, k: nat)
    requires Ascending(ms) && !MergedUp(ms, k)
    ensures LevelFiles(Updated(x, ms), k) == LevelFiles(x + AsSet(ms), k)
    ensures LevelFiles(Published(x, ms, Sources(x, ms)), k) == LevelFiles(x + AsSet(ms), k)
  {
    UpdatedIs(x, ms);
    assert forall f: File :: f.level == k ==> !Retired(f, ms);
  }

  /** Of each level merged upward no more than threshold files end past the merge. */
  ghost predicate FewPast(x: set<File>, threshold: nat, ms: seq<File>) {
    forall i :: 0 <= i < |ms| ==> |Past(x, ms, ms[i])| <= threshold
  }

  ghost predicate FewListed(x: set<File>, threshold: nat, ms: seq<File>) {
    forall i :: 0 <= i < |ms| ==> |StillListed(x, ms, ms[i])| <= threshold
  }

  /** Balance, level by level: of the levels merged upward, and of the others, which are as they were. */
  lemma Levelwise(x: set<File>, y: set<File>, threshold: nat, ms: seq<File>)
    requires forall i :: 0 <= i < |ms| ==> 1 <= ms[i].level <= TOP_LEVEL
    requires forall k :: 0 <= k < TOP_LEVEL && !MergedUp(ms, k) ==> LevelFiles(y, k) == LevelFiles(x + AsSet(ms), k)
    ensures Balanced(y, threshold, 0)
       <==> && (forall k :: 0 <= k < TOP_LEVEL ==> WithinUnlessMerged(x, threshold, ms, k))
            && forall i :: 0 <= i < |ms| ==> |LevelFiles(y, ms[i].level - 1)| <= threshold
  {
    if (&& (forall k :: 0 <= k < TOP_LEVEL ==> WithinUnlessMerged(x, threshold, ms, k))
        && forall i :: 0 <= i < |ms| ==> |LevelFiles(y, ms[i].level - 1)| <= threshold)
    {
      forall k: nat | k < TOP_LEVEL ensures |LevelFiles(y, k)| <= threshold {
        assert WithinUnlessMerged(x, threshold, ms, k);
      }
    }
  }

  /**
   Exactly when the updated set needs no compaction at the threshold of the
   pass, for any set: no level was over it with nothing new to merge, and no
   more than threshold files of a merged level end past its merge.
   */
  lemma UpdatedSettlesIff(x: set<File>, threshold: nat, ms: seq<File>)
    requires IsPass(x, threshold, 1, ms)
    ensures Balanced(Updated(x, ms), threshold, 0) <==> Unstuck(x, threshold, 1, ms) && FewPast(x, threshold, ms)
  {
    PassAscends(x, threshold, 1, ms);
    UnstuckIff(x, threshold, 1, ms);
    forall k: nat | k < TOP_LEVEL && !MergedUp(ms, k)
      ensures LevelFiles(Updated(x, ms), k) == LevelFiles(x + AsSet(ms), k)
    {
      UnmergedLevel(x, ms, k);
    }
    forall i | 0 <= i < |ms| ensures LevelFiles(Updated(x, ms), ms[i].level - 1) == Past(x, ms, ms[i]) {
      MergedLevel(x, ms, i);
    }
    Levelwise(x, Updated(x, ms), threshold, ms);
  }

  /** The same of the published manifest, in which a merged level's own merge counts as well. */
  lemma PublishedSettlesIff(x: set<File>, threshold: nat, ms: seq<File>)
    requires IsPass(x, threshold, 1, ms)
    ensures Balanced(Published(x, ms, Sources(x, ms)), threshold, 0)
       <==> Unstuck(x, threshold, 1, ms) && FewListed(x, threshold, ms)
  {
    var y := Published(x, ms, Sources(x, ms));
    PassAscends(x, threshold, 1, ms);
    UnstuckIff(x, threshold, 1, ms);
    forall k: nat | k < TOP_LEVEL && !MergedUp(ms, k) ensures LevelFiles(y, k) == LevelFiles(x + AsSet(ms), k) {
      UnmergedLevel(x, ms, k);
    }
    forall i | 0 <= i < |ms| ensures LevelFiles(y, ms[i].level - 1) == StillListed(x, ms, ms[i]) {
      MergedLevel(x, ms, i);
    }
    Levelwise(x, y, threshold, ms);
  }

  // ------------------------------------------- a level left half merged

  /** Five files: of level 1, three end past the only one that starts above level 2. */
  ghost const HALF: set<File> := {File(2, 1, 5), File(1, 3, 10), File(1, 4, 10), File(1, 5, 10), File(1, 6, 6)}
  ghost const STAYING: set<File> := {File(1, 3, 10), File(1, 4, 10), File(1, 5, 10)}

  lemma HalfLevels()
    ensures LevelFiles(HALF, 1) == STAYING + {File(1, 6, 6)} && |LevelFiles(HALF, 1)| == 4
    ensures Candidates(HALF, 2) == {File(1, 6, 6)} && IsMerge(File(2, 6, 6), {File(1, 6, 6)}, 2)
    ensures LevelFiles(HALF, 0) == {}
  {
    var d := File(1, 6, 6);
    assert LevelFiles(HALF, 1) == {File(1, 3, 10), File(1, 4, 10), File(1, 5, 10), d};
    assert File(2, 1, 5) in HALF && d in {d};
  }

  lemma HalfAbove(y: set<File>)
    requires y == HALF + {File(2, 6, 6)}
    ensures LevelFiles(y, 2) == {File(2, 1, 5), File(2, 6, 6)} && |LevelFiles(y, 2)| == 2
    ensures forall k :: 3 <= k < TOP_LEVEL ==> LevelFiles(y, k) == {}
  {
    assert LevelFiles(y, 2) == {File(2, 1, 5), File(2, 6, 6)};
  }

  /** Levels within the threshold are not stuck either. */
  lemma {:induction false} QuietUnstuck(x: set<File>, threshold: nat, l: nat)
    requires l >= 1 && forall k :: l - 1 <= k < TOP_LEVEL ==> |LevelFiles(x, k)| <= threshold
    ensures Unstuck(x, threshold, l, [])
    decreases TOP_LEVEL + 1 - l
  {
    if l <= TOP_LEVEL {
      QuietUnstuck(x, threshold, l + 1);
    }
  }

  /**
   A pass that meets nothing unmergeable can leave the database asking for
   compaction: of this set, at threshold 2, both results do.
   */
  lemma HalfMergedAsksAgain()
    ensures var ms := [File(2, 6, 6)];
            && IsPass(HALF, 2, 1, ms) && Unstuck(HALF, 2, 1, ms)
            && !Balanced(Updated(HALF, ms), 2, 0) && !Balanced(Published(HALF, ms, Sources(HALF, ms)), 2, 0)
  {
    var m := File(2, 6, 6);
    var ms := [m];
    HalfPass(m, ms);
    HalfPast(m, ms);
    UpdatedSettlesIff(HALF, 2, ms);
    PublishedSettlesIff(HALF, 2, ms);
    assert ms[0] == m;
  }

  lemma HalfPass(m: File, ms: seq<File>)
    requires m == File(2, 6, 6) && ms == [m]
    ensures IsPass(HALF, 2, 1, ms) && Unstuck(HALF, 2, 1, ms)
  {
    HalfLevels();
    HalfAbove(HALF + {m});
    QuietPass(HALF + {m}, 2, 3);
    QuietUnstuck(HALF + {m}, 2, 3);
    assert ms[1..] == [];
    assert Fires(HALF, 2, 2);
    assert IsPass(HALF, 2, 2, ms) && Unstuck(HALF, 2, 2, ms);
  }

  lemma HalfPast(m: File, ms: seq<File>)
    requires m == File(2, 6, 6) && ms == [m]
    ensures |Past(HALF, ms, m)| == 3 && |StillListed(HALF, ms, m)| == 3
  {
    assert AsSet(ms) == {m};
    assert Past(HALF, ms, m) == STAYING && StillListed(HALF, ms, m) == STAYING;
    assert |STAYING| == 3;
  }

  /**
   Such a file stays: while the merge it ends past is listed, no later pass
   reads it, because it starts at or below the merge's end.
   */
  lemma PastIsNeverRead(x: set<File>, l: nat, m: File, f: File, y: set<File>)
    requires l >= 1 && IsMerge(m, Candidates(x, l), l) && (forall c :: c in x ==> c.min <= c.max)
    requires f in x && f.level + 1 == l && f.max > m.max && m in y
    ensures f !in Candidates(y, l)
  {
    assert f !in Candidates(x, l);
    var g :| g in x && g.level == l && g.max >= f.min;
    var c :| c in Candidates(x, l) && c.min == m.min;
    assert g.max < c.min <= c.max <= m.max;
  }

  // ------------------------------------------------- when a pass drains

  /** No file of a level that was merged upward goes past the merge. */
  ghost predicate Drained(x: set<File>, ms: seq<File>) {
    forall f, i :: f in x + AsSet(ms) && 0 <= i < |ms| && f.level + 1 == ms[i].level ==> f.max <= ms[i].max
  }

  /** A level that was drained keeps nothing, and lists at most its own merge. */
  lemma DrainedLevel(x: set<File>, ms: seq<File>, i: nat)
    requires Ascending(ms) && Drained(x, ms) && i < |ms|
    ensures Past(x, ms, ms[i]) == {} && |StillListed(x, ms, ms[i])| <= 1
  {
    var p := StillListed(x, ms, ms[i]);
    if m :| m in p {
      assert p == {m};
    }
  }

  /**
   A pass that was never stuck and left no level half merged settles: neither
   the updated set nor the published one needs compaction at its threshold.
   */
  lemma PassSettles(x: set<File>, threshold: nat, ms: seq<File>)
    requires threshold >= 1 && IsPass(x, threshold, 1, ms) && Unstuck(x, threshold, 1, ms) && Drained(x, ms)
    ensures Balanced(Updated(x, ms), threshold, 0)
    ensures Balanced(Published(x, ms, Sources(x, ms)), threshold, 0)
  {
    PassAscends(x, threshold, 1, ms);
    forall i: nat | i < |ms|
      ensures |Past(x, ms, ms[i])| <= threshold && |StillListed(x, ms, ms[i])| <= threshold
    {
      DrainedLevel(x, ms, i);
    }
    UpdatedSettlesIff(x, threshold, ms);
    PublishedSettlesIff(x, threshold, ms);
  }

  /** In each level a file that starts later does not end earlier. */
  ghost predicate Tidy(x: set<File>) {
    && (forall f :: f in x ==> f.min <= f.max)
    && forall f, g :: f in x && g in x && f.level == g.level && f.min < g.min ==> f.max <= g.max
  }

  lemma TidyMerge(x: set<File>, l: nat, info: File)
    requires l >= 1 && Tidy(x) && IsMerge(info, Candidates(x, l), l)
    ensures Tidy(x + {info}) && forall f :: f in x && f.level == l - 1 ==> f.max <= info.max
  {
    var lo :| lo in Candidates(x, l) && lo.min == info.min;
    var hi :| hi in Candidates(x, l) && hi.max == info.max;
    assert forall g :: g in x && g.level == l ==> g.max < info.min;
    forall f | f in x && f.level == l - 1 ensures f.max <= info.max {
      if f !in Candidates(x, l) {
        var g :| g in x && g.level == l && g.max >= f.min;
        assert f.min < hi.min;
      }
    }
  }

  /** A pass over tidy levels leaves none half merged. */
  lemma {:induction false} TidyDrains(x: set<File>, l: nat, ms: seq<File>)
    requires l >= 1 && Tidy(x) && Chain(x, l, ms)
    ensures Drained(x, ms)
    decreases |ms|
  {
    if ms != [] {
      ChainAscends(x, l, ms);
      TidyMerge(x, ms[0].level, ms[0]);
      TidyDrains(x + {ms[0]}, ms[0].level + 1, ms[1..]);
      DrainedCons(x, ms);
    }
  }

  lemma DrainedCons(x: set<File>, ms: seq<File>)
    requires ms != [] && Ascending(ms) && Drained(x + {ms[0]}, ms[1..])
    requires forall f :: f in x && f.level + 1 == ms[0].level ==> f.max <= ms[0].max
    ensures Drained(x, ms)
  {
    AsSetCons(ms);
    forall f, i | f in x + AsSet(ms) && 0 <= i < |ms| && f.level + 1 == ms[i].level ensures f.max <= ms[i].max {
      if i > 0 {
        assert ms[1..][i - 1] == ms[i] && f in (x + {ms[0]}) + AsSet(ms[1..]);
      }
    }
  }

  /** So does a pass over a stacked manifest. */
  lemma {:induction false} StackedDrains(x: set<File>, u: set<File>, n: nat, l: nat, ms: seq<File>)
    requires l >= 1 && Agree(x, u, l) && StackedFrom(u, u, l - 1) && Within(u, n) && Chain(x, l, ms)
    ensures Drained(x, ms)
    decreases |ms|
  {
    if ms != [] {
      ChainAscends(x, l, ms);
      NextTurn(x, u, u, l, ms[0]);
      MergeEmptiesSource(u, u, n, ms[0].level, ms[0]);
      MergeWithin(u, n, ms[0].level, ms[0]);
      StackedDrains(x + {ms[0]}, After(u, ms[0]), n, ms[0].level + 1, ms[1..]);
      DrainedCons(x, ms);
    }
  }
}
