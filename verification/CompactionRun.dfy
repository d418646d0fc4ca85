/** The code around a pass: the new active set, the threshold test, deletion and garbage collection. */
module CompactionRun {
  import opened Wrappers
  import opened Levels
  import opened Manifest
  import opened Replica
  import opened CompactionPass
  import opened Compaction
  import Database

  lemma {:induction false} OneMoreMerge(u: set<File>, ms: seq<File>, m: File)
    ensures Updated(u, ms + [m]) == After(Updated(u, ms), m)
    ensures Sources(u, ms + [m]) == Sources(u, ms) + Gone(Updated(u, ms), m)
    decreases |ms|
  {
    if ms == [] {
      assert (ms + [m])[1..] == [];
    } else {
      OneMoreMerge(After(u, ms[0]), ms[1..], m);
      assert (ms + [m])[1..] == ms[1..] + [m];
    }
  }

  /** The files one merge retires: one level down, at or below its highest TXID. */
  method SourcesOf(active: seq<Info>, info: File) returns (gone: seq<Info>)
    ensures FilesOf(gone) == Gone(FilesOf(active), info)
  {
    gone := [];
    for i := 0 to |active|
      invariant forall x :: x in gone <==> x in active[..i] && x.file.level + 1 == info.level && x.file.max <= info.max
    {
      if active[i].file.level + 1 == info.level && active[i].file.max <= info.max {
        gone := gone + [active[i]];
      }
    }
    assert active[..|active|] == active;
  }

  /** The new active set and the retired sources are those of the pass; nothing is deleted. */
  method CompactManifest(inner: MemoryReplica, files: seq<Info>, threshold: int, fates: seq<Fate>)
    returns (failed: bool, updated: seq<Info>, merged: seq<Info>, sources: seq<Info>)
    requires |fates| > TOP_LEVEL
    modifies inner
    ensures inner.objects.Keys == old(inner.objects.Keys) + AsSet(Names(merged))
    ensures failed ==> updated == [] && sources == []
    ensures !failed && Distinct(files) ==> Distinct(updated)
    ensures !failed && Distinct(files) && threshold >= 1 ==> IsPass(FilesOf(files), threshold, 1, Names(merged))
    ensures !failed && Distinct(files) && threshold <= 0 ==> IsPass(FilesOf(files), 1, 1, Names(merged))
    ensures !failed ==> FilesOf(updated) == Updated(FilesOf(files), Names(merged))
    ensures !failed ==> FilesOf(sources) == Sources(FilesOf(files), Names(merged))
  {
    var client := new ManifestClient(inner, files);
    failed, merged := CompactWithClient(client, threshold, fates);
    updated, sources := [], [];
    if failed {
      return;
    }
    updated, sources := Retire(files, merged);
  }

  method Retire(files: seq<Info>, merged: seq<Info>) returns (updated: seq<Info>, sources: seq<Info>)
    ensures FilesOf(updated) == Updated(FilesOf(files), Names(merged))
    ensures FilesOf(sources) == Sources(FilesOf(files), Names(merged))
    ensures Distinct(files) ==> Distinct(updated)
  {
    updated, sources := files, [];
    for i := 0 to |merged|
      invariant FilesOf(updated) == Updated(FilesOf(files), Names(merged[..i]))
      invariant FilesOf(sources) == Sources(FilesOf(files), Names(merged[..i]))
      invariant Distinct(files) ==> Distinct(updated)
    {
      var info := merged[i];
      var gone := SourcesOf(updated, info.file);
      OneMoreMerge(FilesOf(files), Names(merged[..i]), info.file);
      assert Names(merged[..i + 1]) == Names(merged[..i]) + [info.file];
      assert FilesOf(sources + gone) == FilesOf(sources) + FilesOf(gone);
      sources := sources + gone;
      assert FilesOf([info]) == {info.file};
      updated := ApplyManifestDelta(updated, [info], gone);
    }
    assert merged[..|merged|] == merged;
  }

  // ------------------------------------------------------------- the threshold

  function CountAt(files: seq<Option<Info>>, level: nat): nat {
    if files == [] then 0
    else
      var last := files[|files| - 1];
      CountAt(files[..|files| - 1], level) + (if last.Some? && last.value.file.level == level then 1 else 0)
  }

  /** Some level below 8 holds more than limit files. */
  ghost predicate Needs(files: seq<Option<Info>>, limit: nat) {
    exists l :: 0 <= l < 8 && |At(files, l)| > limit
  }

  /** The places of the list that hold a file of the level. */
  ghost function At(files: seq<Option<Info>>, level: nat): set<nat> {
    set i: nat | i < |files| && files[i].Some? && files[i].value.file.level == level
  }

  lemma {:induction false} CountIs(files: seq<Option<Info>>, level: nat)
    ensures CountAt(files, level) == |At(files, level)|
  {
    if files == [] {
      assert At(files, level) == {};
    } else {
      var n := |files| - 1;
      CountIs(files[..n], level);
      assert At(files, level) == At(files[..n], level)
                                 + (if files[n].Some? && files[n].value.file.level == level then {n} else {});
    }
  }

  lemma NeedsByCount(files: seq<Option<Info>>, limit: nat)
    ensures Needs(files, limit) <==> exists l :: 0 <= l < TOP_LEVEL && CountAt(files, l) > limit
  {
    if l :| 0 <= l < 8 && |At(files, l)| > limit {
      CountIs(files, l);
    } else {
      forall l: nat | l < TOP_LEVEL ensures CountAt(files, l) <= limit {
        CountIs(files, l);
      }
    }
  }

  lemma {:induction false} CountGrows(files: seq<Option<Info>>, n: nat, level: nat)
    requires n <= |files|
    ensures CountAt(files[..n], level) <= CountAt(files, level)
    decreases |files|
  {
    if n == |files| {
      assert files[..n] == files;
    } else {
      var m := |files| - 1;
      CountGrows(files[..m], n, level);
      assert files[..m][..n] == files[..n];
    }
  }

  /** Counting stops at the first level over threshold, with the answer for the whole list. */
  method ManifestNeedsCompaction(files: seq<Option<Info>>, threshold: int) returns (needs: bool)
    ensures threshold >= 1 ==> (needs <==> Needs(files, threshold))
    ensures threshold <= 0 ==> (needs <==> Needs(files, 1))
  {
    var limit := if threshold <= 0 then 1 else threshold;
    NeedsByCount(files, limit);
    var counts: map<nat, nat> := map[];
    for i := 0 to |files|
      invariant forall l :: l in counts ==> l < TOP_LEVEL
      invariant forall l :: 0 <= l < TOP_LEVEL ==>
                  CountAt(files[..i], l) == (if l in counts then counts[l] else 0) <= limit
    {
      assert files[..i + 1][..i] == files[..i];
      if files[i].Some? && files[i].value.file.level < TOP_LEVEL {
        var level := files[i].value.file.level;
        counts := counts[level := (if level in counts then counts[level] else 0) + 1];
        if counts[level] > limit {
          CountGrows(files, i + 1, level);
          return true;
        }
      }
    }
    assert files[..|files|] == files;
    return false;
  }

  function Somes(infos: seq<Info>): (r: seq<Option<Info>>)
    ensures |r| == |infos| && forall i :: 0 <= i < |r| ==> r[i] == Some(infos[i])
  {
    seq(|infos|, i requires 0 <= i < |infos| => Some(infos[i]))
  }

  lemma LevelOfLast(infos: seq<Info>, level: nat)
    requires infos != [] && Distinct(infos)
    ensures var n := |infos| - 1;
            var x := LevelFiles(FilesOf(infos[..n]), level);
            && infos[n].file !in x
            && LevelFiles(FilesOf(infos), level) == if infos[n].file.level == level then x + {infos[n].file} else x
  {
    var n := |infos| - 1;
    assert infos == infos[..n] + [infos[n]];
    AppendFiles(infos[..n], infos[n]);
    assert infos[n].file !in FilesOf(infos[..n]);
  }

  lemma {:induction false} CountIsLevelSize(infos: seq<Info>, level: nat)
    requires Distinct(infos)
    ensures CountAt(Somes(infos), level) == |LevelFiles(FilesOf(infos), level)|
  {
    if infos == [] {
      assert LevelFiles(FilesOf(infos), level) == {};
    } else {
      var n := |infos| - 1;
      CountIsLevelSize(infos[..n], level);
      assert Somes(infos)[..n] == Somes(infos[..n]);
      LevelOfLast(infos, level);
    }
  }

  lemma NeedsIffUnbalanced(infos: seq<Info>, limit: nat)
    requires Distinct(infos)
    ensures Needs(Somes(infos), limit) <==> !Balanced(FilesOf(infos), limit, 0)
  {
    NeedsByCount(Somes(infos), limit);
    if l :| 0 <= l < TOP_LEVEL && |LevelFiles(FilesOf(infos), l)| > limit {
      CountIsLevelSize(infos, l);
    } else {
      forall l: nat | l < TOP_LEVEL ensures CountAt(Somes(infos), l) <= limit {
        CountIsLevelSize(infos, l);
      }
    }
  }

  /** updated and published are what a pass over files at the limit leaves. */
  ghost predicate Leaves(files: seq<Info>, limit: nat, ms: seq<File>, updated: seq<Info>, published: seq<Info>) {
    && IsPass(FilesOf(files), limit, 1, ms)
    && Distinct(updated) && FilesOf(updated) == Updated(FilesOf(files), ms)
    && Distinct(published) && FilesOf(published) == Published(FilesOf(files), ms, Sources(FilesOf(files), ms))
  }

  /**
   Exactly when the lists a pass leaves ask for no other: no level was over
   the limit with nothing new to merge, and no more than limit files of a merged
   level end past its merge; a published list also counts the level's merge.
   */
  lemma CompactionSettlesIff(files: seq<Info>, limit: nat, ms: seq<File>, updated: seq<Info>, published: seq<Info>)
    requires Leaves(files, limit, ms, updated, published)
    ensures var x := FilesOf(files);
            && (!Needs(Somes(updated), limit) <==> Unstuck(x, limit, 1, ms) && FewPast(x, limit, ms))
            && (!Needs(Somes(published), limit) <==> Unstuck(x, limit, 1, ms) && FewListed(x, limit, ms))
  {
    UpdatedSettlesIff(FilesOf(files), limit, ms);
    PublishedSettlesIff(FilesOf(files), limit, ms);
    NeedsIffUnbalanced(updated, limit);
    NeedsIffUnbalanced(published, limit);
  }

  /** On the five files of HALF, at threshold 2, an unhindered pass leaves both lists asking for another. */
  lemma HalfMergedListsAsk(files: seq<Info>, updated: seq<Info>, published: seq<Info>)
    requires FilesOf(files) == HALF && Distinct(updated) && Distinct(published)
    requires FilesOf(updated) == Updated(HALF, [File(2, 6, 6)])
    requires FilesOf(published) == Published(HALF, [File(2, 6, 6)], Sources(HALF, [File(2, 6, 6)]))
    ensures IsPass(HALF, 2, 1, [File(2, 6, 6)]) && Unstuck(HALF, 2, 1, [File(2, 6, 6)])
    ensures Needs(Somes(updated), 2) && Needs(Somes(published), 2)
  {
    HalfMergedAsksAgain();
    NeedsIffUnbalanced(updated, 2);
    NeedsIffUnbalanced(published, 2);
  }

  /** Over a manifest that is tidy or stacked, an unhindered pass leaves neither list asking for another. */
  lemma CompactionSettles(files: seq<Info>, n: nat, limit: nat, merged: seq<Info>, updated: seq<Info>,
                          published: seq<Info>)
    requires Tidy(FilesOf(files)) || (Stacked(FilesOf(files), FilesOf(files)) && Within(FilesOf(files), n))
    requires limit >= 1 && Leaves(files, limit, Names(merged), updated, published)
    requires Unstuck(FilesOf(files), limit, 1, Names(merged))
    ensures !Needs(Somes(updated), limit) && !Needs(Somes(published), limit)
  {
    var x := FilesOf(files);
    PassIsChain(x, limit, 1, Names(merged));
    if Tidy(x) {
      TidyDrains(x, 1, Names(merged));
    } else {
      StackedDrains(x, x, n, 1, Names(merged));
    }
    PassSettles(x, limit, Names(merged));
    NeedsIffUnbalanced(updated, limit);
    NeedsIffUnbalanced(published, limit);
  }

  // ------------------------------------------------------------------ deletion

  /** Exactly the named files go whose age has reached the retention; a negative one counts as zero. */
  method DeleteFiles(replica: MemoryReplica, files: seq<Info>, retention: int, now: int)
    modifies replica
    ensures forall f :: f in replica.objects <==>
              && f in old(replica.objects)
              && !exists i :: i in files && i.file == f
                           && i.createdAt + (if retention < 0 then 0 else retention) <= now
    ensures forall f :: f in replica.objects ==> replica.objects[f] == old(replica.objects)[f]
  {
    var cutoff := if retention < 0 then now else now - retention;
    var old' := [];
    for i := 0 to |files|
      invariant forall x :: x in old' <==> x in files[..i] && x.createdAt <= cutoff
    {
      if files[i].createdAt <= cutoff {
        old' := old' + [files[i]];
      }
    }
    assert files[..|files|] == files;
    if |old'| > 0 {
      replica.DeleteLTXFiles(old');
    }
  }

  /**
   Garbage is what is listed, unreferenced and as old as the retention.  While
   the flushed files that the manifest does not index yet are younger, each
   object removed is one that Database lets a collection remove.
   */
  method CollectGarbage(replica: MemoryReplica, manifest: Option<seq<Info>>, retention: int, now: int)
    modifies replica
    ensures manifest.None? ==> replica.objects == old(replica.objects)
    ensures manifest.Some? ==> forall f :: f in replica.objects <==>
              f in old(replica.objects)
              && (f in FilesOf(manifest.value) || f.level > 9
                  || old(replica.objects)[f].createdAt + (if retention < 0 then 0 else retention) > now)
    ensures forall f :: f in replica.objects ==> replica.objects[f] == old(replica.objects)[f]
    ensures
      && manifest.Some?
      && (forall f :: f in old(replica.objects) && f.level == 0 && f.min > Top(FilesOf(manifest.value)) ==>
            old(replica.objects)[f].createdAt + (if retention < 0 then 0 else retention) > now)
      ==> forall f :: f in old(replica.objects) && f !in replica.objects ==>
            Database.Doomed(Database.Collecting(FilesOf(manifest.value)), f)
  {
    if manifest.None? {
      return;
    }
    var cutoff := if retention < 0 then now else now - retention;
    var active := manifest.value;
    ghost var before := replica.objects;
    var all := replica.BuildManifest();
    var garbage := [];
    for i := 0 to |all|
      invariant replica.objects == before
      invariant forall x :: x in garbage <==>
                  x in all[..i] && x.file !in FilesOf(active) && x.createdAt <= cutoff
    {
      var used := ManifestContains(active, all[i].file);
      if !used && all[i].createdAt <= cutoff {
        garbage := garbage + [all[i]];
      }
    }
    assert all[..|all|] == all;
    if |garbage| > 0 {
      replica.DeleteLTXFiles(garbage);
    }
    forall f | f in before
      ensures f !in replica.objects <==>
                f !in FilesOf(active) && f.level <= SNAPSHOT_LEVEL && before[f].createdAt <= cutoff
    {
      var i := InfoOf(f, before[f]);
      assert i in all <==> f.level <= SNAPSHOT_LEVEL;
      assert forall x :: x in garbage && x.file == f ==> x == i;
      assert f !in replica.objects <==> i in garbage;
    }
  }
}
