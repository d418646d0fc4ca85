/**
 Compaction as the code runs it: a manifest-backed client that lists from a
 snapshot, the level loop over it, and the bookkeeping of merges and sources.
 Everything is tied to the passes of CompactionPass.
 */
module Compaction {
  import opened Wrappers
  import opened Levels
  import opened Manifest
  import opened FileCache
  import opened Replica
  import opened CompactionPass

  /** What a merge would write at a level, and its header timestamp if the write succeeds. */
  datatype Fate = Fate(data: Bytes, stamp: Option<int>)

  datatype Outcome = NoCompaction | Merged(info: Info) | Failed

  function Names(infos: seq<Info>): (r: seq<File>)
    ensures |r| == |infos| && forall i :: 0 <= i < |r| ==> r[i] == infos[i].file
  {
    seq(|infos|, i requires 0 <= i < |infos| => infos[i].file)
  }

  lemma {:induction false} DistinctCount(s: seq<Info>)
    requires Distinct(s)
    ensures |FilesOf(s)| == |s|
  {
    if s != [] {
      var n := |s| - 1;
      DistinctCount(s[..n]);
      assert s == s[..n] + [s[n]];
      AppendFiles(s[..n], s[n]);
      assert s[n].file !in FilesOf(s[..n]);
    }
  }

  class ManifestClient {
    const inner: MemoryReplica
    var files: seq<Info>
    var written: seq<Info>
    var deleted: seq<Info>

    constructor (inner: MemoryReplica, files: seq<Info>)
      ensures this.inner == inner && this.files == files && written == [] && deleted == []
    {
      this.inner, this.files, written, deleted := inner, files, [], [];
    }

    method LTXFiles(level: nat, seek: nat) returns (r: seq<Info>)
      ensures forall i :: i in r <==> i in files && i.file.level == level && i.file.min >= seek
      ensures Distinct(files) ==> Distinct(r)
    {
      r := [];
      for i := 0 to |files|
        invariant forall x :: x in r <==> x in files[..i] && x.file.level == level && x.file.min >= seek
        invariant Distinct(files) ==> Distinct(r)
      {
        if files[i].file.level == level && files[i].file.min >= seek {
          r := r + [files[i]];
        }
      }
      assert files[..|files|] == files;
    }

    /** A write that the replica accepts is listed at once and recorded; a refused one changes nothing. */
    method WriteLTXFile(file: File, data: Bytes, stamp: Option<int>) returns (r: Result<Info>)
      modifies this, inner
      ensures deleted == old(deleted)
      ensures stamp.None? ==>
                && r == Failure && files == old(files) && written == old(written)
                && inner.objects == old(inner.objects)
      ensures stamp.Some? ==>
                && r == Success(InfoOf(file, Object(data, stamp.value))) && written == old(written) + [r.value]
                && inner.objects == old(inner.objects)[file := Object(data, stamp.value)]
                && IsDelta(old(files), [r.value], [], files)
    {
      r := inner.WriteLTXFile(file, data, stamp);
      if r == Failure {
        return;
      }
      files := ApplyManifestDelta(files, [r.value], []);
      written := written + [r.value];
    }

    method DeleteLTXFiles(infos: seq<Info>)
      modifies this, inner
      ensures inner.objects == Deleted(old(inner.objects), infos) && written == old(written)
      ensures IsDelta(old(files), [], infos, files) && deleted == old(deleted) + infos
    {
      inner.DeleteLTXFiles(infos);
      files := ApplyManifestDelta(files, [], infos);
      deleted := deleted + infos;
    }
  }

  // -------------------------------------------------------------- one merge

  /** The sources Litestream's compactor lists: the level below, from above the destination's highest TXID. */
  lemma SourcesAreCandidates(files: seq<Info>, level: nat, dst: seq<Info>, seek: nat, src: seq<Info>)
    requires level >= 1 && seek == (if dst == [] then 0 else Top(FilesOf(dst)) + 1)
    requires forall i :: i in dst <==> i in files && i.file.level == level
    requires forall i :: i in src <==> i in files && i.file.level == level - 1 && i.file.min >= seek
    ensures FilesOf(src) == Candidates(FilesOf(files), level)
  {
    forall f | f in FilesOf(src) ensures f in Candidates(FilesOf(files), level) {
      forall g | g in FilesOf(files) && g.level == f.level + 1 ensures g.max < f.min {
        assert g in FilesOf(dst);
      }
    }
    forall f | f in Candidates(FilesOf(files), level) ensures f in FilesOf(src) {
      var i :| i in files && i.file == f;
      if dst != [] {
        assert dst[0].file in FilesOf(dst) && dst[0] in files;
        assert Top(FilesOf(dst)) == 0 || exists g :: g in FilesOf(dst) && g.max == Top(FilesOf(dst));
        assert dst[0].file in FilesOf(files) && dst[0].file.max < f.min;
      }
      assert i in src;
    }
  }

  /** The range of a list of files. */
  method Span(infos: seq<Info>) returns (min: nat, max: nat)
    requires infos != []
    ensures (exists i :: i in infos && i.file.min == min) && (exists i :: i in infos && i.file.max == max)
    ensures forall i :: i in infos ==> min <= i.file.min && i.file.max <= max
  {
    min, max := infos[0].file.min, infos[0].file.max;
    for n := 1 to |infos|
      invariant exists j :: 0 <= j < n && infos[j].file.min == min
      invariant exists j :: 0 <= j < n && infos[j].file.max == max
      invariant forall j :: 0 <= j < n ==> min <= infos[j].file.min && infos[j].file.max <= max
    {
      if infos[n].file.min < min {
        min := infos[n].file.min;
      }
      if infos[n].file.max > max {
        max := infos[n].file.max;
      }
    }
  }

  /** One merge into a level, as Litestream's compactor is documented to do it. */
  method CompactLevel(client: ManifestClient, level: nat, fate: Fate) returns (r: Outcome)
    requires level >= 1
    modifies client, client.inner
    ensures client.deleted == old(client.deleted)
    ensures r.NoCompaction? <==> Candidates(FilesOf(old(client.files)), level) == {}
    ensures r.Failed? <==> !r.NoCompaction? && fate.stamp.None?
    ensures !r.Merged? ==>
              && client.files == old(client.files) && client.written == old(client.written)
              && client.inner.objects == old(client.inner.objects)
    ensures r.Merged? ==>
              && IsMerge(r.info.file, Candidates(FilesOf(old(client.files)), level), level)
              && IsDelta(old(client.files), [r.info], [], client.files)
              && client.written == old(client.written) + [r.info]
              && client.inner.objects.Keys == old(client.inner.objects.Keys) + {r.info.file}
  {
    var dst := client.LTXFiles(level, 0);
    var top := ManifestMaxTXID(dst);
    var seek := if |dst| == 0 then 0 else top + 1;
    var src := client.LTXFiles(level - 1, seek);
    SourcesAreCandidates(client.files, level, dst, seek, src);
    if |src| == 0 {
      return NoCompaction;
    }
    assert src[0].file in FilesOf(src);
    var min, max := Span(src);
    assert IsMerge(File(level, min, max), FilesOf(src), level);
    var w := client.WriteLTXFile(File(level, min, max), fate.data, fate.stamp);
    r := if w == Failure then Failed else Merged(w.value);
  }

  // ----------------------------------------------------------- the level loop

  /** Whatever finishes the pass from level l on completes ms to a whole pass over x from level first on. */
  ghost predicate PassSoFar(x: set<File>, threshold: nat, first: nat, l: nat, ms: seq<File>)
    requires first >= 1 && l >= 1
  {
    forall rest :: IsPass(x + AsSet(ms), threshold, l, rest) ==> IsPass(x, threshold, first, ms + rest)
  }

  lemma PassStarts(x: set<File>, threshold: nat, first: nat)
    requires first >= 1
    ensures PassSoFar(x, threshold, first, first, [])
  {
    assert x + AsSet([]) == x;
    forall rest | IsPass(x + AsSet([]), threshold, first, rest) ensures IsPass(x, threshold, first, [] + rest) {
      assert [] + rest == rest;
    }
  }

  lemma PassSkips(x: set<File>, threshold: nat, first: nat, l: nat, ms: seq<File>)
    requires first >= 1 && 1 <= l <= TOP_LEVEL && PassSoFar(x, threshold, first, l, ms)
    requires !Fires(x + AsSet(ms), threshold, l)
    ensures PassSoFar(x, threshold, first, l + 1, ms)
  {
    forall rest | IsPass(x + AsSet(ms), threshold, l + 1, rest) ensures IsPass(x, threshold, first, ms + rest) {
      assert IsPass(x + AsSet(ms), threshold, l, rest);
    }
  }

  lemma PassMerges(x: set<File>, threshold: nat, first: nat, l: nat, ms: seq<File>, info: File)
    requires first >= 1 && 1 <= l <= TOP_LEVEL && PassSoFar(x, threshold, first, l, ms)
    requires Fires(x + AsSet(ms), threshold, l) && IsMerge(info, Candidates(x + AsSet(ms), l), l)
    ensures PassSoFar(x, threshold, first, l + 1, ms + [info])
  {
    assert x + AsSet(ms + [info]) == (x + AsSet(ms)) + {info};
    forall rest | IsPass(x + AsSet(ms + [info]), threshold, l + 1, rest)
      ensures IsPass(x, threshold, first, (ms + [info]) + rest)
    {
      PassCons(x + AsSet(ms), threshold, l, info, rest);
      assert ms + ([info] + rest) == (ms + [info]) + rest;
    }
  }

  /** One more turn: skipped adds nothing, merged adds its one file. */
  lemma PassTurns(x: set<File>, threshold: nat, first: nat, l: nat, ms: seq<File>, more: seq<File>)
    requires first >= 1 && 1 <= l <= TOP_LEVEL && PassSoFar(x, threshold, first, l, ms)
    requires |more| <= 1 && (more == [] ==> !Fires(x + AsSet(ms), threshold, l))
    requires more != [] ==> Fires(x + AsSet(ms), threshold, l) && IsMerge(more[0], Candidates(x + AsSet(ms), l), l)
    ensures PassSoFar(x, threshold, first, l + 1, ms + more)
  {
    if more == [] {
      PassSkips(x, threshold, first, l, ms);
      assert ms + more == ms;
    } else {
      PassMerges(x, threshold, first, l, ms, more[0]);
      assert more == [more[0]];
    }
  }

  lemma PassEnds(x: set<File>, threshold: nat, first: nat, l: nat, ms: seq<File>)
    requires first >= 1 && l == TOP_LEVEL + 1 && PassSoFar(x, threshold, first, l, ms)
    ensures IsPass(x, threshold, first, ms)
  {
    assert IsPass(x + AsSet(ms), threshold, l, []);
    assert ms + [] == ms;
  }

  lemma NamesSnoc(infos: seq<Info>, info: Info)
    ensures Names(infos + [info]) == Names(infos) + [info.file]
    ensures AsSet(Names(infos + [info])) == AsSet(Names(infos)) + {info.file}
  {
  }

  /** One turn of the loop: count the level below, and merge it when it is over the limit. */
  method CompactTurn(client: ManifestClient, limit: nat, level: nat, fate: Fate) returns (r: Outcome)
    requires level >= 1
    modifies client, client.inner
    ensures r.Failed? ==> fate.stamp.None?
    ensures !r.Merged? ==>
              && client.files == old(client.files) && client.written == old(client.written)
              && client.inner.objects == old(client.inner.objects)
    ensures Distinct(old(client.files)) && r.NoCompaction? ==> !Fires(FilesOf(old(client.files)), limit, level)
    ensures Distinct(old(client.files)) && r.Merged? ==> Fires(FilesOf(old(client.files)), limit, level)
    ensures r.Merged? ==>
              && IsMerge(r.info.file, Candidates(FilesOf(old(client.files)), level), level)
              && FilesOf(client.files) == FilesOf(old(client.files)) + {r.info.file}
              && (Distinct(old(client.files)) ==> Distinct(client.files))
              && client.written == old(client.written) + [r.info]
              && client.inner.objects.Keys == old(client.inner.objects.Keys) + {r.info.file}
  {
    var listed := client.LTXFiles(level - 1, 0);
    assert FilesOf(listed) == LevelFiles(FilesOf(client.files), level - 1);
    if Distinct(client.files) {
      DistinctCount(listed);
    }
    if |listed| <= limit {
      return NoCompaction;
    }
    r := CompactLevel(client, level, fate);
    if r.Merged? {
      assert FilesOf([r.info]) == {r.info.file} && FilesOf([]) == {};
    }
  }

  /** The loop from level first on: a pass from there, when nothing fails. */
  method CompactFrom(client: ManifestClient, limit: nat, first: nat, fates: seq<Fate>)
      returns (failed: bool, merged: seq<Info>)
    requires 1 <= first <= TOP_LEVEL < |fates|
    modifies client, client.inner
    ensures client.written == old(client.written) + merged && (Distinct(old(client.files)) ==> Distinct(client.files))
    ensures FilesOf(client.files) == FilesOf(old(client.files)) + AsSet(Names(merged))
    ensures client.inner.objects.Keys == old(client.inner.objects.Keys) + AsSet(Names(merged))
    ensures !failed && Distinct(old(client.files)) ==> IsPass(FilesOf(old(client.files)), limit, first, Names(merged))
    ensures failed ==> exists l :: 1 <= l <= TOP_LEVEL && fates[l].stamp.None?
  {
    ghost var x := FilesOf(client.files);
    ghost var distinct := Distinct(client.files);
    merged := [];
    PassStarts(x, limit, first);
    for level := first to TOP_LEVEL + 1
      invariant client.written == old(client.written) + merged && (distinct ==> Distinct(client.files))
      invariant FilesOf(client.files) == x + AsSet(Names(merged))
      invariant client.inner.objects.Keys == old(client.inner.objects.Keys) + AsSet(Names(merged))
      invariant distinct ==> PassSoFar(x, limit, first, level, Names(merged))
    {
      var r := CompactTurn(client, limit, level, fates[level]);
      if r.Failed? {
        return true, merged;
      }
      if distinct {
        PassTurns(x, limit, first, level, Names(merged), if r.Merged? then [r.info.file] else []);
      }
      if r.Merged? {
        NamesSnoc(merged, r.info);
        merged := merged + [r.info];
      }
    }
    if distinct {
      PassEnds(x, limit, first, TOP_LEVEL + 1, Names(merged));
    }
    return false, merged;
  }

  /** A level loop that meets no failure performs exactly one pass over the snapshot. */
  method CompactWithClient(client: ManifestClient, threshold: int, fates: seq<Fate>)
      returns (failed: bool, merged: seq<Info>)
    requires |fates| > TOP_LEVEL
    modifies client, client.inner
    ensures client.written == old(client.written) + merged && (Distinct(old(client.files)) ==> Distinct(client.files))
    ensures FilesOf(client.files) == FilesOf(old(client.files)) + AsSet(Names(merged))
    ensures client.inner.objects.Keys == old(client.inner.objects.Keys) + AsSet(Names(merged))
    ensures !failed && Distinct(old(client.files)) && threshold >= 1 ==>
              IsPass(FilesOf(old(client.files)), threshold, 1, Names(merged))
    ensures !failed && Distinct(old(client.files)) && threshold <= 0 ==>
              IsPass(FilesOf(old(client.files)), 1, 1, Names(merged))
    ensures failed ==> exists l :: 1 <= l <= TOP_LEVEL && fates[l].stamp.None?
  {
    var limit := if threshold <= 0 then 1 else threshold;
    failed, merged := CompactFrom(client, limit, 1, fates);
  }
}
