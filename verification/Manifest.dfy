/**
 The manifest as the code handles it: lists of file infos, searched, merged
 and sorted by loops.  Each loop is tied to the sets of Levels.
 */
module Manifest {
  import opened Levels

  const MANIFEST_VERSION: int := 1

  /** One ltx.FileInfo. */
  datatype Info = Info(file: File, size: int, createdAt: int)

  ghost function FilesOf(s: seq<Info>): set<File> {
    set i | i in s :: i.file
  }

  ghost predicate Distinct(s: seq<Info>) {
    forall i, j :: 0 <= i < j < |s| ==> s[i].file != s[j].file
  }

  /** The order of every listing: level, then MinTXID. */
  predicate InOrder(a: Info, b: Info) {
    a.file.level < b.file.level || (a.file.level == b.file.level && a.file.min <= b.file.min)
  }

  ghost predicate SortedBy<T(!new)>(s: seq<T>, le: (T, T) -> bool) {
    forall i, j :: 0 <= i < j < |s| ==> le(s[i], s[j])
  }

  ghost predicate IsPreorder<T(!new)>(le: (T, T) -> bool) {
    && (forall a, b :: le(a, b) || le(b, a))
    && forall a, b, c :: le(a, b) && le(b, c) ==> le(a, c)
  }

  lemma SplitAt<T>(s: seq<T>, k: nat, e: T)
    requires k <= |s|
    ensures multiset(s[..k] + [e] + s[k..]) == multiset(s) + multiset{e}
  {
    assert s == s[..k] + s[k..];
  }

  /** sort.Slice promises a sorted permutation and nothing about ties. */
  method Sort<T(!new)>(s: seq<T>, le: (T, T) -> bool) returns (r: seq<T>)
    requires IsPreorder(le)
    ensures SortedBy(r, le) && multiset(r) == multiset(s)
  {
    r := [];
    for i := 0 to |s|
      invariant SortedBy(r, le) && multiset(r) == multiset(s[..i])
    {
      var k := 0;
      while k < |r| && le(r[k], s[i])
        invariant k <= |r| && forall j :: 0 <= j < k ==> le(r[j], s[i])
      {
        k := k + 1;
      }
      SplitAt(r, k, s[i]);
      r := r[..k] + [s[i]] + r[k..];
      assert s[..i + 1] == s[..i] + [s[i]];
    }
    assert s[..|s|] == s;
  }

  // ---------------------------------------------------------------- searches

  method ManifestContains(files: seq<Info>, want: File) returns (found: bool)
    ensures found <==> want in FilesOf(files)
  {
    for i := 0 to |files|
      invariant forall j :: 0 <= j < i ==> files[j].file != want
    {
      if files[i].file == want {
        return true;
      }
    }
    return false;
  }

  method ManifestMaxTXID(files: seq<Info>) returns (max: nat)
    ensures max == Top(FilesOf(files))
  {
    max := 0;
    for i := 0 to |files|
      invariant forall j :: 0 <= j < i ==> files[j].file.max <= max
      invariant max == 0 || exists j :: 0 <= j < i && files[j].file.max == max
    {
      if files[i].file.max > max {
        max := files[i].file.max;
      }
    }
    assert forall f :: f in FilesOf(files) ==> f.max <= max;
  }

  method ManifestHasTXID(files: seq<Info>, txid: nat) returns (has: bool)
    ensures has <==> Covers(FilesOf(files), txid)
  {
    for i := 0 to |files|
      invariant forall j :: 0 <= j < i ==> !Has(files[j].file, txid)
    {
      if files[i].file.min <= txid && txid <= files[i].file.max {
        assert files[i].file in FilesOf(files) && Has(files[i].file, txid);
        return true;
      }
    }
    return false;
  }

  // ------------------------------------------------------------------- delta

  ghost predicate FromDelta(base: seq<Info>, written: seq<Info>, deleted: seq<Info>, i: Info) {
    || (i in base && i.file !in FilesOf(deleted))
    || (i in written && i.file !in FilesOf(base) - FilesOf(deleted))
  }

  /** out lists base less deleted, then what of written it does not list yet. */
  ghost predicate IsDelta(base: seq<Info>, written: seq<Info>, deleted: seq<Info>, out: seq<Info>) {
    && FilesOf(out) == (FilesOf(base) - FilesOf(deleted)) + FilesOf(written)
    && (forall i :: i in base && i.file !in FilesOf(deleted) ==> i in out)
    && (forall i :: i in out ==> FromDelta(base, written, deleted, i))
    && (Distinct(base) ==> Distinct(out))
  }

  lemma SameElements(a: seq<Info>, b: seq<Info>)
    requires multiset(a) == multiset(b)
    ensures (forall i :: i in a <==> i in b) && FilesOf(a) == FilesOf(b)
  {
    forall i ensures i in a <==> i in b {
      assert i in a <==> i in multiset(a);
      assert i in b <==> i in multiset(b);
    }
  }

  lemma TwiceIn(s: seq<Info>, i: nat, j: nat)
    requires i < j < |s| && s[i] == s[j]
    ensures multiset(s)[s[i]] >= 2
  {
    assert s == s[..j] + [s[j]] + s[j + 1..];
    assert s[i] in s[..j];
  }

  lemma {:induction false} DistinctOnce(s: seq<Info>, e: Info)
    requires Distinct(s)
    ensures multiset(s)[e] <= 1
  {
    if s != [] {
      var n := |s| - 1;
      DistinctOnce(s[..n], e);
      assert s == s[..n] + [s[n]];
      assert s[n] !in s[..n];
    }
  }

  /** Being free of duplicates does not depend on the order. */
  lemma PermutedDistinct(a: seq<Info>, b: seq<Info>)
    requires multiset(a) == multiset(b) && Distinct(a)
    ensures Distinct(b)
  {
    SameElements(a, b);
    forall i, j | 0 <= i < j < |b|
      ensures b[i].file != b[j].file
    {
      if b[i] == b[j] {
        TwiceIn(b, i, j);
        DistinctOnce(a, b[i]);
      } else {
        assert b[i] in a && b[j] in a;
      }
    }
  }

  /** Base entries keep their own metadata; a written entry never replaces one. */
  method ApplyManifestDelta(base: seq<Info>, written: seq<Info>, deleted: seq<Info>) returns (out: seq<Info>)
    ensures IsDelta(base, written, deleted, out)
    ensures forall i, j :: 0 <= i < j < |out| ==>
              || out[i].file.level < out[j].file.level
              || (out[i].file.level == out[j].file.level && out[i].file.min <= out[j].file.min)
  {
    var list := [];
    for i := 0 to |base|
      invariant forall e :: e in list <==> e in base[..i] && e.file !in FilesOf(deleted)
      invariant Distinct(base) ==> Distinct(list)
    {
      var gone := ManifestContains(deleted, base[i].file);
      if !gone {
        list := list + [base[i]];
      }
    }
    assert base[..|base|] == base;
    ghost var kept := list;
    assert FilesOf(kept) == FilesOf(base) - FilesOf(deleted);
    for i := 0 to |written|
      invariant forall e :: e in kept ==> e in list
      invariant forall e :: e in list ==> e in kept || (e in written && e.file !in FilesOf(kept))
      invariant FilesOf(list) == FilesOf(kept) + FilesOf(written[..i])
      invariant Distinct(base) ==> Distinct(list)
    {
      var known := ManifestContains(list, written[i].file);
      assert written[..i + 1] == written[..i] + [written[i]];
      AppendFiles(written[..i], written[i]);
      if !known {
        AppendFiles(list, written[i]);
        list := list + [written[i]];
      }
    }
    assert written[..|written|] == written;
    out := Sort(list, InOrder);
    SameElements(list, out);
    if Distinct(base) {
      PermutedDistinct(list, out);
    }
  }

  lemma AppendFiles(s: seq<Info>, e: Info)
    ensures FilesOf(s + [e]) == FilesOf(s) + {e.file}
  {
  }
}
