/**
 The level geometry of a replica: which TXIDs a set of LTX files covers, which
 files a compaction step merges, and when removing the merged sources is safe.

 A file is identified by its level and inclusive TXID range.  Sets of files
 stand for the manifest and for the object-store listing.
 */
module Levels {

  // Litestream's snapshot level, and the highest level a merge writes to.
  const SNAPSHOT_LEVEL: nat := 9
  const TOP_LEVEL: nat := 8

  datatype File = File(level: nat, min: nat, max: nat)

  predicate Has(f: File, t: nat) {
    f.min <= t <= f.max
  }

  ghost predicate Covers(x: set<File>, t: nat) {
    exists f :: f in x && Has(f, t)
  }

  /** t lies in a file of x whose level is at least j. */
  ghost predicate CoversFrom(x: set<File>, j: nat, t: nat) {
    exists f :: f in x && f.level >= j && Has(f, t)
  }

  ghost predicate CoversUpTo(x: set<File>, n: nat) {
    forall t :: 1 <= t <= n ==> Covers(x, t)
  }

  /** Some file of x goes up to n; nothing is asked for n = 0. */
  ghost predicate Reaches(x: set<File>, n: nat) {
    n == 0 || exists f :: f in x && f.max >= n
  }

  ghost predicate Within(x: set<File>, n: nat) {
    forall f :: f in x ==> 1 <= f.min <= f.max <= n && f.level <= SNAPSHOT_LEVEL
  }

  /** The highest TXID of a set of files, 0 when it is empty. */
  ghost function Top(x: set<File>): (m: nat)
    ensures forall f :: f in x ==> f.max <= m
    ensures m == 0 || exists f :: f in x && f.max == m
  {
    if x == {} then 0 else
      var f :| f in x;
      var r := Top(x - {f});
      assert forall g :: g in x ==> g == f || g in x - {f};
      if f.max > r then f.max else r
  }

  ghost function LevelFiles(x: set<File>, level: nat): set<File> {
    set f | f in x && f.level == level
  }

  /** f lies wholly above every file of a higher level. */
  ghost predicate Live(f: File, x: set<File>) {
    forall g :: g in x && g.level > f.level ==> g.max < f.min
  }

  /** f starts above the highest TXID of the next level: the only files a merge reads. */
  ghost predicate Candidate(f: File, x: set<File>) {
    forall g :: g in x && g.level == f.level + 1 ==> g.max < f.min
  }

  /**
   Every file is live and kept, or is a leftover: it is not a merge candidate
   and all its TXIDs are in kept files of higher levels.
   */
  ghost predicate Stacked(x: set<File>, keep: set<File>) {
    StackedFrom(x, keep, 0)
  }

  ghost predicate Leftover(f: File, x: set<File>, keep: set<File>) {
    && !Candidate(f, x)
    && forall t :: Has(f, t) ==> CoversFrom(keep, f.level + 1, t)
  }

  ghost predicate StackedFrom(x: set<File>, keep: set<File>, j: nat) {
    forall f :: f in x && f.level >= j ==> (Live(f, x) && f in keep) || Leftover(f, x, keep)
  }

  /** The kept files of level j and above have no gap below their highest TXID. */
  ghost predicate Gapless(x: set<File>, keep: set<File>, j: nat) {
    forall f, t :: f in x && f.level >= j && 1 <= t <= f.max ==> CoversFrom(keep, j, t)
  }

  ghost function Candidates(x: set<File>, l: nat): set<File> {
    set f | f in x && f.level + 1 == l && Candidate(f, x)
  }

  /** info is the merge of all of cs into level l. */
  ghost predicate IsMerge(info: File, cs: set<File>, l: nat) {
    && info.level == l
    && (exists c :: c in cs && c.min == info.min)
    && (exists c :: c in cs && c.max == info.max)
    && forall c :: c in cs ==> info.min <= c.min && c.max <= info.max
  }

  /** The source files a merge retires: chosen by level and MaxTXID only. */
  ghost function Gone(x: set<File>, info: File): set<File> {
    set f | f in x && f.level + 1 == info.level && f.max <= info.max
  }

  ghost function After(x: set<File>, info: File): set<File> {
    (x - Gone(x, info)) + {info}
  }

  lemma CoversMore(x: set<File>, y: set<File>, n: nat)
    requires x <= y && CoversUpTo(x, n)
    ensures CoversUpTo(y, n)
  {
    forall t | 1 <= t <= n ensures Covers(y, t) {
      assert Covers(x, t);
    }
  }

  // ---------------------------------------------------------------- one merge

  /** A merge stays within the range and the levels of its sources. */
  lemma MergeWithin(x: set<File>, n: nat, l: nat, info: File)
    requires 1 <= l <= TOP_LEVEL && Within(x, n) && IsMerge(info, Candidates(x, l), l)
    ensures Within(x + {info}, n)
  {
    var lo :| lo in Candidates(x, l) && lo.min == info.min;
    var hi :| hi in Candidates(x, l) && hi.max == info.max;
  }

  /** In a stacked set a merge candidate lies above every higher level. */
  lemma CandidatesAreLive(x: set<File>, keep: set<File>, l: nat, c: File)
    requires l >= 1 && StackedFrom(x, keep, l - 1)
    requires c in Candidates(x, l)
    ensures Live(c, x) && c in keep
  {
  }

  /** A TXID of a retired file is in the merged file or in a kept file of level l or above. */
  lemma RetiredIsCovered(x: set<File>, keep: set<File>, l: nat, info: File, f: File, t: nat)
    requires l >= 1 && StackedFrom(x, keep, l - 1)
    requires IsMerge(info, Candidates(x, l), l)
    requires f in x && f.level == l - 1 && Has(f, t)
    ensures Has(info, t) || CoversFrom(keep - Gone(x, info), l, t)
  {
    if f in Candidates(x, l) {
    } else {
      var g :| g in keep && g.level >= l && Has(g, t);
      assert g in keep - Gone(x, info);
    }
  }

  /** The same, by a file kept after the merge. */
  lemma RetiredCoveredAbove(x: set<File>, keep: set<File>, l: nat, info: File, f: File, t: nat)
    requires l >= 1 && StackedFrom(x, keep, l - 1) && IsMerge(info, Candidates(x, l), l)
    requires f in Gone(x, info) && Has(f, t)
    ensures CoversFrom((keep - Gone(x, info)) + {info}, l, t)
  {
    var keep' := (keep - Gone(x, info)) + {info};
    RetiredIsCovered(x, keep, l, info, f, t);
    if Has(info, t) {
      assert info in keep';
    } else {
      var h :| h in keep - Gone(x, info) && h.level >= l && Has(h, t);
      assert h in keep';
    }
  }

  /**
   A merge over a stacked set loses no kept TXID, although the retired files
   are chosen by level and MaxTXID alone, and the result is stacked from the
   destination level up.
   */
  lemma MergeKeepsCoverage(x: set<File>, keep: set<File>, l: nat, info: File)
    requires l >= 1 && keep <= x && StackedFrom(x, keep, l - 1)
    requires IsMerge(info, Candidates(x, l), l)
    ensures forall t :: Covers(keep, t) ==> Covers((keep - Gone(x, info)) + {info}, t)
    ensures StackedFrom(After(x, info), (keep - Gone(x, info)) + {info}, l)
  {
    var keep' := (keep - Gone(x, info)) + {info};
    var x' := After(x, info);
    assert info in keep';
    forall t | Covers(keep, t)
      ensures Covers(keep', t)
    {
      var f :| f in keep && Has(f, t);
      if f in Gone(x, info) {
        RetiredIsCovered(x, keep, l, info, f, t);
        if !Has(info, t) {
          var g :| g in keep - Gone(x, info) && g.level >= l && Has(g, t);
          assert g in keep';
        }
      } else {
        assert f in keep';
      }
    }
    forall f | f in x' && f.level >= l
      ensures (Live(f, x') && f in keep') || Leftover(f, x', keep')
    {
      if f == info {
        var c :| c in Candidates(x, l) && c.min == info.min;
        CandidatesAreLive(x, keep, l, c);
        assert Live(f, x');
      } else if Live(f, x) && f in keep {
        assert Live(f, x') && f in keep';
      } else {
        assert Leftover(f, x, keep);
        var g :| g in x && g.level == f.level + 1 && g.max >= f.min;
        assert g in x';
        forall t | Has(f, t)
          ensures CoversFrom(keep', f.level + 1, t)
        {
          var h :| h in keep && h.level >= f.level + 1 && Has(h, t);
          assert h in keep';
        }
      }
    }
  }

  /** The merged range is exactly what its sources cover: no TXID is invented. */
  lemma MergeExact(x: set<File>, keep: set<File>, l: nat, info: File, t: nat)
    requires l >= 1 && keep <= x && StackedFrom(x, keep, l - 1) && Gapless(x, keep, l - 1)
    requires IsMerge(info, Candidates(x, l), l)
    requires 1 <= info.min && Has(info, t)
    ensures Covers(Candidates(x, l), t)
  {
    var hi :| hi in Candidates(x, l) && hi.max == info.max;
    var lo :| lo in Candidates(x, l) && lo.min == info.min;
    CandidatesAreLive(x, keep, l, lo);
    assert CoversFrom(keep, l - 1, t);
    var g :| g in keep && g.level >= l - 1 && Has(g, t);
    assert !CoversFrom(keep, l, t);
    assert g.level == l - 1 && g in Candidates(x, l);
  }

  /** A merge keeps the levels above its destination gapless, itself included. */
  lemma MergeGapless(x: set<File>, keep: set<File>, l: nat, info: File, j: nat)
    requires l >= 1 && keep <= x && StackedFrom(x, keep, l - 1)
    requires Gapless(x, keep, l - 1) && Gapless(x, keep, j) && j >= l
    requires IsMerge(info, Candidates(x, l), l)
    ensures Gapless(After(x, info), (keep - Gone(x, info)) + {info}, j)
  {
    var keep' := (keep - Gone(x, info)) + {info};
    var x' := After(x, info);
    forall f, t | f in x' && f.level >= j && 1 <= t <= f.max
      ensures CoversFrom(keep', j, t)
    {
      if f != info {
        assert CoversFrom(keep, j, t);
        var g :| g in keep && g.level >= j && Has(g, t);
        assert g in keep';
      } else {
        var c :| c in Candidates(x, l) && c.max == info.max;
        assert CoversFrom(keep, l - 1, t);
        var g :| g in keep && g.level >= l - 1 && Has(g, t);
        if g.level >= l {
          assert g in keep';
        } else {
          RetiredIsCovered(x, keep, l, info, g, t);
          if Has(info, t) {
            assert info in keep';
          } else {
            var h :| h in keep - Gone(x, info) && h.level >= l && Has(h, t);
            assert h in keep';
          }
        }
      }
    }
  }

  /** Climb from a covering file to one of level j, when some file of level j reaches t. */
  lemma Climb(x: set<File>, keep: set<File>, n: nat, g: File, f: File, t: nat, j: nat)
    requires Stacked(x, keep) && keep <= x && Within(x, n)
    requires g in keep && Has(g, t)
    requires f in x && f.level >= j && t <= f.max
    ensures CoversFrom(keep, j, t)
    decreases SNAPSHOT_LEVEL - g.level
  {
    if g.level < j {
      assert !Live(g, x);
      var h :| h in keep && h.level >= g.level + 1 && Has(h, t);
      Climb(x, keep, n, h, f, t, j);
    }
  }

  /** A stacked set that covers 1..n has no gap at any height. */
  lemma StackedIsGapless(x: set<File>, keep: set<File>, n: nat, j: nat)
    requires Stacked(x, keep) && keep <= x && Within(x, n) && CoversUpTo(keep, n)
    ensures Gapless(x, keep, j)
  {
    forall f, t | f in x && f.level >= j && 1 <= t <= f.max
      ensures CoversFrom(keep, j, t)
    {
      assert Covers(keep, t);
      var g :| g in keep && Has(g, t);
      Climb(x, keep, n, g, f, t, j);
    }
  }

  // ------------------------------------------- when the invariant survives

  /** A merge empties the source level of a stacked set. */
  lemma MergeEmptiesSource(x: set<File>, keep: set<File>, n: nat, l: nat, info: File)
    requires l >= 1 && keep <= x && StackedFrom(x, keep, l - 1) && Within(x, n)
    requires IsMerge(info, Candidates(x, l), l)
    ensures forall f :: f in x && f.level == l - 1 ==> f in Gone(x, info)
  {
    forall f | f in x && f.level == l - 1
      ensures f.max <= info.max
    {
      if f !in Candidates(x, l) {
        assert Has(f, f.max);
        var g :| g in keep && g.level >= l && Has(g, f.max);
        var c :| c in Candidates(x, l) && c.max == info.max;
        CandidatesAreLive(x, keep, l, c);
      }
    }
  }

  /**
   Exactly when one merge leaves the set stacked: the level below the merged
   source level holds no leftover.  A pass that skips that level because it is
   at or under the threshold, and then merges the next one, breaks the order.
   */
  lemma MergeStackedIff(x: set<File>, keep: set<File>, n: nat, l: nat, info: File)
    requires l >= 1 && keep <= x && Stacked(x, keep) && Within(x, n)
    requires IsMerge(info, Candidates(x, l), l)
    ensures Stacked(After(x, info), (keep - Gone(x, info)) + {info})
       <==> forall f :: f in x && f.level + 2 == l ==> Live(f, x)
  {
    if forall f :: f in x && f.level + 2 == l ==> Live(f, x) {
      MergeStaysStacked(x, keep, n, l, info);
    } else {
      var f :| f in x && f.level + 2 == l && !Live(f, x);
      MergeBreaksOrder(x, keep, n, l, info, f);
    }
  }

  lemma MergeStaysStacked(x: set<File>, keep: set<File>, n: nat, l: nat, info: File)
    requires l >= 1 && keep <= x && Stacked(x, keep) && Within(x, n)
    requires IsMerge(info, Candidates(x, l), l)
    requires forall f :: f in x && f.level + 2 == l ==> Live(f, x)
    ensures Stacked(After(x, info), (keep - Gone(x, info)) + {info})
  {
    var keep' := (keep - Gone(x, info)) + {info};
    var x' := After(x, info);
    MergeKeepsCoverage(x, keep, l, info);
    MergeEmptiesSource(x, keep, n, l, info);
    forall f | f in x' && f.level < l
      ensures (Live(f, x') && f in keep') || Leftover(f, x', keep')
    {
      assert f in x && f.level + 1 < l;
      if Live(f, x) && f in keep {
        var c :| c in Candidates(x, l) && c.max == info.max;
        assert Live(f, x');
      } else {
        var g :| g in x && g.level == f.level + 1 && g.max >= f.min;
        assert g in x';
        forall t | Has(f, t)
          ensures CoversFrom(keep', f.level + 1, t)
        {
          LeftoverStaysCovered(x, keep, l, info, f, t);
        }
      }
    }
  }

  lemma LeftoverStaysCovered(x: set<File>, keep: set<File>, l: nat, info: File, f: File, t: nat)
    requires l >= 1 && keep <= x && StackedFrom(x, keep, l - 1)
    requires IsMerge(info, Candidates(x, l), l)
    requires f.level + 1 < l && CoversFrom(keep, f.level + 1, t)
    ensures CoversFrom((keep - Gone(x, info)) + {info}, f.level + 1, t)
  {
    var keep' := (keep - Gone(x, info)) + {info};
    var g :| g in keep && g.level >= f.level + 1 && Has(g, t);
    if g in Gone(x, info) {
      RetiredIsCovered(x, keep, l, info, g, t);
      if Has(info, t) {
        assert info in keep';
      } else {
        var h :| h in keep - Gone(x, info) && h.level >= l && Has(h, t);
        assert h in keep';
      }
    } else {
      assert g in keep';
    }
  }

  lemma MergeBreaksOrder(x: set<File>, keep: set<File>, n: nat, l: nat, info: File, f: File)
    requires l >= 1 && keep <= x && Stacked(x, keep) && Within(x, n)
    requires IsMerge(info, Candidates(x, l), l)
    requires f in x && f.level + 2 == l && !Live(f, x)
    ensures !Stacked(After(x, info), (keep - Gone(x, info)) + {info})
  {
    var keep' := (keep - Gone(x, info)) + {info};
    var x' := After(x, info);
    MergeEmptiesSource(x, keep, n, l, info);
    assert f in x';
    assert Candidate(f, x');
    assert Has(f, f.min);
    LeftoverStaysCovered(x, keep, l, info, f, f.min);
    var g :| g in keep' && g.level >= f.level + 1 && Has(g, f.min);
    assert g in x';
  }

  /**
   Without any assumption on the set: a merge keeps every covered TXID exactly
   when each file it retires without reading (it starts at or below the
   destination's highest TXID) lies in the merged range or in a file left behind.
   */
  lemma MergeConservesIff(x: set<File>, l: nat, info: File)
    requires l >= 1 && IsMerge(info, Candidates(x, l), l)
    ensures (forall t :: Covers(x, t) ==> Covers(After(x, info), t))
       <==> forall f, t :: f in Gone(x, info) && !Candidate(f, x) && Has(f, t) ==>
                             Has(info, t) || Covers(x - Gone(x, info), t)
  {
    var x' := After(x, info);
    if forall t :: Covers(x, t) ==> Covers(x', t) {
      forall f, t | f in Gone(x, info) && !Candidate(f, x) && Has(f, t)
        ensures Has(info, t) || Covers(x - Gone(x, info), t)
      {
        assert Covers(x, t);
        var g :| g in x' && Has(g, t);
        assert g == info || g in x - Gone(x, info);
      }
    }
    if forall f, t :: f in Gone(x, info) && !Candidate(f, x) && Has(f, t) ==>
                        Has(info, t) || Covers(x - Gone(x, info), t) {
      forall t | Covers(x, t)
        ensures Covers(x', t)
      {
        var f :| f in x && Has(f, t);
        assert info in x';
        if f in Gone(x, info) {
          if Candidate(f, x) {
            assert f in Candidates(x, l);
          } else if !Has(info, t) {
            var g :| g in x - Gone(x, info) && Has(g, t);
            assert g in x';
          }
        } else {
          assert f in x';
        }
      }
    }
  }

  /** Files held above by kept ones may stay listed, as long as none is a candidate. */
  lemma AddLeftovers(x: set<File>, keep: set<File>, extra: set<File>)
    requires keep <= x && Stacked(x, keep)
    requires forall f :: f in extra ==> f.min <= f.max && !Candidate(f, x + extra)
    requires forall f, t :: f in extra && Has(f, t) ==> CoversFrom(keep, f.level + 1, t)
    ensures Stacked(x + extra, keep)
  {
    forall f | f in x + extra
      ensures (Live(f, x + extra) && f in keep) || Leftover(f, x + extra, keep)
    {
      if f in extra {
        assert Leftover(f, x + extra, keep);
      } else if Live(f, x) && f in keep {
        forall g | g in x + extra && g.level > f.level
          ensures g.max < f.min
        {
          if g !in x {
            assert Has(g, g.max);
            var h :| h in keep && h.level >= g.level + 1 && Has(h, g.max);
          }
        }
      } else {
        var g :| g in x && g.level == f.level + 1 && g.max >= f.min;
        assert g in x + extra;
      }
    }
  }

  /** Level-0 files above everything may be appended. */
  lemma AppendTails(x: set<File>, keep: set<File>, n: nat, tails: set<File>)
    requires Within(x, n) && Stacked(x, keep) && forall f :: f in tails ==> f.level == 0 && f.min > n
    ensures Stacked(x + tails, keep + tails)
  {
    forall f | f in x + tails
      ensures (Live(f, x + tails) && f in keep + tails) || Leftover(f, x + tails, keep + tails)
    {
      if f !in tails && !(Live(f, x) && f in keep) {
        var g :| g in x && g.level == f.level + 1 && g.max >= f.min;
        assert g in x + tails;
        forall t | Has(f, t) ensures CoversFrom(keep + tails, f.level + 1, t) {
          var h :| h in keep && h.level >= f.level + 1 && Has(h, t);
          assert h in keep + tails;
        }
      }
    }
  }
}
