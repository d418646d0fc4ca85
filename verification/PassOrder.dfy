/**
 Why a pass over an orderly manifest leaves an orderly manifest, turn by turn.
 With levels above 0 within the threshold at the start, a level fires only when
 the level below has just been emptied into it, so no merge ever uncovers a
 leftover.  This holds while writers append and for manifests that still list
 files an earlier pass has deleted.
 */
module PassOrder {
  import opened Levels
  import opened CompactionPass

  ghost function Active(snap: set<File>, merged: set<File>, sources: set<File>): set<File> {
    (snap + merged) - sources
  }

  /** A level over threshold has just received a merge from a level that is now empty. */
  ghost predicate Cascading(u: set<File>, threshold: nat, lvl: nat) {
    && (forall k :: lvl <= k < TOP_LEVEL ==> |LevelFiles(u, k)| <= threshold)
    && (forall k :: 1 <= k < lvl - 1 ==> |LevelFiles(u, k)| <= threshold)
    && (2 <= lvl <= TOP_LEVEL && |LevelFiles(u, lvl - 1)| > threshold ==>
          LevelFiles(u, lvl - 2) == {} && exists f :: f in u && f.level == lvl - 1 && Live(f, u))
  }

  /** Retired files are held above their own level by kept ones. */
  ghost predicate HeldAbove(sources: set<File>, kept: set<File>) {
    forall f, t :: f in sources && Has(f, t) ==> CoversFrom(kept, f.level + 1, t)
  }

  /** A merge retired in the same pass left an empty level under the merge that retired it. */
  ghost predicate Intermediate(u: set<File>, merged: set<File>, sources: set<File>) {
    && (forall f :: f in merged && f in sources ==> Superseded(u, merged, f))
    && forall f, g :: f in merged && g in merged && f.level == g.level ==> f == g
  }

  ghost predicate OrderlyAt(threshold: nat, u: set<File>, lvl: nat, merged: set<File>, sources: set<File>,
                            kept: set<File>)
  {
    && kept <= u && Stacked(u, kept)
    && Cascading(u, threshold, lvl) && HeldAbove(sources, kept) && Intermediate(u, merged, sources)
    && (forall f :: f in merged ==> f.level < lvl) && forall f :: f in sources ==> f.level + 1 < lvl
  }

  ghost predicate Orderly(threshold: nat, n: nat, snap: set<File>, lvl: nat, merged: set<File>, sources: set<File>,
                          kept: set<File>)
  {
    && 1 <= lvl <= TOP_LEVEL + 1 && Within(snap + merged, n)
    && OrderlyAt(threshold, Active(snap, merged, sources), lvl, merged, sources, kept)
  }

  lemma Starts(threshold: nat, n: nat, snap: set<File>, kept: set<File>)
    requires Within(snap, n) && kept <= snap && Stacked(snap, kept) && Balanced(snap, threshold, 1)
    ensures Orderly(threshold, n, snap, 1, {}, {}, kept)
  {
    assert Active(snap, {}, {}) == snap && snap + {} == snap;
  }

  /** The client lists the same files as the active set from the level below the turn up. */
  lemma SameLevels(snap: set<File>, lvl: nat, merged: set<File>, sources: set<File>)
    requires lvl >= 1 && forall f :: f in sources ==> f.level + 1 < lvl
    ensures LevelFiles(snap + merged, lvl - 1) == LevelFiles(Active(snap, merged, sources), lvl - 1)
    ensures Candidates(snap + merged, lvl) == Candidates(Active(snap, merged, sources), lvl)
  {
  }

  /** A level that is skipped is within the threshold: one that overflowed has a candidate. */
  lemma Skips(threshold: nat, n: nat, snap: set<File>, lvl: nat, merged: set<File>, sources: set<File>, kept: set<File>)
    requires Orderly(threshold, n, snap, lvl, merged, sources, kept) && lvl <= TOP_LEVEL
    requires !Fires(snap + merged, threshold, lvl)
    ensures Orderly(threshold, n, snap, lvl + 1, merged, sources, kept)
  {
    var u := Active(snap, merged, sources);
    SameLevels(snap, lvl, merged, sources);
    if lvl >= 2 {
      OverflowHasCandidate(u, threshold, lvl);
    }
  }

  lemma OverflowHasCandidate(u: set<File>, threshold: nat, lvl: nat)
    requires 2 <= lvl <= TOP_LEVEL && Cascading(u, threshold, lvl)
    ensures |LevelFiles(u, lvl - 1)| > threshold ==> Candidates(u, lvl) != {}
  {
    if |LevelFiles(u, lvl - 1)| > threshold {
      var f :| f in u && f.level == lvl - 1 && Live(f, u);
      assert f in Candidates(u, lvl);
    }
  }

  lemma MergedIsLive(u: set<File>, kept: set<File>, lvl: nat, info: File)
    requires lvl >= 1 && StackedFrom(u, kept, lvl - 1) && IsMerge(info, Candidates(u, lvl), lvl)
    ensures Live(info, After(u, info))
  {
    var c :| c in Candidates(u, lvl) && c.min == info.min;
    CandidatesAreLive(u, kept, lvl, c);
  }

  /** Levels other than the merge's two are untouched; its own gains one file and its source is empty. */
  lemma LevelsAfter(u: set<File>, lvl: nat, info: File, k: nat)
    requires lvl >= 1 && info.level == lvl && forall f :: f in u && f.level == lvl - 1 ==> f in Gone(u, info)
    ensures k + 1 == lvl ==> LevelFiles(After(u, info), k) == {}
    ensures k + 1 != lvl && k != lvl ==> LevelFiles(After(u, info), k) == LevelFiles(u, k)
  {
  }

  lemma MergeCascades(threshold: nat, n: nat, u: set<File>, kept: set<File>, lvl: nat, info: File)
    requires 1 <= lvl <= TOP_LEVEL && kept <= u && Stacked(u, kept) && Within(u, n)
    requires Cascading(u, threshold, lvl) && IsMerge(info, Candidates(u, lvl), lvl)
    ensures Cascading(After(u, info), threshold, lvl + 1) && LevelFiles(After(u, info), lvl - 1) == {}
  {
    var u' := After(u, info);
    MergeEmptiesSource(u, kept, n, lvl, info);
    forall k: nat | k != lvl
      ensures k + 1 == lvl ==> LevelFiles(u', k) == {}
      ensures k + 1 != lvl ==> LevelFiles(u', k) == LevelFiles(u, k)
    {
      LevelsAfter(u, lvl, info, k);
    }
    MergedIsLive(u, kept, lvl, info);
    assert info in u' && info.level == lvl;
  }

  lemma MergeHolds(u: set<File>, sources: set<File>, kept: set<File>, lvl: nat, info: File)
    requires lvl >= 1 && kept <= u && StackedFrom(u, kept, lvl - 1) && HeldAbove(sources, kept)
    requires IsMerge(info, Candidates(u, lvl), lvl)
    ensures HeldAbove(sources + Gone(u, info), (kept - Gone(u, info)) + {info})
  {
    var gone := Gone(u, info);
    var kept' := (kept - gone) + {info};
    forall f, t | f in sources + gone && Has(f, t)
      ensures CoversFrom(kept', f.level + 1, t)
    {
      if f in gone {
        RetiredCoveredAbove(u, kept, lvl, info, f, t);
      } else {
        var g :| g in kept && g.level >= f.level + 1 && Has(g, t);
        if g in gone {
          RetiredCoveredAbove(u, kept, lvl, info, g, t);
          var h :| h in kept' && h.level >= lvl && Has(h, t);
          assert h.level >= f.level + 1;
        } else {
          assert g in kept';
        }
      }
    }
  }

  /** What one retired merge must have above and around it. */
  ghost predicate Superseded(u: set<File>, merged: set<File>, f: File) {
    LevelFiles(u, f.level) == {} && exists g :: g in merged && g.level == f.level + 1 && g.max >= f.max
  }

  lemma StaysSuperseded(u: set<File>, merged: set<File>, lvl: nat, info: File, f: File)
    requires info.level == lvl && f.level + 1 < lvl && Superseded(u, merged, f)
    ensures Superseded(After(u, info), merged + {info}, f)
  {
    var g :| g in merged && g.level == f.level + 1 && g.max >= f.max;
    assert g in merged + {info};
    assert LevelFiles(After(u, info), f.level) == LevelFiles(u, f.level);
  }

  lemma MergeIntermediates(u: set<File>, merged: set<File>, sources: set<File>, lvl: nat, info: File)
    requires lvl >= 1 && info.level == lvl && Intermediate(u, merged, sources)
    requires (forall f :: f in merged ==> f.level < lvl) && forall f :: f in sources ==> f.level + 1 < lvl
    requires forall f :: f in u && f.level == lvl - 1 ==> f in Gone(u, info)
    ensures Intermediate(After(u, info), merged + {info}, sources + Gone(u, info))
  {
    forall f | f in merged + {info} && f in sources + Gone(u, info)
      ensures Superseded(After(u, info), merged + {info}, f)
    {
      if f in Gone(u, info) {
        LevelsAfter(u, lvl, info, f.level);
        assert info in merged + {info};
      } else {
        StaysSuperseded(u, merged, lvl, info, f);
      }
    }
  }

  lemma MergesAt(threshold: nat, n: nat, u: set<File>, lvl: nat, merged: set<File>, sources: set<File>,
                 kept: set<File>, info: File)
    requires 1 <= lvl <= TOP_LEVEL && Within(u, n) && OrderlyAt(threshold, u, lvl, merged, sources, kept)
    requires |LevelFiles(u, lvl - 1)| > threshold && IsMerge(info, Candidates(u, lvl), lvl)
    ensures var gone := Gone(u, info);
            OrderlyAt(threshold, After(u, info), lvl + 1, merged + {info}, sources + gone, (kept - gone) + {info})
  {
    assert forall f :: f in u && f.level + 2 == lvl ==> f in LevelFiles(u, lvl - 2);
    MergeStaysStacked(u, kept, n, lvl, info);
    MergeCascades(threshold, n, u, kept, lvl, info);
    MergeHolds(u, sources, kept, lvl, info);
    MergeEmptiesSource(u, kept, n, lvl, info);
    MergeIntermediates(u, merged, sources, lvl, info);
  }

  lemma ActiveAfter(snap: set<File>, merged: set<File>, sources: set<File>, info: File)
    requires info !in sources
    ensures var gone := Gone(Active(snap, merged, sources), info);
            Active(snap, merged + {info}, sources + gone) == After(Active(snap, merged, sources), info)
  {
  }

  /** A turn that fires keeps everything in order. */
  lemma Merges(threshold: nat, n: nat, snap: set<File>, lvl: nat, merged: set<File>, sources: set<File>,
               kept: set<File>, info: File, merged': set<File>, sources': set<File>, kept': set<File>)
    requires Orderly(threshold, n, snap, lvl, merged, sources, kept) && lvl <= TOP_LEVEL
    requires |LevelFiles(snap + merged, lvl - 1)| > threshold && IsMerge(info, Candidates(snap + merged, lvl), lvl)
    requires var gone := Gone((snap + merged) - sources, info);
             merged' == merged + {info} && sources' == sources + gone && kept' == (kept - gone) + {info}
    ensures Orderly(threshold, n, snap, lvl + 1, merged', sources', kept')
  {
    SameLevels(snap, lvl, merged, sources);
    MergesAt(threshold, n, Active(snap, merged, sources), lvl, merged, sources, kept, info);
    ActiveAfter(snap, merged, sources, info);
    MergeWithin(snap + merged, n, lvl, info);
    assert snap + (merged + {info}) == (snap + merged) + {info};
  }

  // ---------------------------------------------------------- publishing

  /** The merges retired in the same pass, which the published manifest still lists. */
  ghost function Stale(merged: set<File>, sources: set<File>): set<File> {
    merged * sources
  }

  lemma StaleIsStacked(threshold: nat, n: nat, snap: set<File>, lvl: nat, merged: set<File>, sources: set<File>,
                       kept: set<File>)
    requires Orderly(threshold, n, snap, lvl, merged, sources, kept)
    ensures Stacked(Active(snap, merged, sources) + Stale(merged, sources), kept)
  {
    var u, extra := Active(snap, merged, sources), Stale(merged, sources);
    forall f | f in extra ensures f.min <= f.max && !Candidate(f, u + extra) {
      assert f in snap + merged && Superseded(u, merged, f);
      var g :| g in merged && g.level == f.level + 1 && g.max >= f.max;
      assert g in u + extra;
    }
    AddLeftovers(u, kept, extra);
  }

  lemma StaleIsBalanced(threshold: nat, u: set<File>, lvl: nat, merged: set<File>, sources: set<File>, k: nat)
    requires threshold >= 1 && lvl == TOP_LEVEL + 1 && 1 <= k < TOP_LEVEL
    requires Cascading(u, threshold, lvl) && Intermediate(u, merged, sources)
    ensures |LevelFiles(u + Stale(merged, sources), k)| <= threshold
  {
    var all := LevelFiles(u + Stale(merged, sources), k);
    if f :| f in Stale(merged, sources) && f.level == k {
      assert Superseded(u, merged, f);
      assert forall g :: g in u && g.level == k ==> g in LevelFiles(u, k);
      assert all == {f};
    } else {
      assert all == LevelFiles(u, k);
    }
  }

  /**
   A finished pass, applied to a manifest that writers have only appended to,
   publishes a manifest that is stacked over what is left once its sources are
   deleted, with every level above 0 within the threshold again.
   */
  lemma Publishes(threshold: nat, n: nat, snap: set<File>, lvl: nat, merged: set<File>, sources: set<File>,
                  kept: set<File>, base: set<File>)
    requires threshold >= 1 && lvl == TOP_LEVEL + 1 && Orderly(threshold, n, snap, lvl, merged, sources, kept)
    requires sources <= snap + merged && snap <= base
    requires forall f :: f in base - snap ==> f.level == 0 && f.min > n && f.min <= f.max
    ensures var final := (base - sources) + merged;
            Stacked(final, kept + (base - snap)) && Balanced(final, threshold, 1)
  {
    var u, extra, tails := Active(snap, merged, sources), Stale(merged, sources), base - snap;
    var final := (base - sources) + merged;
    assert final == (u + extra) + tails by {
      assert forall f :: f in tails ==> f !in sources;
    }
    StaleIsStacked(threshold, n, snap, lvl, merged, sources, kept);
    AppendTails(u + extra, kept, n, tails);
    forall k: nat | 1 <= k < TOP_LEVEL ensures |LevelFiles(final, k)| <= threshold {
      StaleIsBalanced(threshold, u, lvl, merged, sources, k);
      assert LevelFiles(final, k) == LevelFiles(u + extra, k);
    }
  }

  // ------------------------------------------------------ a pass as a whole

  /** What is left of keep, and the merges, once each merge has retired its sources. */
  ghost function KeptBy(u: set<File>, keep: set<File>, ms: seq<File>): set<File>
    decreases |ms|
  {
    if ms == [] then keep
    else KeptBy(After(u, ms[0]), (keep - Gone(u, ms[0])) + {ms[0]}, ms[1..])
  }

  /** Under each merge, the level below its source level holds only live files. */
  ghost predicate Unblocked(u: set<File>, ms: seq<File>)
    decreases |ms|
  {
    || ms == []
    || ((forall f :: f in u && f.level + 2 == ms[0].level ==> Live(f, u)) && Unblocked(After(u, ms[0]), ms[1..]))
  }

  /** f lies under an empty level and within what higher levels hold. */
  ghost predicate Uncovered(u: set<File>, keep: set<File>, f: File) {
    f in u && LevelFiles(u, f.level + 1) == {} && CoversFrom(keep, f.level + 2, f.min)
  }

  lemma UncoveredBreaks(u: set<File>, keep: set<File>, f: File)
    requires keep <= u && Uncovered(u, keep, f)
    ensures !Stacked(u, keep)
  {
    var g :| g in keep && g.level >= f.level + 2 && Has(g, f.min);
    assert !Live(f, u);
    assert forall h :: h in u && h.level == f.level + 1 ==> h in LevelFiles(u, f.level + 1);
    assert Candidate(f, u);
  }

  lemma MergeLeavesUncovered(u: set<File>, keep: set<File>, l: nat, info: File, f: File)
    requires l >= f.level + 3 && keep <= u && StackedFrom(u, keep, l - 1) && IsMerge(info, Candidates(u, l), l)
    requires Uncovered(u, keep, f)
    ensures Uncovered(After(u, info), (keep - Gone(u, info)) + {info}, f)
  {
    var g :| g in keep && g.level >= f.level + 2 && Has(g, f.min);
    if g in Gone(u, info) {
      RetiredCoveredAbove(u, keep, l, info, g, f.min);
    } else {
      assert g in (keep - Gone(u, info)) + {info};
    }
    assert LevelFiles(After(u, info), f.level + 1) == LevelFiles(u, f.level + 1);
  }

  /** A file that has come loose stays loose through the rest of a pass. */
  lemma {:induction false} StaysUncovered(x: set<File>, u: set<File>, keep: set<File>, l: nat, ms: seq<File>, f: File)
    requires l >= f.level + 3 && Agree(x, u, l) && keep <= u && StackedFrom(u, keep, l - 1) && Chain(x, l, ms)
    requires Uncovered(u, keep, f)
    ensures !Stacked(Updated(u, ms), KeptBy(u, keep, ms))
    decreases |ms|
  {
    if ms == [] {
      UncoveredBreaks(u, keep, f);
    } else {
      NextTurn(x, u, keep, l, ms[0]);
      MergeLeavesUncovered(u, keep, ms[0].level, ms[0], f);
      StaysUncovered(x + {ms[0]}, After(u, ms[0]), (keep - Gone(u, ms[0])) + {ms[0]}, ms[0].level + 1, ms[1..], f);
    }
  }

  /** A merge over a level that holds a leftover lets it come loose. */
  lemma MergeUncovers(u: set<File>, keep: set<File>, n: nat, l: nat, info: File, f: File)
    requires l >= 1 && keep <= u && Stacked(u, keep) && Within(u, n) && IsMerge(info, Candidates(u, l), l)
    requires f in u && f.level + 2 == l && !Live(f, u)
    ensures Uncovered(After(u, info), (keep - Gone(u, info)) + {info}, f)
  {
    MergeEmptiesSource(u, keep, n, l, info);
    LevelsAfter(u, l, info, l - 1);
    assert Has(f, f.min);
    LeftoverStaysCovered(u, keep, l, info, f, f.min);
    var keep' := (keep - Gone(u, info)) + {info};
    var g :| g in keep' && g.level >= f.level + 1 && Has(g, f.min);
    assert g in After(u, info) && (g.level == l - 1 ==> g in LevelFiles(After(u, info), l - 1));
  }

  lemma {:induction false} StackedIffUnblocked(x: set<File>, u: set<File>, keep: set<File>, n: nat, l: nat,
                                               ms: seq<File>)
    requires l >= 1 && Agree(x, u, l) && keep <= u && Stacked(u, keep) && Within(u, n) && Chain(x, l, ms)
    ensures Stacked(Updated(u, ms), KeptBy(u, keep, ms)) <==> Unblocked(u, ms)
    decreases |ms|
  {
    if ms != [] {
      var u', keep' := After(u, ms[0]), (keep - Gone(u, ms[0])) + {ms[0]};
      NextTurn(x, u, keep, l, ms[0]);
      if f :| f in u && f.level + 2 == ms[0].level && !Live(f, u) {
        MergeUncovers(u, keep, n, ms[0].level, ms[0], f);
        StaysUncovered(x + {ms[0]}, u', keep', ms[0].level + 1, ms[1..], f);
      } else {
        MergeStaysStacked(u, keep, n, ms[0].level, ms[0]);
        MergeWithin(u, n, ms[0].level, ms[0]);
        StackedIffUnblocked(x + {ms[0]}, u', keep', n, ms[0].level + 1, ms[1..]);
      }
    }
  }

  /**
   Exactly when a pass over a stacked manifest leaves a stacked set: under each
   of its merges, the level below the source level holds only live files.  A
   caller can run this test on the manifest before the pass.
   */
  lemma PassStackedIff(x: set<File>, keep: set<File>, n: nat, threshold: nat, ms: seq<File>)
    requires keep <= x && Stacked(x, keep) && Within(x, n) && IsPass(x, threshold, 1, ms)
    ensures Stacked(Updated(x, ms), KeptBy(x, keep, ms)) <==> Unblocked(x, ms)
  {
    PassIsChain(x, threshold, 1, ms);
    StackedIffUnblocked(x, x, keep, n, 1, ms);
  }
}
