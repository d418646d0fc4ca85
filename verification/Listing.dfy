/**
 The rebuild's listing is not atomic: it reads the levels one after another
 while merges are written and sources deleted.  It needs no lease to be
 complete; it needs every deletion to leave the deleted TXIDs in a higher level.
 */
module Listing {
  import opened Levels
  import opened CompactionPass
  import CompactionOrder

  /** One change to the store: a write, or a deletion of TXIDs that higher levels still hold. */
  ghost predicate Change(x: set<File>, x': set<File>) {
    x <= x' || exists f :: Drops(x, x', f)
  }

  ghost predicate Drops(x: set<File>, x': set<File>, f: File) {
    x' == x - {f} && forall t :: Has(f, t) ==> CoversFrom(x', f.level + 1, t)
  }

  ghost predicate IsHistory(h: seq<set<File>>) {
    && (forall k :: 0 <= k < |h| - 1 ==> Change(h[k], h[k + 1]))
    && forall k, f :: 0 <= k < |h| && f in h[k] ==> f.level <= SNAPSHOT_LEVEL
  }

  /** Level l is read at time times[l]; later levels are not read earlier. */
  ghost predicate IsSchedule(times: seq<nat>, n: nat) {
    && |times| == SNAPSHOT_LEVEL + 1 && (forall l :: 0 <= l < |times| ==> times[l] < n)
    && forall l :: 0 <= l < |times| - 1 ==> times[l] <= times[l + 1]
  }

  ghost predicate Seen(h: seq<set<File>>, times: seq<nat>, f: File)
    requires IsSchedule(times, |h|)
  {
    f.level <= SNAPSHOT_LEVEL && f in h[times[f.level]]
  }

  /** Coverage at a height or above is never lost. */
  lemma {:induction false} CoverageClimbs(h: seq<set<File>>, i: nat, j: nat, l: nat, t: nat)
    requires IsHistory(h) && i <= j < |h| && CoversFrom(h[i], l, t)
    ensures CoversFrom(h[j], l, t)
    decreases j
  {
    if i < j {
      CoverageClimbs(h, i, j - 1, l, t);
      var x, x' := h[j - 1], h[j];
      assert Change(x, x');
      var f :| f in x && f.level >= l && Has(f, t);
      if f in x' {
      } else {
        var g :| Drops(x, x', g);
        assert CoversFrom(x', f.level + 1, t);
      }
    }
  }

  lemma {:induction false} ScanFrom(h: seq<set<File>>, times: seq<nat>, l: nat, t: nat) returns (f: File)
    requires IsHistory(h) && IsSchedule(times, |h|)
    requires l <= SNAPSHOT_LEVEL && CoversFrom(h[times[l]], l, t)
    ensures Seen(h, times, f) && Has(f, t)
    decreases SNAPSHOT_LEVEL - l
  {
    var g :| g in h[times[l]] && g.level >= l && Has(g, t);
    if g.level == l {
      f := g;
    } else {
      assert CoversFrom(h[times[l]], l + 1, t);
      CoverageClimbs(h, times[l], times[l + 1], l + 1, t);
      f := ScanFrom(h, times, l + 1, t);
    }
  }

  /** No TXID that was covered when the scan began is missing from what it collects. */
  lemma ScanMissesNothing(h: seq<set<File>>, times: seq<nat>, t: nat)
    requires IsHistory(h) && IsSchedule(times, |h|) && Covers(h[times[0]], t)
    ensures exists f :: Seen(h, times, f) && Has(f, t)
  {
    var g :| g in h[times[0]] && Has(g, t);
    assert CoversFrom(h[times[0]], 0, t);
    var f := ScanFrom(h, times, 0, t);
  }

  /** A pass's deletions are such changes, in any order, while its updated set stays. */
  lemma PassDeletionsClimb(snap: set<File>, threshold: nat, ms: seq<File>, x: set<File>, f: File)
    requires Stacked(snap, snap) && IsPass(snap, threshold, 1, ms)
    requires Updated(snap, ms) <= x && f in Sources(snap, ms)
    ensures Drops(x, x - {f}, f)
  {
    PassAscends(snap, threshold, 1, ms);
    UpdatedIs(snap, ms);
    forall t | Has(f, t) ensures CoversFrom(x - {f}, f.level + 1, t) {
      CompactionOrder.SourcesCoveredAbove(snap, threshold, ms, f, t);
      var g :| g in Updated(snap, ms) && g.level >= f.level + 1 && Has(g, t);
      assert g in x - {f};
    }
  }
}
