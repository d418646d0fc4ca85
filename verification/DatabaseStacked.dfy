/**
 A pass that starts on a stacked manifest is sound, whatever lands beside it:
 its merges have no hole and its publish leaves every TXID in a file that
 survives, although sources are chosen by level and MaxTXID alone.
 */
module DatabaseStacked {
  import opened Levels
  import opened Database
  import opened DatabaseInvariant
  import opened DatabaseSafety
  import opened DatabaseDurability

  ghost predicate StartsStacked(s: State, step: Step) {
    step.PassStart? ==> s.d.manifest.Some? && Stacked(s.d.manifest.value, s.d.keep)
  }

  /** What the pass has retired is in what it keeps. */
  ghost predicate SourcesCovered(sources: set<File>, kept: set<File>) {
    forall f, t :: f in sources && Has(f, t) ==> Covers(kept, t)
  }

  /** From the turn's source level up, the active set is stacked over what is kept, without a gap. */
  ghost predicate TurnStacked(snap: set<File>, lvl: nat, merged: set<File>, sources: set<File>, kept: set<File>) {
    && 1 <= lvl <= TOP_LEVEL + 1 && kept <= (snap + merged) - sources
    && StackedFrom((snap + merged) - sources, kept, lvl - 1)
    && (forall j :: j >= lvl - 1 ==> Gapless((snap + merged) - sources, kept, j))
    && forall f :: f in sources ==> f.level + 1 < lvl
  }

  ghost predicate PassStacked(pass: Pass) {
    match pass
    case Merging(snap, lvl, merged, sources, kept) =>
      TurnStacked(snap, lvl, merged, sources, kept) && SourcesCovered(sources, kept)
    case Sent(_, _, _, sources, kept, _, _) => SourcesCovered(sources, kept)
    case _ => true
  }

  // --------------------------------------------------------------- one turn

  /** One merge of a pass: the files it retires stay covered and the rest stays stacked. */
  lemma MergeTurn(snap: set<File>, lvl: nat, merged: set<File>, sources: set<File>, kept: set<File>, info: File)
    requires TurnStacked(snap, lvl, merged, sources, kept) && lvl <= TOP_LEVEL
    requires IsMerge(info, Candidates(snap + merged, lvl), lvl)
    ensures var u := (snap + merged) - sources;
            var gone := Gone(u, info);
            && Candidates(u, lvl) == Candidates(snap + merged, lvl)
            && TurnStacked(snap, lvl + 1, merged + {info}, sources + gone, (kept - gone) + {info})
  {
    var u := (snap + merged) - sources;
    var gone := Gone(u, info);
    assert Candidates(u, lvl) == Candidates(snap + merged, lvl);
    assert (snap + (merged + {info})) - (sources + gone) == After(u, info);
    MergeKeepsCoverage(u, kept, lvl, info);
    assert Gapless(u, kept, lvl - 1);
    forall j: nat | j >= lvl
      ensures Gapless(After(u, info), (kept - gone) + {info}, j)
    {
      assert Gapless(u, kept, j);
      MergeGapless(u, kept, lvl, info, j);
    }
  }

  lemma MergedSourcesCovered(u: set<File>, sources: set<File>, kept: set<File>, lvl: nat, info: File)
    requires lvl >= 1 && kept <= u && StackedFrom(u, kept, lvl - 1) && IsMerge(info, Candidates(u, lvl), lvl)
    requires SourcesCovered(sources, kept)
    ensures SourcesCovered(sources + Gone(u, info), (kept - Gone(u, info)) + {info})
  {
    var kept' := (kept - Gone(u, info)) + {info};
    MergeKeepsCoverage(u, kept, lvl, info);
    forall f, t | f in sources + Gone(u, info) && Has(f, t)
      ensures Covers(kept', t)
    {
      if f in sources {
        assert Covers(kept, t);
      } else {
        RetiredCoveredAbove(u, kept, lvl, info, f, t);
      }
    }
  }

  /** A pass in order merges files that leave no hole. */
  lemma MergeHasNoHole(p: Pass, n: nat, info: File)
    requires p.Merging? && PassStacked(p) && p.lvl <= TOP_LEVEL && Within(p.snap + p.merged, n)
    requires IsMerge(info, Candidates(p.snap + p.merged, p.lvl), p.lvl)
    ensures forall t :: Has(info, t) ==> Covers(Candidates(p.snap + p.merged, p.lvl), t)
  {
    var u := (p.snap + p.merged) - p.sources;
    MergeTurn(p.snap, p.lvl, p.merged, p.sources, p.kept, info);
    assert Gapless(u, p.kept, p.lvl - 1);
    MergeWithin(p.snap + p.merged, n, p.lvl, info);
    assert info in (p.snap + p.merged) + {info};
    forall t | Has(info, t) ensures Covers(Candidates(p.snap + p.merged, p.lvl), t) {
      MergeExact(u, p.kept, p.lvl, info, t);
    }
  }

  lemma MergeStacked(s: State, s': State, info: File, data: map<nat, Key>)
    requires Inv(s) && PassStacked(s.d.pass) && PassMergeStep(s, s', info, data)
    ensures PassStacked(s'.d.pass) && Sound(s, s', PassMerge(info, data))
  {
    var p := s.d.pass;
    MergeTurn(p.snap, p.lvl, p.merged, p.sources, p.kept, info);
    MergedSourcesCovered((p.snap + p.merged) - p.sources, p.sources, p.kept, p.lvl, info);
    MergeHasNoHole(p, Top(s.d.manifest.value), info);
  }

  // -------------------------------------------------------------- publishing

  /** What the manifest about to be published lists, once its sources are deleted. */
  ghost function Remaining(d: Durable): set<File>
    requires d.pass.Sent?
  {
    set f | f in d.pass.final && f in d.content && f !in d.pass.sources
  }

  /** The published manifest, less the sources about to be deleted, covers all the manifest covered. */
  lemma PublishedCovers(d: Durable)
    requires StoreOk(d) && Complete(d) && d.pass.Sent? && Tenant(d, d.pass.id) && PassStacked(d.pass)
    ensures CoversUpTo(Remaining(d), Top(d.manifest.value))
  {
    var p := d.pass;
    forall t | 1 <= t <= Top(d.manifest.value) ensures Covers(Remaining(d), t) {
      assert Covers(d.keep, t);
      RemainingCovers(d, p.snap, p.merged, p.sources, p.kept, t);
    }
  }

  lemma RemainingCovers(d: Durable, snap: set<File>, merged: set<File>, sources: set<File>, kept: set<File>, t: nat)
    requires d.pass.Sent? && MergeOk(d, snap, merged, sources, kept) && SourcesCovered(sources, kept)
    requires d.pass.sources == sources && d.pass.final == (d.manifest.value - sources) + merged
    requires d.keep <= d.manifest.value && d.keep <= d.content.Keys && Covers(d.keep, t)
    ensures Covers(Remaining(d), t)
  {
    var f :| f in d.keep && Has(f, t);
    if f in sources {
      assert Covers(kept, t);
      var g :| g in kept && Has(g, t);
      assert g in Remaining(d);
    } else {
      assert f in Remaining(d);
    }
  }

  lemma PublishSound(s: State, s': State)
    requires Inv(s) && Complete(s.d) && PassStacked(s.d.pass) && PassLandStep(s, s')
    ensures Sound(s, s', PassLand)
  {
    PublishedCovers(s.d);
    PublishedTop(s, s');
    assert Remaining(s.d) <= s'.d.keep;
    CoversMore(Remaining(s.d), s'.d.keep, Top(s.d.manifest.value));
  }

  // --------------------------------------------------------------------- runs

  lemma StartStacked(s: State, s': State)
    requires Inv(s) && Complete(s.d) && PassStartStep(s, s') && Stacked(s.d.manifest.value, s.d.keep)
    ensures PassStacked(s'.d.pass)
  {
    var m := s.d.manifest.value;
    assert (m + {}) - {} == m;
    forall j: nat ensures Gapless(m, s.d.keep, j) {
      StackedIsGapless(m, s.d.keep, Top(m), j);
    }
  }

  lemma SkipStacked(p: Pass)
    requires p.Merging? && PassStacked(p) && p.lvl <= TOP_LEVEL
    ensures PassStacked(p.(lvl := p.lvl + 1))
  {
  }

  /** The other steps move no pass that can still merge or publish. */
  lemma ElseStacked(s: State, s': State, step: Step)
    requires PassStacked(s.d.pass) && NextStep(s, s', step)
    requires !step.PassStart? && !step.PassMerge? && !step.PassSkip?
    ensures PassStacked(s'.d.pass)
  {
    if IsPassStep(step) {
    } else {
      assert s'.d.pass == s.d.pass;
    }
  }

  lemma NextStacked(s: State, s': State, step: Step)
    requires Inv(s) && Complete(s.d) && PassStacked(s.d.pass) && NextStep(s, s', step) && StartsStacked(s, step)
    ensures PassStacked(s'.d.pass) && Sound(s, s', step)
  {
    if step.PassMerge? {
      MergeStacked(s, s', step.info, step.data);
    } else if step.PassStart? {
      StartStacked(s, s');
    } else if step.PassSkip? {
      SkipStacked(s.d.pass);
    } else {
      ElseStacked(s, s', step);
      if step.PassLand? {
        PublishSound(s, s');
      }
    }
  }

  lemma {:induction false} StackedRunKeeps(run: seq<State>, steps: seq<Step>, i: nat)
    requires IsRun(run, steps) && (forall k :: 0 <= k < |steps| ==> StartsStacked(run[k], steps[k])) && i < |run|
    ensures Inv(run[i]) && Complete(run[i].d) && PassStacked(run[i].d.pass)
  {
    RunKeeps(run, steps, i);
    if i > 0 {
      StackedRunKeeps(run, steps, i - 1);
      NextStacked(run[i - 1], run[i], steps[i - 1]);
      NextComplete(run[i - 1], run[i], steps[i - 1]);
    }
  }

  /** If every pass starts on a stacked manifest, the run is sound and nothing acknowledged is lost. */
  lemma StackedStartsAreSound(run: seq<State>, steps: seq<Step>)
    requires IsRun(run, steps) && forall k :: 0 <= k < |steps| ==> StartsStacked(run[k], steps[k])
    ensures IsSoundRun(run, steps)
  {
    forall i | 0 <= i < |steps| ensures Sound(run[i], run[i + 1], steps[i]) {
      StackedRunKeeps(run, steps, i);
      NextStacked(run[i], run[i + 1], steps[i]);
    }
  }
}
