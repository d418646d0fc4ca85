/**
 Regular runs, in which every pass starts on a stacked manifest by itself:
 passes use one threshold, and a rebuilt manifest replaces an existing one only
 while no pass is merging or publishing, and only if it is stacked and within
 the threshold above level 0.  Crashes, failed and late PUTs, abandoned passes,
 concurrent writers, deletion and collection are all allowed.
 */
module DatabaseOrder {
  import opened Wrappers
  import opened Levels
  import opened CompactionPass
  import opened PassOrder
  import opened Database
  import opened DatabaseInvariant
  import opened DatabaseLandings
  import opened DatabaseSafety
  import opened DatabaseDurability
  import opened DatabaseStacked

  /** The manifest is rebuilt from a listing. */
  predicate Rebuilt(pending: Option<Put>) {
    pending.Some? && pending.value.PutManifest? && !pending.value.why.Index?
  }

  /** What the attempt that repairs can test before its PUT. */
  ghost predicate OrderlyRepair(threshold: nat, d: Durable, files: set<File>) {
    && !d.pass.Merging? && !d.pass.Sent?
    && Stacked(files, Survivors(files, d)) && Balanced(files, threshold, 1)
  }

  ghost predicate Regular(threshold: nat, s: State, step: Step) {
    match step
    case PassMerge(_, _) =>
      && s.d.pass.Merging? && 1 <= s.d.pass.lvl
      && |LevelFiles(s.d.pass.snap + s.d.pass.merged, s.d.pass.lvl - 1)| > threshold
    case PassSkip =>
      s.d.pass.Merging? && 1 <= s.d.pass.lvl && !Fires(s.d.pass.snap + s.d.pass.merged, threshold, s.d.pass.lvl)
    case Land(id) =>
      In(s, id) && s.d.manifest.Some? && Rebuilt(s.att[id].pending) ==>
        OrderlyRepair(threshold, s.d, s.att[id].pending.value.files)
    case _ => true
  }

  ghost predicate IsRegularRun(threshold: nat, run: seq<State>, steps: seq<Step>) {
    IsRun(run, steps) && forall i :: 0 <= i < |steps| ==> Regular(threshold, run[i], steps[i])
  }

  /** Writers have only appended to the manifest since the snapshot, above TXID n. */
  ghost predicate Appended(snap: set<File>, base: set<File>, n: nat) {
    snap <= base && forall f :: f in base - snap ==> f.level == 0 && f.min > n && f.min <= f.max
  }

  ghost predicate Underway(threshold: nat, m: set<File>, pass: Pass, n: nat)
    requires pass.Merging? || pass.Sent?
  {
    var lvl := if pass.Merging? then pass.lvl else TOP_LEVEL + 1;
    && n <= Top(m) && Appended(pass.snap, m, n)
    && Orderly(threshold, n, pass.snap, lvl, pass.merged, pass.sources, pass.kept)
  }

  ghost predicate PassOrdered(threshold: nat, m: set<File>, pass: Pass) {
    pass.Merging? || pass.Sent? ==> exists n :: Underway(threshold, m, pass, n)
  }

  ghost predicate Ordered(threshold: nat, d: Durable) {
    d.manifest.Some? ==>
      && Stacked(d.manifest.value, d.keep) && Balanced(d.manifest.value, threshold, 1)
      && PassOrdered(threshold, d.manifest.value, d.pass)
  }

  // ------------------------------------------------------------- the manifest

  lemma TailLevels(m: set<File>, tail: File, k: nat)
    requires tail.level == 0 && k >= 1
    ensures LevelFiles(m + {tail}, k) == LevelFiles(m, k)
  {
  }

  /** Appending the commit record leaves the pass and the levels above 0 alone. */
  lemma IndexOrdered(threshold: nat, m: set<File>, pass: Pass, n: nat)
    requires Balanced(m, threshold, 1) && PassOrdered(threshold, m, pass) && n > Top(m)
    ensures var m' := m + {File(0, n, n)};
            Balanced(m', threshold, 1) && PassOrdered(threshold, m', pass)
  {
    var m' := m + {File(0, n, n)};
    forall k: nat | 1 <= k < TOP_LEVEL ensures |LevelFiles(m', k)| <= threshold {
      TailLevels(m, File(0, n, n), k);
    }
    if pass.Merging? || pass.Sent? {
      var b :| Underway(threshold, m, pass, b);
      TopGrows(m, m');
      assert Underway(threshold, m', pass, b);
    }
  }

  lemma TopGrows(a: set<File>, b: set<File>)
    requires a <= b
    ensures Top(a) <= Top(b)
  {
  }

  /** Appending the commit record keeps the manifest stacked. */
  lemma IndexStacked(d: Durable)
    requires StoreOk(d) && d.manifest.Some? && Behind(d) && Stacked(d.manifest.value, d.keep)
    ensures var files := d.manifest.value + {File(0, |d.landed|, |d.landed|)};
            Solid(d) <= files && Stacked(files, Survivors(files, d))
  {
    var m, tail := d.manifest.value, File(0, |d.landed|, |d.landed|);
    AppendTails(m, d.keep, Top(m), {tail});
    SolidSurvives(d, m + {tail});
    StackedMore(m + {tail}, d.keep + {tail}, Survivors(m + {tail}, d));
  }

  /** The first manifest lists level-0 files only. */
  lemma FirstOrdered(threshold: nat, d: Durable, files: set<File>)
    requires ManifestOk(d) && d.manifest.None? && files <= d.content.Keys
    ensures Stacked(files, Survivors(files, d)) && Balanced(files, threshold, 1)
    ensures PassOrdered(threshold, files, d.pass)
  {
    forall k: nat | 1 <= k < TOP_LEVEL ensures |LevelFiles(files, k)| <= threshold {
      assert LevelFiles(files, k) == {};
    }
    forall f | f in files ensures Live(f, files) && f in Survivors(files, d) {
    }
  }

  lemma LandOrdered(threshold: nat, s: State, s': State, id: Id)
    requires Inv(s) && Ordered(threshold, s.d) && LandStep(s, s', id) && Regular(threshold, s, Land(id))
    ensures Ordered(threshold, s'.d)
  {
    var put := s.att[id].pending.value;
    assert AttemptOk(s.d, id, s.att[id]);
    assert PutOk(s.d, id, s.att[id], put);
    if put.PutManifest? {
      if s.d.manifest.None? {
        FirstOrdered(threshold, s.d, put.files);
      } else if put.why.Index? {
        IndexOrdered(threshold, s.d.manifest.value, s.d.pass, |s.d.landed|);
        IndexStacked(s.d);
      }
    }
  }

  // ----------------------------------------------------------------- the pass

  lemma StartOrdered(threshold: nat, s: State, s': State)
    requires Inv(s) && Ordered(threshold, s.d) && PassStartStep(s, s')
    ensures Ordered(threshold, s'.d)
  {
    var m := s.d.manifest.value;
    Starts(threshold, Top(m), m, s.d.keep);
    assert Underway(threshold, m, s'.d.pass, Top(m));
  }

  /** q is p after merging info. */
  ghost predicate IsTurn(p: Pass, q: Pass, info: File) {
    && p.Merging? && q.Merging? && q.snap == p.snap && 1 <= p.lvl <= TOP_LEVEL && q.lvl == p.lvl + 1
    && IsMerge(info, Candidates(p.snap + p.merged, p.lvl), p.lvl)
    && var gone := Gone((p.snap + p.merged) - p.sources, info);
       q.merged == p.merged + {info} && q.sources == p.sources + gone && q.kept == (p.kept - gone) + {info}
  }

  lemma TurnKeeps(threshold: nat, n: nat, p: Pass, q: Pass, info: File)
    requires IsTurn(p, q, info) && Orderly(threshold, n, p.snap, p.lvl, p.merged, p.sources, p.kept)
    requires |LevelFiles(p.snap + p.merged, p.lvl - 1)| > threshold
    ensures Orderly(threshold, n, q.snap, q.lvl, q.merged, q.sources, q.kept)
  {
    Merges(threshold, n, p.snap, p.lvl, p.merged, p.sources, p.kept, info, q.merged, q.sources, q.kept);
  }

  lemma TurnUnderway(threshold: nat, m: set<File>, p: Pass, q: Pass, n: nat)
    requires p.Merging? && q.Merging? && q.snap == p.snap && Underway(threshold, m, p, n)
    requires Orderly(threshold, n, q.snap, q.lvl, q.merged, q.sources, q.kept)
    ensures Underway(threshold, m, q, n)
  {
  }

  lemma TurnOrdered(threshold: nat, m: set<File>, p: Pass, q: Pass, info: File)
    requires IsTurn(p, q, info) && PassOrdered(threshold, m, p)
    requires |LevelFiles(p.snap + p.merged, p.lvl - 1)| > threshold
    ensures PassOrdered(threshold, m, q)
  {
    var n :| Underway(threshold, m, p, n);
    TurnKeeps(threshold, n, p, q, info);
    TurnUnderway(threshold, m, p, q, n);
  }

  /** Whatever manifest the pass was in order under, it still is. */
  ghost predicate StaysOrdered(threshold: nat, p: Pass, q: Pass) {
    forall m :: PassOrdered(threshold, m, p) ==> PassOrdered(threshold, m, q)
  }

  lemma TurnStays(threshold: nat, p: Pass, q: Pass, info: File)
    requires IsTurn(p, q, info) && |LevelFiles(p.snap + p.merged, p.lvl - 1)| > threshold
    ensures StaysOrdered(threshold, p, q)
  {
    forall m | PassOrdered(threshold, m, p) ensures PassOrdered(threshold, m, q) {
      TurnOrdered(threshold, m, p, q, info);
    }
  }

  lemma MergeStays(threshold: nat, s: State, s': State, info: File, data: map<nat, Key>)
    requires PassMergeStep(s, s', info, data) && Regular(threshold, s, PassMerge(info, data))
    ensures StaysOrdered(threshold, s.d.pass, s'.d.pass) && s'.d.manifest == s.d.manifest
  {
    TurnStays(threshold, s.d.pass, s'.d.pass, info);
  }

  /** Sending the delta, or giving up waiting for it, changes nothing about the pass. */
  lemma SentOrdered(threshold: nat, m: set<File>, p: Pass, q: Pass)
    requires PassOrdered(threshold, m, p) && q.Sent? && (p.Sent? || (p.Merging? && p.lvl == TOP_LEVEL + 1))
    requires q.snap == p.snap && q.merged == p.merged && q.sources == p.sources && q.kept == p.kept
    ensures PassOrdered(threshold, m, q)
  {
    var n :| Underway(threshold, m, p, n);
    assert Underway(threshold, m, q, n);
  }

  lemma SkipOrdered(threshold: nat, s: State, s': State)
    requires s.d.manifest.Some? && Ordered(threshold, s.d) && PassSkipStep(s, s') && Regular(threshold, s, PassSkip)
    ensures Ordered(threshold, s'.d)
  {
    var p, m := s.d.pass, s.d.manifest.value;
    var n :| Underway(threshold, m, p, n);
    Skips(threshold, n, p.snap, p.lvl, p.merged, p.sources, p.kept);
    assert Underway(threshold, m, s'.d.pass, n);
  }

  /** The tails appended since the snapshot are all kept. */
  lemma TailsAreKept(d: Durable, snap: set<File>, n: nat)
    requires d.manifest.Some? && Stacked(d.manifest.value, d.keep)
    requires Appended(snap, d.manifest.value, n) && Within(snap, n)
    ensures d.manifest.value - snap <= d.keep
  {
    var m := d.manifest.value;
    forall f | f in m - snap ensures f in d.keep {
      forall g | g in m && g.level == f.level + 1 ensures g.max < f.min {
        assert g in snap;
      }
      assert Candidate(f, m);
    }
  }

  lemma PublishOrdered(threshold: nat, s: State, s': State)
    requires threshold >= 1 && Inv(s) && Ordered(threshold, s.d) && PassLandStep(s, s')
    ensures Ordered(threshold, s'.d)
  {
    var p, m := s.d.pass, s.d.manifest.value;
    var n :| Underway(threshold, m, p, n);
    Publishes(threshold, n, p.snap, TOP_LEVEL + 1, p.merged, p.sources, p.kept, m);
    TailsAreKept(s.d, p.snap, n);
    KeptSurvives(s, s', n);
    StackedMore(p.final, p.kept + (m - p.snap), s'.d.keep);
  }

  /** What the pass kept and what writers appended survives the landing. */
  lemma KeptSurvives(s: State, s': State, n: nat)
    requires StoreOk(s.d) && PassLandStep(s, s') && s.d.manifest.Some?
    requires Appended(s.d.pass.snap, s.d.manifest.value, n) && s.d.manifest.value - s.d.pass.snap <= s.d.keep
    requires Within(s.d.pass.snap + s.d.pass.merged, n)
    ensures s.d.pass.kept + (s.d.manifest.value - s.d.pass.snap) <= s'.d.keep
  {
    var p, m := s.d.pass, s.d.manifest.value;
    forall f | f in p.kept + (m - p.snap) ensures f in s'.d.keep {
      assert f !in p.sources;
      assert f in p.final && f in s.d.content;
    }
  }

  lemma StackedMore(x: set<File>, keep: set<File>, keep': set<File>)
    requires Stacked(x, keep) && keep <= keep'
    ensures Stacked(x, keep')
  {
    forall f | f in x ensures (Live(f, x) && f in keep') || Leftover(f, x, keep') {
      if !(Live(f, x) && f in keep) {
        forall t | Has(f, t) ensures CoversFrom(keep', f.level + 1, t) {
          var h :| h in keep && h.level >= f.level + 1 && Has(h, t);
          assert h in keep';
        }
      }
    }
  }

  // --------------------------------------------------------------------- runs

  /** Steps that leave the manifest alone, and a pass that can still publish as it is. */
  predicate Aside(step: Step) {
    !(step.Land? || step.PassStart? || step.PassMerge? || step.PassSkip? || step.PassLand?)
  }

  lemma AsideOrdered(threshold: nat, s: State, s': State, step: Step)
    requires Ordered(threshold, s.d) && NextStep(s, s', step) && Aside(step)
    ensures Ordered(threshold, s'.d)
  {
    assert s'.d.manifest == s.d.manifest;
    if step.PassSend? || step.PassAbandon? {
      if s.d.manifest.Some? {
        SentOrdered(threshold, s.d.manifest.value, s.d.pass, s'.d.pass);
      }
    } else {
      assert s'.d.pass == s.d.pass || !(s'.d.pass.Merging? || s'.d.pass.Sent?);
    }
  }

  lemma LevelStepOrdered(threshold: nat, s: State, s': State, step: Step)
    requires s.d.manifest.Some? && Ordered(threshold, s.d) && NextStep(s, s', step) && Regular(threshold, s, step)
    requires step.PassMerge? || step.PassSkip?
    ensures Ordered(threshold, s'.d)
  {
    if step.PassMerge? {
      MergeStays(threshold, s, s', step.info, step.data);
    } else {
      SkipOrdered(threshold, s, s');
    }
  }

  lemma NextOrdered(threshold: nat, s: State, s': State, step: Step)
    requires threshold >= 1 && Inv(s) && Ordered(threshold, s.d) && NextStep(s, s', step) && Regular(threshold, s, step)
    ensures Ordered(threshold, s'.d)
  {
    if Aside(step) {
      AsideOrdered(threshold, s, s', step);
    } else if step.Land? {
      LandOrdered(threshold, s, s', step.id);
    } else if step.PassStart? {
      StartOrdered(threshold, s, s');
    } else if step.PassLand? {
      PublishOrdered(threshold, s, s');
    } else {
      LevelStepOrdered(threshold, s, s', step);
    }
  }

  lemma {:induction false} RegularKeeps(threshold: nat, run: seq<State>, steps: seq<Step>, i: nat)
    requires threshold >= 1 && IsRegularRun(threshold, run, steps) && i < |run|
    ensures Inv(run[i]) && Ordered(threshold, run[i].d)
  {
    RunKeeps(run, steps, i);
    if i > 0 {
      RegularKeeps(threshold, run, steps, i - 1);
      NextOrdered(threshold, run[i - 1], run[i], steps[i - 1]);
    }
  }

  /**
   In a regular run every pass starts on a stacked manifest, so that the run is
   sound: nothing about what passes publish is left to ask.
   */
  lemma RegularRunIsSound(threshold: nat, run: seq<State>, steps: seq<Step>)
    requires threshold >= 1 && IsRegularRun(threshold, run, steps)
    ensures IsSoundRun(run, steps)
  {
    forall i | 0 <= i < |steps| ensures StartsStacked(run[i], steps[i]) {
      RegularKeeps(threshold, run, steps, i);
      assert NextStep(run[i], run[i + 1], steps[i]);
    }
    StackedStartsAreSound(run, steps);
  }
}
