/**
 Durability.  Rebuilt manifests are unrestricted: whatever a repair lists, every
 TXID it found stays.  The one thing the code does not check is what a pass
 publishes, so the theorems ask it of the publish, and PublishSafeIff says what
 the test is: every file that is retired has its whole range in what stays.
 */
module DatabaseDurability {
  import opened Levels
  import opened Database
  import opened DatabaseInvariant
  import opened DatabaseLandings
  import opened DatabaseSafety

  /** Objects hold every TXID of their range. */
  ghost predicate Exact(content: map<File, map<nat, Key>>) {
    forall f, t :: f in content && Has(f, t) ==> t in content[f]
  }

  /** The surviving listed files hold every TXID up to the manifest's highest. */
  ghost predicate Complete(d: Durable) {
    Exact(d.content) && (d.manifest.Some? ==> CoversUpTo(d.keep, Top(d.manifest.value)))
  }

  /** A publish leaves every TXID in a file that survives, and a merge has no hole. */
  ghost predicate Sound(s: State, s': State, step: Step) {
    match step
    case PassLand => s'.d.manifest.Some? && CoversUpTo(s'.d.keep, Top(s'.d.manifest.value))
    case PassMerge(info, _) =>
      && s.d.pass.Merging?
      && forall t :: Has(info, t) ==> Covers(Candidates(s.d.pass.snap + s.d.pass.merged, s.d.pass.lvl), t)
    case _ => true
  }

  ghost predicate IsSoundRun(run: seq<State>, steps: seq<Step>) {
    IsRun(run, steps) && forall i :: 0 <= i < |steps| ==> Sound(run[i], run[i + 1], steps[i])
  }

  // ------------------------------------------------------------- preservation

  lemma SolidCovers(d: Durable)
    requires ManifestOk(d) && Complete(d)
    ensures CoversUpTo(Solid(d), |d.landed|)
  {
    if d.manifest.Some? {
      forall t | 1 <= t <= |d.landed| ensures Covers(Solid(d), t) {
        if t <= Top(d.manifest.value) {
          assert Covers(d.keep, t);
          var f :| f in d.keep && Has(f, t);
          assert f in Solid(d);
        } else {
          assert Has(File(0, |d.landed|, |d.landed|), t);
        }
      }
    }
  }

  /** A repair, a migration or a commit record lists every solid file, and so covers everything landed. */
  lemma LandComplete(s: State, s': State, id: Id)
    requires Inv(s) && Complete(s.d) && LandStep(s, s', id)
    ensures Complete(s'.d)
  {
    var put := s.att[id].pending.value;
    assert AttemptOk(s.d, id, s.att[id]);
    assert PutOk(s.d, id, s.att[id], put);
    if put.PutManifest? {
      SolidSurvives(s.d, put.files);
      SolidCovers(s.d);
      CoversMore(Solid(s.d), s'.d.keep, |s.d.landed|);
      ManifestStore(s.d, put.files);
    }
  }

  lemma MergeComplete(s: State, s': State, info: File, data: map<nat, Key>)
    requires Complete(s.d) && PassMergeStep(s, s', info, data) && Sound(s, s', PassMerge(info, data))
    ensures Complete(s'.d)
  {
    var cs := Candidates(s.d.pass.snap + s.d.pass.merged, s.d.pass.lvl);
    forall t | Has(info, t) ensures t in data {
      assert Covers(cs, t);
      var c :| c in cs && Has(c, t);
      assert t in s.d.content[c];
    }
  }

  lemma NextComplete(s: State, s': State, step: Step)
    requires Inv(s) && Complete(s.d) && NextStep(s, s', step) && Sound(s, s', step)
    ensures Complete(s'.d)
  {
    if step.Land? {
      LandComplete(s, s', step.id);
    } else if step.PassMerge? {
      MergeComplete(s, s', step.info, step.data);
    } else {
      StoreOrSound(s, s', step);
    }
  }

  /** Every other step but a publish writes no object and moves no manifest. */
  lemma StoreOrSound(s: State, s': State, step: Step)
    requires Complete(s.d) && NextStep(s, s', step) && Sound(s, s', step) && !step.Land? && !step.PassMerge?
    ensures Complete(s'.d)
  {
    assert forall f :: f in s'.d.content ==> f in s.d.content && s'.d.content[f] == s.d.content[f];
    assert step.PassLand? || (s'.d.manifest == s.d.manifest && s'.d.keep == s.d.keep);
  }

  lemma SoundNext(run: seq<State>, steps: seq<Step>, i: nat)
    requires IsSoundRun(run, steps) && i < |steps| && Complete(run[i].d)
    ensures Complete(run[i + 1].d)
  {
    RunKeeps(run, steps, i);
    NextComplete(run[i], run[i + 1], steps[i]);
  }

  lemma {:induction false} CompleteRun(run: seq<State>, steps: seq<Step>, i: nat)
    requires IsSoundRun(run, steps) && i < |run|
    ensures Complete(run[i].d)
  {
    if i > 0 {
      CompleteRun(run, steps, i - 1);
      SoundNext(run, steps, i - 1);
    }
  }

  lemma SoundRunKeeps(run: seq<State>, steps: seq<Step>, i: nat)
    requires IsSoundRun(run, steps) && i < |run|
    ensures Inv(run[i]) && Complete(run[i].d)
  {
    RunKeeps(run, steps, i);
    CompleteRun(run, steps, i);
  }

  // ----------------------------------------------------------------- theorems

  /** The object store still holds txid's mutation, and so does a listed file when there is a manifest. */
  ghost predicate Durably(d: Durable, txid: nat, key: Key) {
    && (exists f :: f in d.content && txid in d.content[f] && d.content[f][txid] == key)
    && (d.manifest.Some? ==>
         exists f :: f in d.manifest.value && f in d.content && txid in d.content[f] && d.content[f][txid] == key)
  }

  lemma LandedIsDurable(d: Durable, t: nat, key: Key)
    requires StoreOk(d) && Complete(d) && LandedAs(d, t, key) && Covered(d, t)
    ensures Durably(d, t, key)
  {
    if d.manifest.Some? {
      assert Covers(d.keep, t);
      var f :| f in d.keep && Has(f, t);
      assert LandedAs(d, t, d.content[f][t]);
    } else {
      assert Covers(d.content.Keys, t);
      var f :| f in d.content && Has(f, t);
      assert LandedAs(d, t, d.content[f][t]);
    }
  }

  /**
   An acknowledged TXID stays readable, with its own mutation, in every later
   state: through writes, repairs, merges, publishes, deletions and collection.
   */
  lemma AcknowledgedStaysDurable(run: seq<State>, steps: seq<Step>, i: nat, j: nat, a: nat)
    requires IsSoundRun(run, steps) && i <= j < |run| && a < |run[i].acks|
    ensures Durably(run[j].d, run[i].acks[a].txid, run[i].acks[a].key)
  {
    SoundRunKeeps(run, steps, j);
    HistoryGrows(run, steps, i, j);
    assert AckOk(run[j].d, run[j].acks[a]);
    LandedIsDurable(run[j].d, run[i].acks[a].txid, run[i].acks[a].key);
  }

  /** Every landed TXID is still in the object store. */
  lemma StoreStaysComplete(run: seq<State>, steps: seq<Step>, i: nat)
    requires IsSoundRun(run, steps) && i < |run|
    ensures CoversUpTo(run[i].d.content.Keys, |run[i].d.landed|)
  {
    SoundRunKeeps(run, steps, i);
    SolidCovers(run[i].d);
    SolidReaches(run[i].d);
    CoversMore(Solid(run[i].d), run[i].d.content.Keys, |run[i].d.landed|);
  }

  /**
   In every state, garbage collection and source deletion included, each TXID
   up to the manifest's highest is in a file the manifest lists and the store holds.
   */
  lemma ManifestStaysReadable(run: seq<State>, steps: seq<Step>, i: nat)
    requires IsSoundRun(run, steps) && i < |run| && run[i].d.manifest.Some?
    ensures var d := run[i].d;
            CoversUpTo(d.manifest.value * d.content.Keys, Top(d.manifest.value))
  {
    SoundRunKeeps(run, steps, i);
    var d := run[i].d;
    CoversMore(d.keep, d.manifest.value * d.content.Keys, Top(d.manifest.value));
  }

  /**
   A repair's level-by-level listing, whatever merges and deletions run beside
   it, lists a surviving file for every landed TXID.
   */
  lemma RebuildMissesNothing(run: seq<State>, steps: seq<Step>, i: nat, id: Id)
    requires IsSoundRun(run, steps) && i < |steps| && steps[i] == SendRebuilt(id)
    requires Tenant(run[i].d, id) && In(run[i], id) && run[i].att[id].phase.Scanning?
    ensures CoversUpTo(run[i].att[id].phase.acc * run[i].d.content.Keys, |run[i].d.landed|)
  {
    SoundRunKeeps(run, steps, i);
    var d := run[i].d;
    var acc := run[i].att[id].phase.acc;
    assert AttemptOk(d, id, run[i].att[id]);
    assert SendRebuiltStep(run[i], run[i + 1], id);
    SolidCovers(d);
    SolidReaches(d);
    CoversMore(Solid(d), acc * d.content.Keys, |d.landed|);
  }

  // ------------------------------------------------------- the publish test

  /**
   Exactly when a publish is safe: each TXID of each file it retires, up to the
   manifest's highest, is in a file that the new manifest lists and that
   survives.  The publisher can test this before its PUT, on its delta, the
   manifest it re-read and a listing.
   */
  lemma PublishSafeIff(s: State, s': State)
    requires Inv(s) && Complete(s.d) && PassLandStep(s, s')
    ensures CoversUpTo(s'.d.keep, Top(s'.d.manifest.value))
       <==> forall f, t :: f in s.d.pass.sources && 1 <= t <= Top(s.d.manifest.value) && Has(f, t) ==>
              Covers(s'.d.keep, t)
  {
    PublishedTop(s, s');
    KeepSurvives(s, s');
    CoverIff(s.d.keep, s'.d.keep, s.d.pass.sources, Top(s.d.manifest.value));
  }

  lemma CoverIff(keep: set<File>, keep': set<File>, sources: set<File>, n: nat)
    requires CoversUpTo(keep, n) && keep - sources <= keep'
    ensures CoversUpTo(keep', n) <==> forall f, t :: f in sources && 1 <= t <= n && Has(f, t) ==> Covers(keep', t)
  {
    if forall f, t :: f in sources && 1 <= t <= n && Has(f, t) ==> Covers(keep', t) {
      forall t | 1 <= t <= n ensures Covers(keep', t) {
        assert Covers(keep, t);
        var f :| f in keep && Has(f, t);
        assert f in sources || f in keep';
      }
    }
  }

  lemma KeepSurvives(s: State, s': State)
    requires StoreOk(s.d) && PassLandStep(s, s')
    ensures s.d.keep - s.d.pass.sources <= s'.d.keep
  {
  }

  lemma PublishedTop(s: State, s': State)
    requires Inv(s) && PassLandStep(s, s')
    ensures Top(s'.d.manifest.value) == Top(s.d.manifest.value)
  {
    DatabaseCompaction.PublishedReaches(s.d, s'.d);
  }

  /** The listed files that will still be there once the deletions under way are done. */
  ghost predicate Readable(d: Durable, t: nat) {
    d.manifest.Some? &&
    exists f :: f in d.manifest.value && f in d.content && !Doomed(d.pass, f) && t in d.content[f]
  }

  /** A publish that fails the test leaves a landed TXID in no listed file that survives. */
  lemma UnsafePublishLoses(s: State, s': State) returns (t: nat)
    requires Inv(s) && PassLandStep(s, s') && !CoversUpTo(s'.d.keep, Top(s'.d.manifest.value))
    ensures 1 <= t <= |s'.d.landed| && !Readable(s'.d, t)
  {
    NextKeeps(s, s', PassLand);
    t :| 1 <= t <= Top(s'.d.manifest.value) && !Covers(s'.d.keep, t);
    assert forall f :: f in s'.d.manifest.value && f in s'.d.content && !Doomed(s'.d.pass, f) ==> f in s'.d.keep;
  }
}
