/** The steps of a compaction pass, of source deletion and of garbage collection preserve the invariant. */
module DatabaseCompaction {
  import opened Levels
  import opened Database
  import opened DatabaseInvariant
  import opened DatabaseLandings

  /** A step that only moves the pass keeps the invariant if the new pass is consistent. */
  lemma PassOnly(s: State, s': State)
    requires Inv(s) && s.d.manifest.Some?
    requires s' == s.(d := s.d.(pass := s'.d.pass)) && PassOk(s'.d)
    requires forall f :: f in s.d.keep ==> !Doomed(s'.d.pass, f)
    requires s'.d.pass.Sent? ==> s'.d.pass.id !in s.att
    ensures Inv(s')
  {
    PassOnlyStore(s.d, s'.d);
    KeepAttempts(s, s');
  }

  lemma PassOnlyStore(d: Durable, d': Durable)
    requires ContentOk(d) && HistoryOk(d) && ReleasesOk(d) && ManifestOk(d) && d.manifest.Some?
    requires d' == d.(pass := d'.pass)
    requires forall f :: f in d.keep ==> !Doomed(d'.pass, f)
    ensures ContentOk(d') && HistoryOk(d') && ReleasesOk(d') && ManifestOk(d') && SameView(d, d')
  {
    ContentOnly(d, d');
    assert ManifestOk(d');
  }

  lemma KeepAttempts(s: State, s': State)
    requires AttemptsOk(s) && AcksOk(s) && s'.att == s.att && s'.acks == s.acks && SameView(s.d, s'.d)
    ensures AttemptsOk(s') && AcksOk(s')
  {
    forall h | h in s'.att
      ensures AttemptOk(s'.d, h, s'.att[h])
    {
      AttemptFrame(s.d, s'.d, h, s.att[h]);
    }
    AcksAdvance(s.d, s'.d, s.acks);
  }

  lemma PassStartKeeps(s: State, s': State)
    requires Inv(s) && PassStartStep(s, s')
    ensures Inv(s')
  {
    PassOnly(s, s');
  }

  lemma PassSkipKeeps(s: State, s': State)
    requires Inv(s) && PassSkipStep(s, s')
    ensures Inv(s')
  {
    PassOnly(s, s');
  }

  lemma PassSendKeeps(s: State, s': State, id: Id)
    requires Inv(s) && PassSendStep(s, s', id)
    ensures Inv(s')
  {
    PassOnly(s, s');
  }

  lemma PassStopKeeps(s: State, s': State, step: Step)
    requires Inv(s) && PassStopStep(s, s', step)
    ensures Inv(s')
  {
    PassOnly(s, s');
  }

  lemma GcStartKeeps(s: State, s': State)
    requires Inv(s) && GcStartStep(s, s')
    ensures Inv(s')
  {
    PassOnly(s, s');
  }

  /** Deleting a doomed file takes no kept file and not the unindexed tail. */
  lemma DeleteStore(d: Durable, file: File)
    requires StoreOk(d) && Doomed(d.pass, file)
    ensures StoreOk(d.(content := d.content - {file})) && SameView(d, d.(content := d.content - {file}))
  {
    var d' := d.(content := d.content - {file});
    if Top(d.manifest.value) < |d.landed| {
      TailIsSafe(d);
    }
    assert ContentOk(d') by {
      forall f, t | f in d'.content && t in d'.content[f] ensures LandedAs(d', t, d'.content[f][t]) {
        assert LandedAs(d, t, d.content[f][t]);
      }
    }
    assert ManifestOk(d');
  }

  lemma DeleteOneKeeps(s: State, s': State, file: File)
    requires Inv(s) && DeleteOneStep(s, s', file)
    ensures Inv(s')
  {
    DeleteStore(s.d, file);
    KeepAttempts(s, s');
  }

  // --------------------------------------------------------------- a merge

  /** A merged object stores landed mutations of its own range. */
  lemma MergedContent(d: Durable, info: File, data: map<nat, Key>, x: set<File>, lvl: nat)
    requires ContentOk(d) && 1 <= lvl <= TOP_LEVEL && Within(x, |d.landed|)
    requires IsMerge(info, Candidates(x, lvl), lvl) && MergesData(d.content, Candidates(x, lvl), data)
    ensures ContentOk(d.(content := d.content[info := data]))
  {
    var d' := d.(content := d.content[info := data]);
    MergeWithin(x, |d.landed|, lvl, info);
    forall f, t | f in d'.content && t in d'.content[f]
      ensures Has(f, t) && LandedAs(d', t, d'.content[f][t])
    {
      if f != info {
        assert LandedAs(d, t, d.content[f][t]);
      } else {
        var c :| c in Candidates(x, lvl) && c in d.content && t in d.content[c] && d.content[c][t] == data[t];
        assert Has(c, t) && LandedAs(d, t, d.content[c][t]);
      }
    }
  }

  lemma PassMergeKeeps(s: State, s': State, info: File, data: map<nat, Key>)
    requires Inv(s) && PassMergeStep(s, s', info, data)
    ensures Inv(s')
  {
    MergeStore(s, s', info, data);
    assert Solid(s'.d) == Solid(s.d);
    KeepAttempts(s, s');
  }

  lemma MergeStore(s: State, s': State, info: File, data: map<nat, Key>)
    requires StoreOk(s.d) && PassMergeStep(s, s', info, data)
    ensures StoreOk(s'.d)
  {
    var d, d' := s.d, s'.d;
    var p := d.pass;
    assert ContentOk(d') by {
      MergedContent(d, info, data, p.snap + p.merged, p.lvl);
      ContentOnly(d.(content := d.content[info := data]), d');
    }
    MergePassOk(d, d', info);
    assert ManifestOk(d');
  }

  /** What the pass keeps still reaches as far as what it has retired. */
  lemma MergeReaches(sources: set<File>, kept: set<File>, u: set<File>, info: File)
    requires forall f :: f in sources ==> Reaches(kept, f.max)
    ensures forall f :: f in sources + Gone(u, info) ==> Reaches((kept - Gone(u, info)) + {info}, f.max)
  {
    var kept' := (kept - Gone(u, info)) + {info};
    forall f | f in sources + Gone(u, info) ensures Reaches(kept', f.max) {
      assert info in kept';
      if f in sources && f.max > 0 {
        var g :| g in kept && g.max >= f.max;
        assert g in kept' || info.max >= f.max;
      }
    }
  }

  lemma MergePassOk(d: Durable, d': Durable, info: File)
    requires PassOk(d) && d.pass.Merging?
    requires var p := d.pass;
             var gone := Gone((p.snap + p.merged) - p.sources, info);
             && 1 <= p.lvl <= TOP_LEVEL && IsMerge(info, Candidates(p.snap + p.merged, p.lvl), p.lvl)
             && d'.pass == Merging(p.snap, p.lvl + 1, p.merged + {info}, p.sources + gone, (p.kept - gone) + {info})
             && d'.manifest == d.manifest && d'.keep == d.keep && d'.content.Keys == d.content.Keys + {info}
    ensures PassOk(d')
  {
    var p, q := d.pass, d'.pass;
    MergeWithin(p.snap + p.merged, Top(d.manifest.value), p.lvl, info);
    MergeReaches(p.sources, p.kept, (p.snap + p.merged) - p.sources, info);
    assert q.snap + q.merged == (p.snap + p.merged) + {info};
    assert info !in q.sources;
    assert MergeOk(d', q.snap, q.merged, q.sources, q.kept);
  }

  // ---------------------------------------------------------- publishing

  /** A published manifest reaches as far as the manifest it replaces. */
  lemma PublishedReaches(d: Durable, d': Durable)
    requires StoreOk(d) && d.pass.Sent? && Tenant(d, d.pass.id)
    requires d'.content == d.content && (d'.pass.Idle? || d'.pass == Published(d.pass.sources))
    ensures Within(d.pass.final, Top(d.manifest.value))
    ensures Reaches(Survivors(d.pass.final, d'), Top(d.manifest.value)) && Top(d.pass.final) == Top(d.manifest.value)
  {
    var p, n := d.pass, Top(d.manifest.value);
    var keep' := Survivors(p.final, d');
    if n > 0 {
      var f :| f in d.keep && f.max >= n;
      if f in p.sources {
        assert Reaches(p.kept, f.max);
        var g :| g in p.kept && g.max >= f.max;
        assert g in keep';
      } else {
        assert f in keep';
      }
    }
    TopIs(p.final, n);
  }

  lemma PassLandKeeps(s: State, s': State)
    requires Inv(s) && PassLandStep(s, s')
    ensures Inv(s')
  {
    PublishedReaches(s.d, s'.d);
    PublishedStore(s, s');
    assert Advances(s.d, s'.d);
    OthersAdvance(s.d, s'.d, s.att, s.d.pass.id);
    AcksAdvance(s.d, s'.d, s.acks);
  }

  lemma PublishedStore(s: State, s': State)
    requires Inv(s) && PassLandStep(s, s')
    requires var n := Top(s.d.manifest.value);
             Within(s.d.pass.final, n) && Top(s.d.pass.final) == n && Reaches(s'.d.keep, n)
    ensures StoreOk(s'.d)
  {
    ContentOnly(s.d, s'.d);
    assert PassOk(s'.d);
  }
}
