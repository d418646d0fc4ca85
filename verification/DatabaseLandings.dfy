/** Landing a flush or a manifest preserves the invariant. */
module DatabaseLandings {
  import opened Wrappers
  import opened Levels
  import opened Database
  import opened DatabaseInvariant

  /** The one unindexed file is never up for deletion. */
  lemma TailIsSafe(d: Durable)
    requires ManifestOk(d) && PassOk(d)
    requires d.manifest.Some? && Top(d.manifest.value) < |d.landed|
    ensures !Doomed(d.pass, File(0, |d.landed|, |d.landed|))
  {
  }

  /** Every solid file survives the landing of a manifest that lists it. */
  lemma SolidSurvives(d: Durable, files: set<File>)
    requires ContentOk(d) && ManifestOk(d) && PassOk(d) && Solid(d) <= files
    ensures Solid(d) <= Survivors(files, d) && Reaches(Survivors(files, d), |d.landed|)
  {
    SolidReaches(d);
    if d.manifest.Some? && Top(d.manifest.value) < |d.landed| {
      TailIsSafe(d);
    }
  }

  // ------------------------------------------------------------ a flush lands

  ghost function WithFlush(d: Durable, id: Id, key: Key, txid: nat): Durable {
    d.(content := d.content[File(0, txid, txid) := map[txid := key]],
       landed := d.landed + [Landing(id, key, txid)])
  }

  lemma FlushContent(d: Durable, id: Id, key: Key)
    requires ContentOk(d)
    ensures ContentOk(WithFlush(d, id, key, |d.landed| + 1))
  {
    var n := |d.landed| + 1;
    var d' := WithFlush(d, id, key, n);
    forall f, t | f in d'.content && t in d'.content[f]
      ensures Has(f, t) && LandedAs(d', t, d'.content[f][t])
    {
      if f != File(0, n, n) {
        assert LandedAs(d, t, d.content[f][t]);
      }
    }
  }

  lemma FlushHistory(d: Durable, id: Id, key: Key)
    requires HistoryOk(d) && Tenant(d, id) && KeyIsNew(d, key) && Unlanded(d, id)
    ensures HistoryOk(WithFlush(d, id, key, |d.landed| + 1))
  {
    var d' := WithFlush(d, id, key, |d.landed| + 1);
    forall i, j | 0 <= i < j < |d'.landed|
      ensures Before(d'.tenants, d'.landed[i].id, d'.landed[j].id)
    {
      if j < |d.landed| {
        assert Before(d.tenants, d.landed[i].id, d.landed[j].id);
      }
    }
  }

  lemma FlushStore(d: Durable, id: Id, key: Key)
    requires StoreOk(d) && Tenant(d, id) && KeyIsNew(d, key) && Unlanded(d, id) && UpToDate(d)
    ensures StoreOk(WithFlush(d, id, key, |d.landed| + 1))
  {
    var n := |d.landed| + 1;
    var d' := WithFlush(d, id, key, n);
    FlushContent(d, id, key);
    FlushHistory(d, id, key);
    FlushManifest(d, id, key);
    PassAdvances(d, d');
  }

  lemma FlushManifest(d: Durable, id: Id, key: Key)
    requires ManifestOk(d) && UpToDate(d)
    ensures ManifestOk(WithFlush(d, id, key, |d.landed| + 1))
  {
    var n := |d.landed| + 1;
    var d' := WithFlush(d, id, key, n);
    if d.manifest.None? {
      forall t | 1 <= t <= n ensures Covers(d'.content.Keys, t) {
        if t == n {
          assert Has(File(0, n, n), t);
        } else {
          assert Covers(d.content.Keys, t);
        }
      }
    }
  }

  lemma FlushAdvances(d: Durable, id: Id, key: Key)
    requires d.manifest.Some? ==> Top(d.manifest.value) <= |d.landed|
    ensures Advances(d, WithFlush(d, id, key, |d.landed| + 1))
  {
  }

  lemma LandFileKeeps(s: State, s': State, id: Id)
    requires Inv(s) && LandStep(s, s', id) && s.att[id].pending.value.PutFile?
    ensures Inv(s')
  {
    var put := s.att[id].pending.value;
    assert PutOk(s.d, id, s.att[id], put);
    FlushStore(s.d, id, put.key);
    FlushAttempts(s.d, s.att, id, put.key);
    FlushAdvances(s.d, id, put.key);
    AcksAdvance(s.d, s'.d, s.acks);
  }

  lemma FlushAttempts(d: Durable, att: map<Id, Attempt>, id: Id, key: Key)
    requires ManifestOk(d) && (forall h :: h in att ==> AttemptOk(d, h, att[h])) && Tenant(d, id)
    requires id in att && att[id].pending == Some(PutFile(|d.landed| + 1, key)) && att[id].key == key
    ensures var att' := att[id := att[id].(pending := None)];
            forall h :: h in att' ==> AttemptOk(WithFlush(d, id, key, |d.landed| + 1), h, att'[h])
  {
    FlushAdvances(d, id, key);
    OthersAdvance(d, WithFlush(d, id, key, |d.landed| + 1), att, id);
    FlusherOk(d, id, att[id]);
  }

  lemma FlusherOk(d: Durable, id: Id, a: Attempt)
    requires AttemptOk(d, id, a) && Tenant(d, id)
    requires a.pending.Some? && a.pending.value.PutFile?
    ensures AttemptOk(WithFlush(d, id, a.key, |d.landed| + 1), id, a.(pending := None))
  {
    var d' := WithFlush(d, id, a.key, |d.landed| + 1);
    assert PutOk(d, id, a, a.pending.value);
    assert a.phase.Flushing? || a.phase.Ready? || a.phase.Failed? || a.phase.Acked?;
  }

  // -------------------------------------------------------- a manifest lands

  ghost function WithManifest(d: Durable, files: set<File>): Durable {
    d.(manifest := Some(files), keep := Survivors(files, d))
  }

  /** A new manifest that keeps the solid files is a good manifest. */
  lemma ManifestStore(d: Durable, files: set<File>)
    requires StoreOk(d) && Within(files, |d.landed|) && Solid(d) <= files
    requires d.pass.Sent? ==> !Tenant(d, d.pass.id)
    ensures StoreOk(WithManifest(d, files)) && Top(files) == |d.landed|
  {
    var d' := WithManifest(d, files);
    SolidSurvives(d, files);
    TopIs(files, |d.landed|);
    ContentOnly(d, d');
    PassAdvances(d, d');
  }

  lemma LandManifestKeeps(s: State, s': State, id: Id)
    requires Inv(s) && LandStep(s, s', id) && s.att[id].pending.value.PutManifest?
    ensures Inv(s')
  {
    var put := s.att[id].pending.value;
    assert AttemptOk(s.d, id, s.att[id]);
    LandedManifestOk(s.d, id, s.att[id], s'.d);
    assert Advances(s.d, s'.d);
    OthersAdvance(s.d, s'.d, s.att, id);
    FactsAdvance(s.d, s'.d, id, s.att[id]);
    PublisherOk(s.d, id, s.att[id]);
    AcksAdvance(s.d, s'.d, s.acks);
  }

  lemma LandedManifestOk(d: Durable, id: Id, a: Attempt, d': Durable)
    requires StoreOk(d) && AttemptOk(d, id, a) && Tenant(d, id) && (d.pass.Sent? ==> d.pass.id != id)
    requires a.pending.Some? && a.pending.value.PutManifest? && d' == WithManifest(d, a.pending.value.files)
    ensures StoreOk(d') && Top(a.pending.value.files) == |d.landed|
  {
    assert PutOk(d, id, a, a.pending.value);
    ManifestStore(d, a.pending.value.files);
  }

  lemma PublisherOk(d: Durable, id: Id, a: Attempt)
    requires AttemptOk(d, id, a) && Tenant(d, id)
    requires a.pending.Some? && a.pending.value.PutManifest?
    requires Facts(WithManifest(d, a.pending.value.files), id, a)
    requires Top(a.pending.value.files) == |d.landed|
    ensures AttemptOk(WithManifest(d, a.pending.value.files), id, a.(pending := None))
  {
    assert a.phase.Putting? || a.phase.Ready? || a.phase.Failed? || a.phase.Acked?;
  }

  lemma LandKeeps(s: State, s': State, id: Id)
    requires Inv(s) && LandStep(s, s', id)
    ensures Inv(s')
  {
    if s.att[id].pending.value.PutFile? {
      LandFileKeeps(s, s', id);
    } else {
      LandManifestKeeps(s, s', id);
    }
  }
}
