/** Every step of Database preserves the invariant. */
module DatabaseSteps {
  import opened Levels
  import opened Database
  import opened DatabaseInvariant

  // ------------------------------------------------- steps of the write lease

  lemma GrantAttempt(d: Durable, g: Id, h: Id, a: Attempt)
    requires AttemptOk(d, h, a) && g !in d.tenants
    ensures AttemptOk(d.(tenants := d.tenants + [g]), h, a)
  {
    var d' := d.(tenants := d.tenants + [g]);
    assert Tenant(d', h) ==> h == g;
    assert Facts(d', h, a) by {
      match a.phase
      case Opened(_, _, view) =>
        forall t | t in view ensures LandedAs(d', t, view[t]) {
          assert LandedAs(d, t, view[t]);
        }
      case _ =>
    }
  }

  lemma GrantKeeps(s: State, s': State, id: Id)
    requires Inv(s) && LeaseStep(s, s', Grant(id))
    ensures Inv(s')
  {
    GrantStore(s.d, id);
    forall h | h in s'.att
      ensures AttemptOk(s'.d, h, s'.att[h])
    {
      GrantAttempt(s.d, id, h, s.att[h]);
    }
    forall i | 0 <= i < |s'.acks| ensures AckOk(s'.d, s'.acks[i]) {
      assert AckOk(s.d, s.acks[i]);
    }
  }

  lemma GrantStore(d: Durable, g: Id)
    requires StoreOk(d) && g !in d.tenants
    ensures StoreOk(d.(tenants := d.tenants + [g]))
  {
    var d' := d.(tenants := d.tenants + [g]);
    ContentOnly(d, d');
    assert ManifestOk(d');
    assert forall x, y :: x in d.tenants && y in d.tenants && Before(d.tenants, x, y) ==> Before(d'.tenants, x, y);
    assert HistoryOk(d');
    assert ReleasesOk(d');
    assert PassOk(d');
  }

  lemma FreeAttempt(d: Durable, g: Id, h: Id, a: Attempt)
    requires AttemptOk(d, h, a) && Tenant(d, g)
    requires h == g ==> a.phase.Ready? || a.phase.Failed?
    ensures AttemptOk(d.(released := d.released + [g]), h, a)
  {
    var d' := d.(released := d.released + [g]);
    assert Facts(d', h, a) by {
      match a.phase
      case Opened(_, _, view) =>
        forall t | t in view ensures LandedAs(d', t, view[t]) {
          assert LandedAs(d, t, view[t]);
        }
      case _ =>
    }
    if Tenant(d', h) {
      assert Solid(d') == Solid(d);
      assert Tenancy(d', h, a);
    }
  }

  lemma FreeStore(d: Durable, g: Id)
    requires StoreOk(d) && Tenant(d, g) && g !in d.released
    ensures StoreOk(d.(released := d.released + [g]))
  {
    var d' := d.(released := d.released + [g]);
    ContentOnly(d, d');
    assert ManifestOk(d');
    PassAdvances(d, d');
  }

  lemma FreeKeeps(s: State, s': State, id: Id)
    requires Inv(s) && LeaseStep(s, s', Free(id))
    ensures Inv(s')
  {
    FreeStore(s.d, id);
    forall h | h in s'.att
      ensures AttemptOk(s'.d, h, s'.att[h])
    {
      FreeAttempt(s.d, id, h, s.att[h]);
    }
    forall i | 0 <= i < |s'.acks| ensures AckOk(s'.d, s'.acks[i]) {
      assert AckOk(s.d, s.acks[i]);
    }
  }

  // --------------------------------------------- steps of one write attempt

  /** A step that only changes one attempt keeps the invariant if that attempt stays consistent. */
  lemma OneAttempt(s: State, s': State, id: Id)
    requires Inv(s) && id in s.att && s'.d == s.d && s'.acks == s.acks
    requires id in s'.att && s'.att == s.att[id := s'.att[id]]
    requires AttemptOk(s.d, id, s'.att[id])
    ensures Inv(s')
  {
  }

  lemma ReadsLandedFacts(d: Durable, plan: set<File>, pos: nat, view: map<nat, Key>)
    requires ContentOk(d) && Reads(d.content, plan, pos, view)
    ensures forall t :: t in view ==> LandedAs(d, t, view[t])
  {
    forall t | t in view
      ensures LandedAs(d, t, view[t])
    {
      var f :| f in plan && f in d.content && t in d.content[f] && d.content[f][t] == view[t];
      assert LandedAs(d, t, d.content[f][t]);
    }
  }

  lemma OpenKeeps(s: State, s': State, id: Id, view: map<nat, Key>)
    requires Inv(s) && OpenStep(s, s', id, view)
    ensures Inv(s')
  {
    var man := s.att[id].phase.man;
    var plan := if man.Some? then man.value else s.d.content.Keys;
    ReadsLandedFacts(s.d, plan, Top(plan), view);
    if Tenant(s.d, id) && man.None? {
      SolidReaches(s.d);
      TopIs(s.d.content.Keys, |s.d.landed|);
    }
    OneAttempt(s, s', id);
  }

  /** A level-0 listing no higher than the manifest means nothing is unindexed. */
  lemma ProbeKeeps(s: State, s': State, id: Id)
    requires Inv(s) && ProbeStep(s, s', id)
    ensures Inv(s')
  {
    var man := s.att[id].phase.man;
    var tail := LevelFiles(s.d.content.Keys, 0);
    if man.Some? && Top(tail) > Top(man.value) {
      var f :| f in tail && f.max == Top(tail);
      assert |s.d.landed| >= 1;
    } else {
      var last := File(0, |s.d.landed|, |s.d.landed|);
      assert last in s.d.content ==> last in tail;
    }
    OneAttempt(s, s', id);
  }

  lemma ScanKeeps(s: State, s': State, id: Id)
    requires Inv(s) && (ScanLevelStep(s, s', id) || SendRebuiltStep(s, s', id))
    ensures Inv(s')
  {
    SolidReaches(s.d);
    OneAttempt(s, s', id);
  }

  lemma LookupKeeps(s: State, s': State, id: Id, txid: nat)
    requires Inv(s) && (HitStep(s, s', id, txid) || MissStep(s, s', id))
    ensures Inv(s')
  {
    var p := s.att[id].phase;
    if MissStep(s, s', id) && Tenant(s.d, id) {
      forall i | 0 <= i < |s.d.landed|
        ensures s.d.landed[i].key != s.att[id].key
      {
        assert i + 1 in p.view;
        assert LandedAs(s.d, i + 1, p.view[i + 1]);
      }
    }
    OneAttempt(s, s', id);
  }

  lemma DedupKeeps(s: State, s': State, id: Id)
    requires Inv(s) && DedupReadStep(s, s', id)
    ensures Inv(s')
  {
    OneAttempt(s, s', id);
  }

  lemma ConfirmFlushKeeps(s: State, s': State, id: Id)
    requires Inv(s) && ConfirmFlushStep(s, s', id)
    ensures Inv(s')
  {
    OneAttempt(s, s', id);
  }

  lemma ConfirmPutKeeps(s: State, s': State, id: Id)
    requires Inv(s) && ConfirmPutStep(s, s', id)
    ensures Inv(s')
  {
    OneAttempt(s, s', id);
  }

  lemma GiveUpMigrateKeeps(s: State, s': State, id: Id)
    requires Inv(s) && GiveUpMigrateStep(s, s', id)
    ensures Inv(s')
  {
    OneAttempt(s, s', id);
  }

  lemma EndsKeep(s: State, s': State, id: Id)
    requires Inv(s) && (FailStep(s, s', id) || ReadManifestStep(s, s', id))
    ensures Inv(s')
  {
    OneAttempt(s, s', id);
  }

  lemma SendIndexKeeps(s: State, s': State, id: Id)
    requires Inv(s) && SendIndexStep(s, s', id)
    ensures Inv(s')
  {
    var p := s.att[id].phase;
    if Tenant(s.d, id) && p.man.Some? {
      assert PutOk(s.d, id, s'.att[id], s'.att[id].pending.value);
    }
    OneAttempt(s, s', id);
  }

  lemma BeginKeeps(s: State, s': State, id: Id, key: Key)
    requires Inv(s) && LeaseStep(s, s', Begin(id, key))
    ensures Inv(s')
  {
  }

  lemma AckKeeps(s: State, s': State, id: Id)
    requires Inv(s) && AckStep(s, s', id)
    ensures Inv(s')
  {
  }
}
