/**
 A write over the joint system, from taking the lease to its acknowledgement:
 whenever the lease can be taken, a new attempt that is left alone is answered.
 */
module WorldProgress {
  import opened Wrappers
  import DP = DatabaseProgress
  import opened World
  import opened WorldDurability

  // ------------------------------------------------------------------- paths

  ghost predicate IsPath(cfg: L.Config, run: seq<World>, steps: seq<Step>) {
    |run| == |steps| + 1 && forall i :: 0 <= i < |steps| ==> Next(cfg, run[i], run[i + 1], steps[i])
  }

  ghost predicate Joins(cfg: L.Config, run: seq<World>, steps: seq<Step>, w: World, w': World) {
    IsPath(cfg, run, steps) && run[0] == w && run[|steps|] == w'
  }

  ghost predicate Leads(cfg: L.Config, w: World, w': World) {
    exists run, steps :: Joins(cfg, run, steps, w, w')
  }

  lemma Stay(cfg: L.Config, w: World)
    ensures Leads(cfg, w, w)
  {
    assert Joins(cfg, [w], [], w, w);
  }

  lemma Go(cfg: L.Config, w: World, w1: World, w2: World, step: Step)
    requires Leads(cfg, w, w1) && Next(cfg, w1, w2, step)
    ensures Leads(cfg, w, w2)
  {
    var run, steps :| Joins(cfg, run, steps, w, w1);
    var longer, more := run + [w2], steps + [step];
    forall i | 0 <= i < |more| ensures Next(cfg, longer[i], longer[i + 1], more[i]) {
      if i < |steps| {
        assert longer[i] == run[i] && longer[i + 1] == run[i + 1] && more[i] == steps[i];
      } else {
        assert longer[i] == w1 && longer[i + 1] == w2 && more[i] == step;
      }
    }
    assert Joins(cfg, longer, more, w, w2);
  }

  /** The steps of an attempt between its first read and its release need nothing of the lease. */
  lemma {:induction false} Lifts(cfg: L.Config, w: World, l: L.State, run: seq<D.State>, steps: seq<D.Step>, id: nat,
                                 i: nat)
    requires DP.IsPath(run, steps, id, false) && i <= |steps| && Leads(cfg, w, World(l, run[0]))
    ensures Leads(cfg, w, World(l, run[i]))
  {
    if i > 0 {
      Lifts(cfg, w, l, run, steps, id, i - 1);
      assert D.NextStep(run[i - 1], run[i], steps[i - 1]) && DP.Own(steps[i - 1], id, false);
      Go(cfg, w, World(l, run[i - 1]), World(l, run[i]), OnDatabase(steps[i - 1]));
    }
  }

  // ------------------------------------------------------------ the two ends

  lemma OneMoreId(log: seq<L.Event>, e: L.Event, kind: L.Kind)
    ensures Ids(log + [e], kind) == Ids(log, kind) + (if e.kind == kind then [e.id] else [])
  {
    assert (log + [e])[..|log|] == log;
  }

  /** The lease's record is absent, released or safely expired on the clock of proc. */
  predicate Free(cfg: L.Config, l: L.State, proc: L.Proc)
    requires proc in l.clock
  {
    || l.net.store.None?
    || l.net.store.value.rec.status.ReleasedStatus?
    || l.net.store.value.rec.expiresAt < l.clock[proc] - cfg.skew
  }

  /** The lease side of an acquisition: what was there, and the event it adds. */
  ghost predicate Acquired(l: L.State, l': L.State, id: nat, proc: L.Proc, rec: L.Record, token: L.Token) {
    && l'.net.store == Some(L.Object(rec, token)) && l'.net.log == l.net.log + [L.Event(L.Acquire, id, rec, token)]
    && id in l'.holders && l'.holders[id].proc == proc && l'.clock == l.clock
    && l'.holders[id].phase == L.Holding(rec, token, false, false, None)
  }

  ghost predicate SameOrder(w: World) {
    w.db.d.tenants == Ids(w.l.net.log, L.Acquire) && w.db.d.released == Ids(w.l.net.log, L.Release)
  }

  /** A lease step that adds nothing to the log leaves the database alone. */
  lemma LeaseOnly(cfg: L.Config, w0: World, w: World, l: L.State, step: L.Step)
    requires Leads(cfg, w0, w) && SameOrder(w) && L.NextStep(cfg, w.l, l, step) && l.net.log == w.l.net.log
    requires step.SendRelease? ==> Finished(w.db, step.id)
    ensures Leads(cfg, w0, World(l, w.db)) && SameOrder(World(l, w.db))
  {
    Go(cfg, w0, w, World(l, w.db), OnLease(step));
  }

  /** Get and decide. */
  lemma Asks(cfg: L.Config, w0: World, w: World, id: nat, proc: L.Proc) returns (l: L.State, req: L.Request)
    requires Leads(cfg, w0, w) && SameOrder(w) && id !in w.l.holders && proc in w.l.clock && Free(cfg, w.l, proc)
    ensures Leads(cfg, w0, World(l, w.db)) && SameOrder(World(l, w.db))
    ensures req.kind.Acquire? && req.id == id && L.Matches(w.l.net.store, req.expected)
    ensures l.net == w.l.net.(wire := w.l.net.wire + {req}) && l.clock == w.l.clock
    ensures id in l.holders && l.holders[id].proc == proc && l.holders[id].phase == L.Acquiring(req)
  {
    var store, now := w.l.net.store, w.l.clock[proc];
    var expected := if store.None? then None else Some(store.value.token);
    var prev := if store.None? then 0 else store.value.rec.epoch;
    req := L.Request(L.Acquire, id, expected, L.NewRecord(cfg, proc, id, prev, now));
    var l1 := w.l.(holders := w.l.holders[id := L.Holder(proc, 0, L.Looked(store))]);
    LeaseOnly(cfg, w0, w, l1, L.Get(id, proc));
    l := L.Send(l1.(holders := l1.holders[id := L.Holder(proc, now, L.Acquiring(req))]), req);
    LeaseOnly(cfg, w0, World(l1, w.db), l, L.Decide(id));
  }

  /** Land and reply. */
  lemma Lands(cfg: L.Config, w0: World, w: World, id: nat, req: L.Request, token: L.Token) returns (w': World)
    requires Leads(cfg, w0, w) && SameOrder(w) && req in w.l.net.wire && L.Matches(w.l.net.store, req.expected)
    requires id in w.l.holders && w.l.holders[id].phase == L.Acquiring(req) && req.kind.Acquire? && req.id == id
    requires L.FreshToken(w.l.net.log, token)
    ensures Leads(cfg, w0, w') && SameOrder(w') && Acquired(w.l, w'.l, id, w.l.holders[id].proc, req.rec, token)
    ensures w'.db == w.db.(d := w.db.d.(tenants := w.db.d.tenants + [id]))
  {
    var net, event := w.l.net, L.Event(L.Acquire, id, req.rec, token);
    var l1 := w.l.(net := L.Net(Some(L.Object(req.rec, token)), net.log + [event], net.wire - {req},
                                net.replies[req := L.Ok(token)]));
    OneMoreId(net.log, event, L.Acquire);
    OneMoreId(net.log, event, L.Release);
    var db := w.db.(d := w.db.d.(tenants := w.db.d.tenants + [id]));
    Go(cfg, w0, w, World(l1, db), OnLease(L.Land(req, token)));
    var l2 := L.SetPhase(l1, id, L.Holding(req.rec, token, false, false, None));
    LeaseOnly(cfg, w0, World(l1, db), l2, L.AcquireReply(id));
    w' := World(l2, db);
  }

  lemma Acquires(cfg: L.Config, w0: World, w: World, id: nat, proc: L.Proc, token: L.Token)
      returns (w': World, rec: L.Record)
    requires Leads(cfg, w0, w) && SameOrder(w) && id !in w.l.holders && proc in w.l.clock && Free(cfg, w.l, proc)
    requires L.FreshToken(w.l.net.log, token)
    ensures Leads(cfg, w0, w') && SameOrder(w') && Acquired(w.l, w'.l, id, proc, rec, token)
    ensures w'.db == w.db.(d := w.db.d.(tenants := w.db.d.tenants + [id]))
  {
    var l, req := Asks(cfg, w0, w, id, proc);
    rec := req.rec;
    w' := Lands(cfg, w0, World(l, w.db), id, req, token);
  }

  /** Send, land and reply. */
  lemma Releases(cfg: L.Config, w0: World, w: World, id: nat, rec: L.Record, was: L.Token, token: L.Token)
      returns (w': World)
    requires Leads(cfg, w0, w) && Finished(w.db, id) && Holds(w.l, id) && w.l.holders[id].proc in w.l.clock
    requires w.l.holders[id].phase == L.Holding(rec, was, false, false, None)
    requires w.l.net.store == Some(L.Object(rec, was)) && L.FreshToken(w.l.net.log, token)
    requires SameOrder(w)
    ensures Leads(cfg, w0, w') && w'.db == w.db.(d := w.db.d.(released := w.db.d.released + [id]))
    ensures id in w'.l.holders && w'.l.holders[id].phase == L.Done(L.ReleasedOk)
  {
    var l := w.l;
    var free := rec.(status := L.ReleasedStatus, expiresAt := l.clock[l.holders[id].proc]);
    var req := L.Request(L.Kind.Release, id, Some(was), free);
    var event := L.Event(L.Kind.Release, id, free, token);
    var l1 := L.Send(L.SetPhase(l, id, L.Releasing(req)), req);
    LeaseOnly(cfg, w0, w, l1, L.SendRelease(id));
    var l2 := l1.(net := L.Net(Some(L.Object(free, token)), l1.net.log + [event], l1.net.wire - {req},
                               l1.net.replies[req := L.Ok(token)]));
    OneMoreId(l.net.log, event, L.Acquire);
    OneMoreId(l.net.log, event, L.Release);
    var db := w.db.(d := w.db.d.(released := w.db.d.released + [id]));
    Go(cfg, w0, World(l1, w.db), World(l2, db), OnLease(L.Land(req, token)));
    w' := World(L.SetPhase(l2, id, L.Done(L.ReleasedOk)), db);
    Go(cfg, w0, World(l2, db), w', OnLease(L.ReleaseReply(id)));
  }

  // ----------------------------------------------------------------- a write

  /** The attempt begins, and the database state after it has acquired and read is one of the database's own. */
  lemma StartsWell(db: D.State, id: nat, key: D.Key, db3: D.State)
    requires DI.Inv(db) && DD.Complete(db.d) && id !in db.att && id !in db.d.tenants
    requires var db2 := db.(att := db.att[id := D.Attempt(key, D.Start, None)],
                            d := db.d.(tenants := db.d.tenants + [id]));
             db3 == D.SetPhase(db2, id, D.Got(db2.d.manifest))
    ensures DI.Inv(db3) && DD.Complete(db3.d)
  {
    var db1 := db.(att := db.att[id := D.Attempt(key, D.Start, None)]);
    var db2 := db1.(d := db1.d.(tenants := db1.d.tenants + [id]));
    assert D.NextStep(db, db1, D.Begin(id, key));
    DS.NextKeeps(db, db1, D.Begin(id, key));
    assert D.NextStep(db1, db2, D.Grant(id));
    DS.NextKeeps(db1, db2, D.Grant(id));
    assert D.NextStep(db2, db3, D.ReadManifest(id));
    DS.NextKeeps(db2, db3, D.ReadManifest(id));
  }

  lemma NotYetReleased(db: D.State, id: nat)
    requires DI.Inv(db) && id !in db.d.tenants
    ensures id !in db.d.released
  {
    assert DI.ReleaseOrder(db.d.released, db.d.tenants);
  }

  /** A new attempt begins, takes the lease and reads the manifest. */
  lemma Enters(cfg: L.Config, w: World, id: nat, proc: L.Proc, key: D.Key, token: L.Token)
      returns (w': World, rec: L.Record)
    requires LI.Inv(cfg, w.l) && Linked(w) && DI.Inv(w.db) && DD.Complete(w.db.d)
    requires id !in w.l.holders && id !in w.db.att && proc in w.l.clock && Free(cfg, w.l, proc)
    requires L.FreshToken(w.l.net.log, token)
    ensures Leads(cfg, w, w') && SameOrder(w') && Acquired(w.l, w'.l, id, proc, rec, token)
    ensures w'.db.d == w.db.d.(tenants := w.db.d.tenants + [id]) && w'.db.acks == w.db.acks
    ensures id in w'.db.att && w'.db.att[id] == D.Attempt(key, D.Got(w.db.d.manifest), None)
    ensures DI.Inv(w'.db) && DD.Complete(w'.db.d) && id !in w'.db.d.released
  {
    NewcomerIsNew(cfg, w, id);
    NotYetReleased(w.db, id);
    Stay(cfg, w);
    var w1 := World(w.l, w.db.(att := w.db.att[id := D.Attempt(key, D.Start, None)]));
    Go(cfg, w, w, w1, OnDatabase(D.Begin(id, key)));
    var w2, r := Acquires(cfg, w, w1, id, proc, token);
    w', rec := World(w2.l, D.SetPhase(w2.db, id, D.Got(w2.db.d.manifest))), r;
    Go(cfg, w, w2, w', OnDatabase(D.ReadManifest(id)));
    StartsWell(w.db, id, key, w'.db);
  }

  /** It carries its write through to the point of releasing. */
  lemma Carries(cfg: L.Config, w0: World, w: World, id: nat, key: D.Key) returns (db: D.State, t: nat, dedup: bool)
    requires Leads(cfg, w0, w) && DI.Inv(w.db) && DD.Complete(w.db.d)
    requires D.Tenant(w.db.d, id) && id !in w.db.d.released
    requires id in w.db.att && w.db.att[id] == D.Attempt(key, D.Got(w.db.d.manifest), None)
    ensures Leads(cfg, w0, World(w.l, db)) && DP.Decided(w.db.d.landed, db.d, id, key, t, dedup)
    ensures id in db.att && db.att[id] == D.Attempt(key, D.Ready(t, dedup), None) && db.acks == w.db.acks
    ensures db.d.tenants == w.db.d.tenants && db.d.released == w.db.d.released
  {
    db, t, dedup := DP.GetsReady(w.db, id, key);
    var run, steps :| DP.Joins(run, steps, w.db, db, id, false);
    Lifts(cfg, w0, w.l, run, steps, id, |steps|);
  }

  lemma Writes(cfg: L.Config, w: World, id: nat, proc: L.Proc, key: D.Key, t1: L.Token, t2: L.Token)
      returns (w': World)
    requires LI.Inv(cfg, w.l) && Linked(w) && DI.Inv(w.db) && DD.Complete(w.db.d)
    requires id !in w.l.holders && id !in w.db.att && proc in w.l.clock && Free(cfg, w.l, proc)
    requires L.FreshToken(w.l.net.log, t1) && L.FreshToken(w.l.net.log, t2) && t1 != t2
    ensures Leads(cfg, w, w') && DP.Answered(w.db, w'.db, id, key)
  {
    var w1, rec := Enters(cfg, w, id, proc, key, t1);
    var db, t, dedup := Carries(cfg, w, w1, id, key);
    var w3 := Releases(cfg, w, World(w1.l, db), id, rec, t1, t2);
    w' := Acknowledges(cfg, w, w3, id, key, t, dedup);
    assert DP.Decided(w.db.d.landed, w'.db.d, id, key, t, dedup);
  }

  lemma Acknowledges(cfg: L.Config, w0: World, w: World, id: nat, key: D.Key, t: nat, dedup: bool)
      returns (w': World)
    requires Leads(cfg, w0, w) && id in w.l.holders && w.l.holders[id].phase == L.Done(L.ReleasedOk)
    requires id in w.db.att && w.db.att[id] == D.Attempt(key, D.Ready(t, dedup), None)
    ensures Leads(cfg, w0, w') && w'.db.d == w.db.d
    ensures w'.db.acks == w.db.acks + [D.Acknowledgement(id, key, t, dedup)]
  {
    var db := D.SetPhase(w.db, id, D.Acked).(acks := w.db.acks + [D.Acknowledgement(id, key, t, dedup)]);
    w' := World(w.l, db);
    Go(cfg, w0, w, w', OnDatabase(D.Ack(id)));
  }

  /**
   In every state of a sound joint run, if the lease's record is absent,
   released or safely expired on the caller's clock, a new attempt left alone
   takes the lease, writes or finds its key, releases and is acknowledged.
   */
  lemma JointWriteCanSucceed(cfg: L.Config, run: seq<World>, steps: seq<Step>, i: nat, id: nat, proc: L.Proc,
                             key: D.Key, t1: L.Token, t2: L.Token)
      returns (w': World)
    requires IsSoundRun(cfg, run, steps) && i < |run|
    requires id !in run[i].l.holders && id !in run[i].db.att && proc in run[i].l.clock && Free(cfg, run[i].l, proc)
    requires L.FreshToken(run[i].l.net.log, t1) && L.FreshToken(run[i].l.net.log, t2) && t1 != t2
    ensures Leads(cfg, run[i], w') && DP.Answered(run[i].db, w'.db, id, key)
  {
    SoundJointRunKeeps(cfg, run, steps, i);
    JointRunRefines(cfg, run, steps, i);
    ReachableInv(run[i].db);
    w' := Writes(cfg, run[i], id, proc, key, t1, t2);
  }

  /** A holder that is the last acquirer publishes a finished pass: the re-read manifest, less sources, plus merges. */
  lemma PassCanPublish(cfg: L.Config, w: World, id: nat) returns (w1: World, w2: World)
    requires Holds(w.l, id) && D.Tenant(w.db.d, id) && id !in w.db.att && w.db.d.manifest.Some?
    requires w.db.d.pass.Merging? && w.db.d.pass.lvl == 9 && w.db.d.pass.merged != {}
    ensures Next(cfg, w, w1, OnDatabase(D.PassSend(id))) && Next(cfg, w1, w2, OnDatabase(D.PassLand))
    ensures var p := w.db.d.pass;
            w2.db.d.manifest == Some((w.db.d.manifest.value - p.sources) + p.merged)
            && w2.db.d.pass == D.Published(p.sources)
  {
    var d, p := w.db.d, w.db.d.pass;
    var final := (d.manifest.value - p.sources) + p.merged;
    w1 := w.(db := w.db.(d := d.(pass := D.Sent(id, p.snap, p.merged, p.sources, p.kept, final, false))));
    var d1 := w1.db.d;
    w2 := w1.(db := w1.db.(d := d1.(manifest := Some(final), pass := D.Published(p.sources),
                                    keep := D.Survivors(final, d1.(pass := D.Published(p.sources))))));
  }
}
