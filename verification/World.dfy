/**
 The lease protocol and the database side by side.  Database takes the order of
 acquisitions and releases as given; here that order is read off the lease
 store's log, and every joint run is shown to be a run of Database.
 */
module World {
  import opened Wrappers
  import L = Lease
  import LI = LeaseInvariant
  import LS = LeaseSafety
  import LF = LeaseFence
  import D = Database
  import DI = DatabaseInvariant
  import DS = DatabaseSafety

  datatype World = World(l: L.State, db: D.State)

  datatype Step = OnLease(l: L.Step) | OnDatabase(db: D.Step)

  /** Who wrote the accepted writes of one kind, in order. */
  function Ids(log: seq<L.Event>, kind: L.Kind): seq<nat> {
    if log == [] then []
    else Ids(log[..|log| - 1], kind) + (if log[|log| - 1].kind == kind then [log[|log| - 1].id] else [])
  }

  /** The attempt has nothing left to do but release. */
  ghost predicate Finished(db: D.State, id: nat) {
    id in db.att ==> db.att[id].phase.Ready? || db.att[id].phase.Failed?
  }

  ghost predicate LeaseMove(cfg: L.Config, w: World, w': World, step: L.Step) {
    && L.NextStep(cfg, w.l, w'.l, step)
    && (step.SendRelease? ==> Finished(w.db, step.id))
    && w'.db == w.db.(d := w.db.d.(tenants := Ids(w'.l.net.log, L.Acquire), released := Ids(w'.l.net.log, L.Release)))
  }

  ghost predicate Holds(l: L.State, id: nat) {
    id in l.holders && l.holders[id].phase.Holding?
  }

  /**
   What the code checks with its own lease before each database step: a new
   attempt has a new ID, the first read follows the acquisition, and an
   acknowledgement follows a release that returned nil.
   */
  ghost predicate DatabaseMove(w: World, w': World, step: D.Step) {
    && w'.l == w.l
    && match step
       case Grant(_) => false
       case Free(_) => false
       case Begin(id, key) =>
         && id !in w.l.holders && id !in w.db.att
         && w'.db == w.db.(att := w.db.att[id := D.Attempt(key, D.Start, None)])
       case ReadManifest(id) => Holds(w.l, id) && D.FirstRead(w.db, w'.db, id)
       case PassSend(id) => Holds(w.l, id) && D.SendDelta(w.db, w'.db, id)
       case Ack(id) =>
         && id in w.l.holders && w.l.holders[id].phase == L.Done(L.ReleasedOk)
         && D.Acknowledge(w.db, w'.db, id)
       case _ => D.NextStep(w.db, w'.db, step)
  }

  ghost predicate Next(cfg: L.Config, w: World, w': World, step: Step) {
    match step
    case OnLease(ls) => LeaseMove(cfg, w, w', ls)
    case OnDatabase(ds) => DatabaseMove(w, w', ds)
  }

  ghost predicate IsRun(cfg: L.Config, run: seq<World>, steps: seq<Step>) {
    && |run| == |steps| + 1 && L.Init(run[0].l) && D.Init(run[0].db)
    && forall i :: 0 <= i < |steps| ==> Next(cfg, run[i], run[i + 1], steps[i])
  }

  // ----------------------------------------------------- the log as an order

  lemma {:induction false} IdsMember(log: seq<L.Event>, kind: L.Kind, id: nat)
    ensures id in Ids(log, kind) <==> exists k :: 0 <= k < |log| && log[k].kind == kind && log[k].id == id
  {
    if log != [] {
      var n := |log| - 1;
      IdsMember(log[..n], kind, id);
      assert forall k :: 0 <= k < n ==> log[..n][k] == log[k];
      assert id in Ids(log, kind) ==> id in Ids(log[..n], kind) || (log[n].kind == kind && log[n].id == id);
    }
  }

  /** The last acquisition in the order is the one whose tenure the last write belongs to. */
  lemma {:induction false} LastTenant(log: seq<L.Event>)
    requires LI.LogOk(log) && log != [] && !log[|log| - 1].kind.Release?
    ensures var ids := Ids(log, L.Acquire); ids != [] && ids[|ids| - 1] == log[|log| - 1].id
    decreases |log|
  {
    var n := |log| - 1;
    assert LI.EventOk(log, n);
    if !log[n].kind.Acquire? {
      LS.LogPrefix(log, n);
      LastTenant(log[..n]);
    }
  }

  /** A holder whose last write is not a release has released nothing. */
  lemma NotReleased(log: seq<L.Event>, id: nat)
    requires LI.LogOk(log) && log != [] && log[|log| - 1].id == id && !log[|log| - 1].kind.Release?
    ensures id !in Ids(log, L.Release)
  {
    IdsMember(log, L.Release, id);
    var n := |log| - 1;
    var a := LS.TenureOf(log, n);
    assert LI.EventOk(log, a);
    assert forall k :: 0 <= k < a ==> log[..a][k] == log[k];
  }

  // ------------------------------------------------------------- the link

  ghost predicate ReleaseInOrder(db: D.State, req: L.Request) {
    req.kind.Release? && req.id in db.att ==> Settled(db.att[req.id].phase)
  }

  ghost predicate Linked(w: World) {
    && w.db.d.tenants == Ids(w.l.net.log, L.Acquire) && w.db.d.released == Ids(w.l.net.log, L.Release)
    && (forall req :: req in w.l.net.wire ==> ReleaseInOrder(w.db, req))
    && forall id :: id in w.db.att && w.db.att[id].phase.Acked? ==> id in w.db.d.released
  }

  lemma HolderIsTenant(cfg: L.Config, w: World, id: nat)
    requires LI.Inv(cfg, w.l) && Linked(w) && Holds(w.l, id)
    ensures id in w.db.d.tenants
  {
    var k := LI.HeldWrite(cfg, w.l, id);
    var a := LS.TenureOf(w.l.net.log, k);
    IdsMember(w.l.net.log, L.Acquire, id);
  }

  lemma ReleaserReleased(cfg: L.Config, w: World, id: nat)
    requires LI.Inv(cfg, w.l) && Linked(w) && id in w.l.holders && w.l.holders[id].phase == L.Done(L.ReleasedOk)
    ensures id in w.db.d.released
  {
    assert LI.HolderOk(cfg, w.l.net, id, w.l.holders[id]);
    IdsMember(w.l.net.log, L.Release, id);
  }

  lemma NewcomerIsNew(cfg: L.Config, w: World, id: nat)
    requires LI.Inv(cfg, w.l) && Linked(w) && id !in w.l.holders
    ensures id !in w.db.d.tenants && forall req :: req in w.l.net.wire ==> req.id != id
  {
    IdsMember(w.l.net.log, L.Acquire, id);
    forall k | 0 <= k < |w.l.net.log| ensures w.l.net.log[k].id != id {
      assert LI.Capped(cfg, w.l.holders, w.l.net.log[k].kind, w.l.net.log[k].id, w.l.net.log[k].rec);
    }
    forall req | req in w.l.net.wire ensures req.id != id {
      assert LI.Capped(cfg, w.l.holders, req.kind, req.id, req.rec);
    }
  }

  /** Each guard the code evaluates on its own lease implies the guard Database asks for. */
  lemma DatabaseMoveIsStep(cfg: L.Config, w: World, w': World, step: D.Step)
    requires LI.Inv(cfg, w.l) && Linked(w) && DatabaseMove(w, w', step)
    ensures D.NextStep(w.db, w'.db, step)
  {
    match step
    case Begin(id, key) => NewcomerIsNew(cfg, w, id);
    case ReadManifest(id) => HolderIsTenant(cfg, w, id);
    case PassSend(id) => HolderIsTenant(cfg, w, id);
    case Ack(id) => ReleaserReleased(cfg, w, id);
    case _ =>
  }

  predicate Settled(phase: D.Phase) {
    phase.Ready? || phase.Failed? || phase.Acked?
  }

  /** What a database step leaves as it was: the lease order, settled attempts, and who is acknowledged. */
  ghost predicate Settles(db: D.State, db': D.State, step: D.Step) {
    && db'.d.tenants == db.d.tenants && db'.d.released == db.d.released && db.acks <= db'.acks
    && (forall id :: id in db.att && Settled(db.att[id].phase) ==> id in db'.att && Settled(db'.att[id].phase))
    && forall id :: id in db'.att && Settled(db'.att[id].phase) ==>
         id in db.att && (db'.att[id].phase.Acked? ==> db.att[id].phase.Acked? || step == D.Ack(id))
  }

  lemma PassStepSettles(db: D.State, db': D.State, step: D.Step)
    requires D.NextStep(db, db', step) && DS.IsPassStep(step)
    ensures Settles(db, db', step)
  {
    assert db'.att == db.att;
  }

  lemma StepSettles(db: D.State, db': D.State, step: D.Step)
    requires D.NextStep(db, db', step) && !step.Grant? && !step.Free?
    ensures Settles(db, db', step)
  {
    if DS.IsPassStep(step) {
      PassStepSettles(db, db', step);
    } else if !step.Begin? {
      assert db'.att == db.att[step.id := db'.att[step.id]];
    }
  }

  lemma DatabaseMoveLinks(cfg: L.Config, w: World, w': World, step: D.Step)
    requires LI.Inv(cfg, w.l) && Linked(w) && DatabaseMove(w, w', step)
    ensures Linked(w') && w.db.acks <= w'.db.acks
  {
    DatabaseMoveIsStep(cfg, w, w', step);
    StepSettles(w.db, w'.db, step);
    if step.Begin? {
      NewcomerIsNew(cfg, w, step.id);
    }
    forall req | req in w'.l.net.wire ensures ReleaseInOrder(w'.db, req) {
      assert ReleaseInOrder(w.db, req);
    }
  }

  /** The database step that the store's acceptance of a request amounts to. */
  ghost predicate Observed(db: D.State, db': D.State) {
    db' == db || exists id :: D.LeaseStep(db, db', D.Grant(id)) || D.LeaseStep(db, db', D.Free(id))
  }

  lemma AcceptIsObserved(cfg: L.Config, w: World, w': World, req: L.Request, token: L.Token)
    requires LI.Inv(cfg, w.l) && Linked(w) && LeaseMove(cfg, w, w', L.Land(req, token))
    requires L.Matches(w.l.net.store, req.expected)
    ensures Observed(w.db, w'.db)
  {
    var log, log' := w.l.net.log, w'.l.net.log;
    assert log'[..|log|] == log;
    assert LI.RequestOk(log, req) && ReleaseInOrder(w.db, req);
    if req.kind.Acquire? {
      IdsMember(log, L.Acquire, req.id);
      assert D.LeaseStep(w.db, w'.db, D.Grant(req.id));
    } else {
      assert log != [] && log[|log| - 1].id == req.id && !log[|log| - 1].kind.Release?;
      if req.kind.Release? {
        LastTenant(log);
        NotReleased(log, req.id);
        assert D.LeaseStep(w.db, w'.db, D.Free(req.id));
      } else {
        assert w'.db == w.db;
      }
    }
  }

  lemma LeaseMoveIsObserved(cfg: L.Config, w: World, w': World, step: L.Step)
    requires LI.Inv(cfg, w.l) && Linked(w) && LeaseMove(cfg, w, w', step)
    ensures Observed(w.db, w'.db)
  {
    if step.Land? && L.Matches(w.l.net.store, step.req.expected) {
      AcceptIsObserved(cfg, w, w', step.req, step.token);
    } else {
      assert w'.l.net.log == w.l.net.log;
    }
  }

  /** The store's order only grows, and no other lease step changes it. */
  lemma LogGrows(cfg: L.Config, l: L.State, l': L.State, step: L.Step, id: nat)
    requires L.NextStep(cfg, l, l', step) && id in Ids(l.net.log, L.Release)
    ensures id in Ids(l'.net.log, L.Release)
  {
    if l'.net.log != l.net.log {
      assert l'.net.log[..|l.net.log|] == l.net.log;
    }
  }

  lemma LeaseMoveLinks(cfg: L.Config, w: World, w': World, step: L.Step)
    requires LI.Inv(cfg, w.l) && Linked(w) && LeaseMove(cfg, w, w', step)
    ensures Linked(w')
  {
    forall req | req in w'.l.net.wire ensures ReleaseInOrder(w'.db, req) {
      if req in w.l.net.wire {
        assert ReleaseInOrder(w.db, req);
      } else {
        assert !step.SendRelease? ==> !req.kind.Release?;
      }
    }
    forall id | id in w'.db.att && w'.db.att[id].phase.Acked? ensures id in w'.db.d.released {
      LogGrows(cfg, w.l, w'.l, step, id);
    }
  }

  // ------------------------------------------------------------ refinement

  /** db is the last state of some run of Database. */
  ghost predicate Reachable(db: D.State) {
    exists run, steps :: DS.IsRun(run, steps) && run[|run| - 1] == db
  }

  lemma Extend(db: D.State, db': D.State, step: D.Step)
    requires Reachable(db) && D.NextStep(db, db', step)
    ensures Reachable(db')
  {
    var run, steps :| DS.IsRun(run, steps) && run[|run| - 1] == db;
    var run', steps' := run + [db'], steps + [step];
    forall i | 0 <= i < |steps'|
      ensures D.NextStep(run'[i], run'[i + 1], steps'[i])
    {
      if i < |steps| {
        assert D.NextStep(run[i], run[i + 1], steps[i]);
      }
    }
    assert DS.IsRun(run', steps') && run'[|run'| - 1] == db';
  }

  lemma MoveRefines(cfg: L.Config, w: World, w': World, step: Step)
    requires LI.Inv(cfg, w.l) && Linked(w) && Reachable(w.db) && Next(cfg, w, w', step)
    ensures LI.Inv(cfg, w'.l) && Linked(w') && Reachable(w'.db)
  {
    match step
    case OnDatabase(ds) =>
      DatabaseMoveIsStep(cfg, w, w', ds);
      DatabaseMoveLinks(cfg, w, w', ds);
      Extend(w.db, w'.db, ds);
    case OnLease(ls) =>
      LI.NextKeeps(cfg, w.l, w'.l, ls);
      LeaseMoveLinks(cfg, w, w', ls);
      LeaseMoveIsObserved(cfg, w, w', ls);
      if w'.db != w.db {
        var id :| D.LeaseStep(w.db, w'.db, D.Grant(id)) || D.LeaseStep(w.db, w'.db, D.Free(id));
        var ds := if D.LeaseStep(w.db, w'.db, D.Grant(id)) then D.Grant(id) else D.Free(id);
        Extend(w.db, w'.db, ds);
      }
  }

  /**
   The CAS protocol discharges the lease order Database assumes: every state of
   a joint run is a state of a run of Database, with no clock hypothesis.
   */
  lemma {:induction false} JointRunRefines(cfg: L.Config, run: seq<World>, steps: seq<Step>, i: nat)
    requires IsRun(cfg, run, steps) && i < |run|
    ensures LI.Inv(cfg, run[i].l) && Linked(run[i]) && Reachable(run[i].db)
  {
    if i == 0 {
      assert DS.IsRun([run[0].db], []);
    } else {
      JointRunRefines(cfg, run, steps, i - 1);
      MoveRefines(cfg, run[i - 1], run[i], steps[i - 1]);
    }
  }

  // --------------------------------------------------------- joint theorems

  lemma MoveGrowsAcks(cfg: L.Config, w: World, w': World, step: Step)
    requires LI.Inv(cfg, w.l) && Linked(w) && Next(cfg, w, w', step)
    ensures w.db.acks <= w'.db.acks
  {
    if step.OnDatabase? {
      DatabaseMoveLinks(cfg, w, w', step.db);
    }
  }

  lemma AcksGrowOnce(cfg: L.Config, run: seq<World>, steps: seq<Step>, i: nat)
    requires IsRun(cfg, run, steps) && i < |steps|
    ensures run[i].db.acks <= run[i + 1].db.acks
  {
    JointRunRefines(cfg, run, steps, i);
    MoveGrowsAcks(cfg, run[i], run[i + 1], steps[i]);
  }

  lemma {:induction false} PrefixChain(run: seq<World>, i: nat, j: nat)
    requires i <= j < |run| && forall k :: i <= k < j ==> run[k].db.acks <= run[k + 1].db.acks
    ensures run[i].db.acks <= run[j].db.acks
    decreases j
  {
    if i < j {
      PrefixChain(run, i, j - 1);
    }
  }

  lemma AcksGrow(cfg: L.Config, run: seq<World>, steps: seq<Step>, i: nat, j: nat)
    requires IsRun(cfg, run, steps) && i <= j < |run|
    ensures run[i].db.acks <= run[j].db.acks
  {
    forall k: nat | k < j ensures run[k].db.acks <= run[k + 1].db.acks {
      AcksGrowOnce(cfg, run, steps, k);
    }
    PrefixChain(run, i, j);
  }

  lemma ReachableInv(db: D.State)
    requires Reachable(db)
    ensures DI.Inv(db)
  {
    var run, steps :| DS.IsRun(run, steps) && run[|run| - 1] == db;
    DS.RunKeeps(run, steps, |run| - 1);
  }

  /** key's mutation sits at txid and nowhere else, and every acknowledgement of the key says so. */
  ghost predicate OnceAt(db: D.State, key: D.Key, txid: nat) {
    && 1 <= txid <= |db.d.landed| && db.d.landed[txid - 1].key == key
    && (forall k :: 0 <= k < |db.d.landed| && db.d.landed[k].key == key ==> k == txid - 1)
    && forall b :: 0 <= b < |db.acks| && db.acks[b].key == key ==> db.acks[b].txid == txid
  }

  lemma ReachableOnce(db: D.State, a: nat)
    requires Reachable(db) && a < |db.acks|
    ensures OnceAt(db, db.acks[a].key, db.acks[a].txid)
  {
    var run, steps :| DS.IsRun(run, steps) && run[|run| - 1] == db;
    DS.ExactlyOnce(run, steps, |run| - 1);
  }

  /**
   Over every joint run, whatever the clocks, the repairs and the passes do: a
   key acknowledged at state i has, at every later state j, landed exactly once,
   at the TXID that every acknowledgement of the key names.
   */
  lemma JointExactlyOnce(cfg: L.Config, run: seq<World>, steps: seq<Step>, i: nat, j: nat, a: nat)
    requires IsRun(cfg, run, steps) && i <= j < |run| && a < |run[i].db.acks|
    ensures OnceAt(run[j].db, run[i].db.acks[a].key, run[i].db.acks[a].txid)
  {
    AcksGrow(cfg, run, steps, i, j);
    JointRunRefines(cfg, run, steps, j);
    ReachableOnce(run[j].db, a);
  }

  /** A joint run seen from the lease: database steps are ticks that move no clock. */
  lemma LeaseRun(cfg: L.Config, run: seq<World>, steps: seq<Step>) returns (lrun: seq<L.State>, lsteps: seq<L.Step>)
    requires IsRun(cfg, run, steps)
    ensures LS.IsRun(cfg, lrun, lsteps) && |lrun| == |run| && forall i :: 0 <= i < |run| ==> lrun[i] == run[i].l
  {
    lrun := seq(|run|, i requires 0 <= i < |run| => run[i].l);
    lsteps := seq(|steps|, i requires 0 <= i < |steps| => if steps[i].OnLease? then steps[i].l else L.Tick);
    forall i | 0 <= i < |lsteps| ensures L.NextStep(cfg, lrun[i], lrun[i + 1], lsteps[i]) {
      assert Next(cfg, run[i], run[i + 1], steps[i]);
    }
  }

  /**
   An acknowledgement is sent only after a tenure of the lease that nobody
   interrupted between the acquisition and the release.
   */
  lemma AckHadTheLease(cfg: L.Config, run: seq<World>, steps: seq<Step>, i: nat, id: nat)
    requires IsRun(cfg, run, steps) && i < |steps| && steps[i] == OnDatabase(D.Ack(id))
    ensures exists a, b :: a < b && LS.Tenure(run[i].l.net.log, id, a, b) && run[i].l.net.log[b].kind.Release?
  {
    var lrun, lsteps := LeaseRun(cfg, run, steps);
    assert Next(cfg, run[i], run[i + 1], steps[i]);
    LS.ReleaseWasUninterrupted(cfg, lrun, lsteps, i, id);
  }

  ghost predicate ClocksMonotone(run: seq<World>) {
    forall i :: 0 <= i < |run| - 1 ==> LF.Monotone(run[i].l, run[i + 1].l)
  }

  /**
   The fence meets the landing rule: while leaseStale returns false, the holder
   is still the last acquirer, so a PUT of its own may land.
   */
  lemma UnstaleSenderIsTenant(cfg: L.Config, run: seq<World>, steps: seq<Step>, i: nat, id: nat)
    requires IsRun(cfg, run, steps) && ClocksMonotone(run) && i < |run| && LF.Synced(cfg, run[i].l)
    requires Holds(run[i].l, id) && run[i].l.holders[id].proc in run[i].l.clock && !LF.LeaseStale(cfg, run[i].l, id)
    ensures D.Tenant(run[i].db.d, id)
  {
    var lrun, lsteps := LeaseRun(cfg, run, steps);
    JointRunRefines(cfg, run, steps, i);
    LF.RunKeepsClocks(cfg, lrun, lsteps, i);
    var k := LI.HeldWrite(cfg, run[i].l, id);
    assert LI.HolderOk(cfg, run[i].l.net, id, run[i].l.holders[id]);
    LF.FenceHolds(cfg, run[i].l, id, k);
    LastTenant(run[i].l.net.log);
  }
}
