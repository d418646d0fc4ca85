/** Durability over joint runs of the lease and the database. */
module WorldDurability {
  import DD = DatabaseDurability
  import DK = DatabaseStacked
  import DO = DatabaseOrder
  import opened World

  /** Every publish of the run leaves all it covers, and no merge has a hole. */
  ghost predicate IsSoundRun(cfg: L.Config, run: seq<World>, steps: seq<Step>) {
    && IsRun(cfg, run, steps)
    && forall i :: 0 <= i < |steps| && steps[i].OnDatabase? ==> DD.Sound(run[i].db, run[i + 1].db, steps[i].db)
  }

  lemma MoveComplete(cfg: L.Config, w: World, w': World, step: Step)
    requires LI.Inv(cfg, w.l) && Linked(w) && Reachable(w.db) && DD.Complete(w.db.d) && Next(cfg, w, w', step)
    requires step.OnDatabase? ==> DD.Sound(w.db, w'.db, step.db)
    ensures DD.Complete(w'.db.d)
  {
    if step.OnDatabase? {
      ReachableInv(w.db);
      DatabaseMoveIsStep(cfg, w, w', step.db);
      DD.NextComplete(w.db, w'.db, step.db);
    }
  }

  lemma CompleteNext(cfg: L.Config, run: seq<World>, steps: seq<Step>, i: nat)
    requires IsSoundRun(cfg, run, steps) && i < |steps| && DD.Complete(run[i].db.d)
    ensures DD.Complete(run[i + 1].db.d)
  {
    JointRunRefines(cfg, run, steps, i);
    MoveComplete(cfg, run[i], run[i + 1], steps[i]);
  }

  lemma {:induction false} SoundJointRunKeeps(cfg: L.Config, run: seq<World>, steps: seq<Step>, i: nat)
    requires IsSoundRun(cfg, run, steps) && i < |run|
    ensures DD.Complete(run[i].db.d)
  {
    if i > 0 {
      SoundJointRunKeeps(cfg, run, steps, i - 1);
      CompleteNext(cfg, run, steps, i - 1);
    }
  }

  /**
   Over every sound joint run a write acknowledged at state i is, at every later
   state j, in the store and in a listed file, with its own mutation.
   */
  lemma AcknowledgedForEver(cfg: L.Config, run: seq<World>, steps: seq<Step>, i: nat, j: nat, a: nat)
    requires IsSoundRun(cfg, run, steps) && i <= j < |run| && a < |run[i].db.acks|
    ensures DD.Durably(run[j].db.d, run[i].db.acks[a].txid, run[i].db.acks[a].key)
  {
    AcksGrow(cfg, run, steps, i, j);
    SoundJointRunKeeps(cfg, run, steps, j);
    JointRunRefines(cfg, run, steps, j);
    ReachableInv(run[j].db);
    var ack := run[j].db.acks[a];
    assert DI.AckOk(run[j].db.d, ack);
    DD.LandedIsDurable(run[j].db.d, ack.txid, ack.key);
  }

  // ---------------------------------------------------------- regular runs

  ghost predicate IsRegularRun(cfg: L.Config, threshold: nat, run: seq<World>, steps: seq<Step>) {
    && IsRun(cfg, run, steps)
    && forall i :: 0 <= i < |steps| && steps[i].OnDatabase? ==> DO.Regular(threshold, run[i].db, steps[i].db)
  }

  ghost predicate Good(threshold: nat, d: D.Durable) {
    DD.Complete(d) && DK.PassStacked(d.pass) && DO.Ordered(threshold, d)
  }

  /** In a state in order, a regular step of the database is sound and leaves it in order. */
  lemma RegularStep(threshold: nat, db: D.State, db': D.State, step: D.Step)
    requires threshold >= 1 && DI.Inv(db) && Good(threshold, db.d)
    requires D.NextStep(db, db', step) && DO.Regular(threshold, db, step)
    ensures DD.Sound(db, db', step) && Good(threshold, db'.d)
  {
    DO.NextOrdered(threshold, db, db', step);
    assert DK.StartsStacked(db, step) by {
      assert step.PassStart? ==> D.PassStartStep(db, db');
    }
    DK.NextStacked(db, db', step);
    DD.NextComplete(db, db', step);
  }

  lemma RegularMove(cfg: L.Config, threshold: nat, w: World, w': World, step: Step)
    requires threshold >= 1 && LI.Inv(cfg, w.l) && Linked(w) && Reachable(w.db) && Good(threshold, w.db.d)
    requires Next(cfg, w, w', step) && (step.OnDatabase? ==> DO.Regular(threshold, w.db, step.db))
    ensures Good(threshold, w'.db.d) && (step.OnDatabase? ==> DD.Sound(w.db, w'.db, step.db))
  {
    if step.OnDatabase? {
      ReachableInv(w.db);
      DatabaseMoveIsStep(cfg, w, w', step.db);
      RegularStep(threshold, w.db, w'.db, step.db);
    }
  }

  lemma {:induction false} RegularJointRunKeeps(cfg: L.Config, threshold: nat, run: seq<World>, steps: seq<Step>,
                                                i: nat)
    requires threshold >= 1 && IsRegularRun(cfg, threshold, run, steps) && i < |run|
    ensures Good(threshold, run[i].db.d)
  {
    if i > 0 {
      RegularJointRunKeeps(cfg, threshold, run, steps, i - 1);
      JointRunRefines(cfg, run, steps, i - 1);
      RegularMove(cfg, threshold, run[i - 1], run[i], steps[i - 1]);
    }
  }

  /**
   A regular joint run is sound by itself: an acknowledged write of it stays
   durable for ever, whatever crashes, lost replies, late PUTs, orderly repairs
   and compaction passes come after.
   */
  lemma RegularRunIsSafe(cfg: L.Config, threshold: nat, run: seq<World>, steps: seq<Step>)
    requires threshold >= 1 && IsRegularRun(cfg, threshold, run, steps)
    ensures IsSoundRun(cfg, run, steps)
    ensures forall i, j, a :: 0 <= i <= j < |run| && 0 <= a < |run[i].db.acks| ==>
              DD.Durably(run[j].db.d, run[i].db.acks[a].txid, run[i].db.acks[a].key)
  {
    forall i | 0 <= i < |steps| && steps[i].OnDatabase?
      ensures DD.Sound(run[i].db, run[i + 1].db, steps[i].db)
    {
      RegularJointRunKeeps(cfg, threshold, run, steps, i);
      JointRunRefines(cfg, run, steps, i);
      RegularMove(cfg, threshold, run[i], run[i + 1], steps[i]);
    }
    forall i, j, a | 0 <= i <= j < |run| && 0 <= a < |run[i].db.acks|
      ensures DD.Durably(run[j].db.d, run[i].db.acks[a].txid, run[i].db.acks[a].key)
    {
      AcknowledgedForEver(cfg, run, steps, i, j, a);
    }
  }
}
