/** What holds over every run of Database: at most once, one order, no forked view. */
module DatabaseSafety {
  import opened Wrappers
  import opened Levels
  import opened Database
  import opened DatabaseInvariant
  import opened DatabaseSteps
  import opened DatabaseLandings
  import opened DatabaseCompaction

  lemma InitKeeps(s: State)
    requires Init(s)
    ensures Inv(s)
  {
  }

  lemma AttemptStepKeeps(s: State, s': State, step: Step)
    requires Inv(s) && NextStep(s, s', step)
    requires step.ReadManifest? || step.Probe? || step.ScanLevel? || step.SendRebuilt? || step.Open? || step.Hit?
          || step.Miss? || step.ConfirmFlush? || step.SendIndex? || step.ConfirmPut? || step.GiveUpMigrate?
          || step.DedupRead? || step.Fail?
    ensures Inv(s')
  {
    match step
    case ReadManifest(id) => EndsKeep(s, s', id);
    case Probe(id) => ProbeKeeps(s, s', id);
    case ScanLevel(id) => ScanKeeps(s, s', id);
    case SendRebuilt(id) => ScanKeeps(s, s', id);
    case Open(id, view) => OpenKeeps(s, s', id, view);
    case Hit(id, txid) => LookupKeeps(s, s', id, txid);
    case Miss(id) => LookupKeeps(s, s', id, 0);
    case ConfirmFlush(id) => ConfirmFlushKeeps(s, s', id);
    case SendIndex(id) => SendIndexKeeps(s, s', id);
    case ConfirmPut(id) => ConfirmPutKeeps(s, s', id);
    case GiveUpMigrate(id) => GiveUpMigrateKeeps(s, s', id);
    case DedupRead(id) => DedupKeeps(s, s', id);
    case Fail(id) => EndsKeep(s, s', id);
  }

  /** Every step keeps the invariant. */
  lemma NextKeeps(s: State, s': State, step: Step)
    requires Inv(s) && NextStep(s, s', step)
    ensures Inv(s')
  {
    if IsPassStep(step) {
      PassStepKeeps(s, s', step);
    } else if step.Grant? {
      GrantKeeps(s, s', step.id);
    } else if step.Free? {
      FreeKeeps(s, s', step.id);
    } else if step.Begin? {
      BeginKeeps(s, s', step.id, step.key);
    } else if step.Land? {
      LandKeeps(s, s', step.id);
    } else if step.Ack? {
      AckKeeps(s, s', step.id);
    } else {
      AttemptStepKeeps(s, s', step);
    }
  }

  predicate IsPassStep(step: Step) {
    || step.PassStart? || step.PassMerge? || step.PassSkip? || step.PassSend? || step.PassLand? || step.DeleteOne?
    || step.GcStart? || step.PassAbort? || step.PassAbandon? || step.PassDrop? || step.PassEnd?
  }

  lemma PassStepKeeps(s: State, s': State, step: Step)
    requires Inv(s) && NextStep(s, s', step) && IsPassStep(step)
    ensures Inv(s')
  {
    match step
    case PassStart => PassStartKeeps(s, s');
    case PassMerge(info, data) => PassMergeKeeps(s, s', info, data);
    case PassSkip => PassSkipKeeps(s, s');
    case PassSend(id) => PassSendKeeps(s, s', id);
    case PassLand => PassLandKeeps(s, s');
    case DeleteOne(file) => DeleteOneKeeps(s, s', file);
    case GcStart => GcStartKeeps(s, s');
    case PassAbort => PassStopKeeps(s, s', step);
    case PassAbandon => PassStopKeeps(s, s', step);
    case PassDrop => PassStopKeeps(s, s', step);
    case PassEnd => PassStopKeeps(s, s', step);
  }

  // --------------------------------------------------------------------- runs

  ghost predicate IsRun(run: seq<State>, steps: seq<Step>) {
    && |run| == |steps| + 1 && Init(run[0])
    && forall i :: 0 <= i < |steps| ==> NextStep(run[i], run[i + 1], steps[i])
  }

  lemma {:induction false} RunKeeps(run: seq<State>, steps: seq<Step>, i: nat)
    requires IsRun(run, steps) && i < |run|
    ensures Inv(run[i])
  {
    if i == 0 {
      InitKeeps(run[0]);
    } else {
      RunKeeps(run, steps, i - 1);
      NextKeeps(run[i - 1], run[i], steps[i - 1]);
    }
  }

  /** Acknowledgements are never withdrawn, and landed flushes and acquisitions never change. */
  lemma {:induction false} HistoryGrows(run: seq<State>, steps: seq<Step>, i: nat, j: nat)
    requires IsRun(run, steps) && i <= j < |run|
    ensures run[i].acks <= run[j].acks && run[i].d.landed <= run[j].d.landed && run[i].d.tenants <= run[j].d.tenants
    decreases j
  {
    if i < j {
      HistoryGrows(run, steps, i, j - 1);
      assert NextStep(run[j - 1], run[j], steps[j - 1]);
    }
  }

  /**
   Each idempotency key's mutation lands at most once, and every
   acknowledgement for a key names the one TXID where it sits.
   */
  lemma ExactlyOnce(run: seq<State>, steps: seq<Step>, i: nat)
    requires IsRun(run, steps) && i < |run|
    ensures var landed := run[i].d.landed;
            var acks := run[i].acks;
            && (forall a, b :: 0 <= a < b < |landed| ==> landed[a].key != landed[b].key)
            && (forall a :: 0 <= a < |acks| ==>
                  1 <= acks[a].txid <= |landed| && landed[acks[a].txid - 1].key == acks[a].key)
            && (forall a, b :: 0 <= a < |acks| && 0 <= b < |acks| && acks[a].key == acks[b].key
                  ==> acks[a].txid == acks[b].txid)
  {
    RunKeeps(run, steps, i);
    var s := run[i];
    forall a | 0 <= a < |s.acks|
      ensures LandedAs(s.d, s.acks[a].txid, s.acks[a].key)
    {
      assert AckOk(s.d, s.acks[a]);
    }
  }

  /** Landed TXIDs are gap-free 1..n and the manifest misses at most the last one. */
  lemma GapFree(run: seq<State>, steps: seq<Step>, i: nat)
    requires IsRun(run, steps) && i < |run|
    ensures var d := run[i].d;
            && (forall k :: 0 <= k < |d.landed| ==> d.landed[k].txid == k + 1)
            && (d.manifest.Some? ==> Top(d.manifest.value) <= |d.landed| <= Top(d.manifest.value) + 1)
  {
    RunKeeps(run, steps, i);
  }

  // ------------------------------------------------------- what a flush saw

  /** The attempt has read every landed mutation, and nothing else, at its TXID. */
  ghost predicate SawAll(s: State, id: Id) {
    && In(s, id) && s.att[id].phase.Opened?
    && var p := s.att[id].phase;
    && p.pos == |s.d.landed| && (forall t :: t in p.view <==> 1 <= t <= p.pos)
    && forall k :: 0 <= k < |s.d.landed| ==> p.view[k + 1] == s.d.landed[k].key
  }

  /** A tenant that decides to write has seen everything landed. */
  lemma MissSawAll(run: seq<State>, steps: seq<Step>, i: nat, id: Id)
    requires IsRun(run, steps) && i < |steps| && steps[i] == Miss(id) && Tenant(run[i].d, id)
    ensures SawAll(run[i], id)
  {
    RunKeeps(run, steps, i);
    var s := run[i];
    assert MissStep(s, run[i + 1], id);
    assert AttemptOk(s.d, id, s.att[id]);
    var p := s.att[id].phase;
    assert forall t :: t in p.view ==> LandedAs(s.d, t, p.view[t]);
  }

  /** A flush that can land was sent by an earlier decision to write. */
  lemma {:induction false} FlushWasDecided(run: seq<State>, steps: seq<Step>, j: nat, id: Id) returns (i: nat)
    requires IsRun(run, steps) && j < |run| && In(run[j], id)
    requires run[j].att[id].pending.Some? && run[j].att[id].pending.value.PutFile?
    ensures i < j && steps[i] == Miss(id) && In(run[i], id) && run[i].att[id].phase.Opened?
    ensures run[j].att[id].pending == Some(PutFile(run[i].att[id].phase.pos + 1, run[i].att[id].key))
  {
    assert NextStep(run[j - 1], run[j], steps[j - 1]);
    if steps[j - 1] == Miss(id) {
      i := j - 1;
    } else {
      SamePending(run[j - 1], run[j], steps[j - 1], id);
      i := FlushWasDecided(run, steps, j - 1, id);
    }
  }

  lemma SamePending(s: State, s': State, step: Step, id: Id)
    requires NextStep(s, s', step) && step != Miss(id)
    requires In(s', id) && s'.att[id].pending.Some? && s'.att[id].pending.value.PutFile?
    ensures In(s, id) && s.att[id].pending == s'.att[id].pending
  {
  }

  /** The last acquirer was the last acquirer ever since it acquired. */
  lemma WasTenant(run: seq<State>, steps: seq<Step>, i: nat, j: nat, id: Id)
    requires IsRun(run, steps) && i <= j < |run| && id in run[i].d.tenants && Tenant(run[j].d, id)
    ensures Tenant(run[i].d, id)
  {
    RunKeeps(run, steps, j);
    HistoryGrows(run, steps, i, j);
    var a, b := run[i].d.tenants, run[j].d.tenants;
    var k :| 0 <= k < |a| && a[k] == id;
    assert b[k] == id;
  }

  /**
   Every flush that lands was decided on a view of exactly the TXIDs landed
   before it, and lands right after them under a key that had not landed.
   */
  lemma FlushSawEverything(run: seq<State>, steps: seq<Step>, j: nat, id: Id)
    requires IsRun(run, steps) && j < |steps| && steps[j] == Land(id)
    requires In(run[j], id) && run[j].att[id].pending.Some? && run[j].att[id].pending.value.PutFile?
    ensures exists i :: 0 <= i < j && steps[i] == Miss(id) && SawAll(run[i], id) && run[i].d.landed == run[j].d.landed
    ensures var put := run[j].att[id].pending.value;
            && put.txid == |run[j].d.landed| + 1 && KeyIsNew(run[j].d, put.key)
            && File(0, put.txid, put.txid) !in run[j].d.content
  {
    RunKeeps(run, steps, j);
    assert LandStep(run[j], run[j + 1], id);
    assert AttemptOk(run[j].d, id, run[j].att[id]);
    var i := FlushWasDecided(run, steps, j, id);
    RunKeeps(run, steps, i);
    assert AttemptOk(run[i].d, id, run[i].att[id]);
    WasTenant(run, steps, i, j, id);
    MissSawAll(run, steps, i, id);
    HistoryGrows(run, steps, i, j);
  }

  /** New TXIDs are acknowledged in the order in which their leases were released. */
  lemma AcksFollowReleases(run: seq<State>, steps: seq<Step>, i: nat, a: nat, b: nat, p: nat, q: nat)
    requires IsRun(run, steps) && i < |run|
    requires a < |run[i].acks| && b < |run[i].acks| && !run[i].acks[a].dedup && !run[i].acks[b].dedup
    requires p < q < |run[i].d.released|
    requires run[i].d.released[p] == run[i].acks[a].id && run[i].d.released[q] == run[i].acks[b].id
    ensures run[i].acks[a].txid < run[i].acks[b].txid
  {
    RunKeeps(run, steps, i);
    var d := run[i].d;
    var x, y := run[i].acks[a], run[i].acks[b];
    assert AckOk(d, x) && AckOk(d, y);
    assert Before(d.tenants, x.id, y.id);
    var u :| 0 <= u < |d.tenants| && d.tenants[u] == x.id;
    var v :| 0 <= v < |d.tenants| && d.tenants[v] == y.id;
    assert y.txid < x.txid ==> Before(d.tenants, y.id, x.id);
  }
}
