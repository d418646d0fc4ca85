/**
 What leaseStale answers, told from the steps alone: a lease is stale exactly
 when a renewal was refused or went unanswered, or when a duration, less the
 skew allowance, has passed since the clock reading that its last accepted
 write was computed from.  The clocks may do anything.
 */
module LeaseStaleness {
  import opened Wrappers
  import opened Lease
  import opened LeaseSafety
  import LeaseFence

  ghost predicate Holds(s: State, id: Id) {
    id in s.holders && s.holders[id].phase.Holding?
  }

  /** The conditional write that id has sent and not heard about. */
  function Outstanding(s: State, id: Id): Option<Request> {
    if id !in s.holders then None
    else match s.holders[id].phase
         case Acquiring(req) => Some(req)
         case Holding(_, _, _, _, renewing) => renewing
         case _ => None
  }

  /** The step computes an acquisition or a renewal of id and sends it. */
  ghost predicate Computes(s: State, s': State, step: Step, id: Id) {
    && (step == Decide(id) || step == RenewTick(id))
    && id in s.holders && s.holders[id].proc in s.clock && Outstanding(s', id).Some?
  }

  /** The step tells id that what it sent was accepted. */
  ghost predicate Accepts(s: State, step: Step, id: Id) {
    && (step == AcquireReply(id) || step == RenewReply(id))
    && Outstanding(s, id).Some? && Outstanding(s, id).value in s.net.replies
    && s.net.replies[Outstanding(s, id).value].Ok?
  }

  ghost predicate Refused(s: State, id: Id) {
    && Outstanding(s, id).Some? && Outstanding(s, id).value in s.net.replies
    && s.net.replies[Outstanding(s, id).value].Conflict?
  }

  /** The step tells id, which holds the lease, that a renewal was refused, or id gives up on it. */
  ghost predicate Loses(s: State, step: Step, id: Id) {
    Holds(s, id) && (step == GiveUp(id) || (step == RenewReply(id) && Refused(s, id)))
  }

  /** What id is waiting to hear about at run[k] was computed at step j, on the clock reading t. */
  ghost predicate Awaits(cfg: Config, run: seq<State>, steps: seq<Step>, j: nat, k: nat, id: Id, t: int)
    requires |run| == |steps| + 1
  {
    && j < k < |run| && Computes(run[j], run[j + 1], steps[j], id) && run[j].clock[run[j].holders[id].proc] == t
    && Outstanding(run[k], id).Some? && Outstanding(run[k], id).value.rec.expiresAt == t + cfg.duration
    && forall m :: j < m < k ==> !Computes(run[m], run[m + 1], steps[m], id)
  }

  /** The last accepted write of id before run[i] was computed at step j, on reading t, and accepted at step k. */
  ghost predicate LastAccepted(cfg: Config, run: seq<State>, steps: seq<Step>, j: nat, k: nat, i: nat, id: Id, t: int)
    requires |run| == |steps| + 1
  {
    && k < i < |run| && Awaits(cfg, run, steps, j, k, id, t) && Accepts(run[k], steps[k], id)
    && forall m :: k < m < i ==> !Accepts(run[m], steps[m], id)
  }

  /** What id is waiting to hear about has been computed and sent. */
  lemma {:induction false} WasComputed(cfg: Config, run: seq<State>, steps: seq<Step>, k: nat, id: Id)
      returns (j: nat, t: int)
    requires IsRun(cfg, run, steps) && k < |run| && Outstanding(run[k], id).Some?
    ensures Awaits(cfg, run, steps, j, k, id, t)
  {
    assert k > 0;
    assert NextStep(cfg, run[k - 1], run[k], steps[k - 1]);
    if Computes(run[k - 1], run[k], steps[k - 1], id) {
      j, t := k - 1, run[k - 1].clock[run[k - 1].holders[id].proc];
    } else {
      StillAwaited(cfg, run[k - 1], run[k], steps[k - 1], id);
      j, t := WasComputed(cfg, run, steps, k - 1, id);
    }
  }

  lemma StillAwaited(cfg: Config, s: State, s': State, step: Step, id: Id)
    requires NextStep(cfg, s, s', step) && Outstanding(s', id).Some? && !Computes(s, s', step, id)
    ensures Outstanding(s, id) == Outstanding(s', id)
  {
  }

  /** A holder stops renewing once it is lost. */
  ghost predicate LostIsStopped(s: State) {
    forall id :: Holds(s, id) && s.holders[id].phase.lost ==>
      s.holders[id].phase.stopped && s.holders[id].phase.renewing.None?
  }

  lemma StepStops(cfg: Config, s: State, s': State, step: Step)
    requires LostIsStopped(s) && NextStep(cfg, s, s', step)
    ensures LostIsStopped(s')
  {
    forall id | Holds(s', id) && s'.holders[id].phase.lost
      ensures s'.holders[id].phase.stopped && s'.holders[id].phase.renewing.None?
    {
      assert Holds(s, id) || step == AcquireReply(id);
    }
  }

  lemma {:induction false} LostStops(cfg: Config, run: seq<State>, steps: seq<Step>, i: nat)
    requires IsRun(cfg, run, steps) && i < |run|
    ensures LostIsStopped(run[i])
  {
    if i > 0 {
      LostStops(cfg, run, steps, i - 1);
      assert NextStep(cfg, run[i - 1], run[i], steps[i - 1]);
      StepStops(cfg, run[i - 1], run[i], steps[i - 1]);
    }
  }

  /** One step of a holder: accepted, lost or as it was. */
  lemma HolderStep(cfg: Config, s: State, s': State, step: Step, id: Id)
    requires NextStep(cfg, s, s', step) && Holds(s', id) && LostIsStopped(s)
    ensures Accepts(s, step, id) ==>
              s'.holders[id].phase.rec == Outstanding(s, id).value.rec && !s'.holders[id].phase.lost
    ensures !Accepts(s, step, id) ==> Holds(s, id) && s'.holders[id].phase.rec == s.holders[id].phase.rec
    ensures !Accepts(s, step, id) ==> (s'.holders[id].phase.lost <==> s.holders[id].phase.lost || Loses(s, step, id))
  {
    assert Holds(s, id) || step == AcquireReply(id);
  }

  /** Every state of a holder goes back to a write that was accepted, and shows whether it was lost since. */
  lemma {:induction false} WasAccepted(cfg: Config, run: seq<State>, steps: seq<Step>, i: nat, id: Id)
      returns (j: nat, k: nat, t: int)
    requires IsRun(cfg, run, steps) && i < |run| && Holds(run[i], id)
    ensures LastAccepted(cfg, run, steps, j, k, i, id, t)
    ensures run[i].holders[id].phase.rec.expiresAt == t + cfg.duration
    ensures run[i].holders[id].phase.lost <==> exists m :: k < m < i && Loses(run[m], steps[m], id)
  {
    assert i > 0;
    var s, s', step := run[i - 1], run[i], steps[i - 1];
    assert NextStep(cfg, s, s', step);
    LostStops(cfg, run, steps, i - 1);
    HolderStep(cfg, s, s', step, id);
    if Accepts(s, step, id) {
      k := i - 1;
      j, t := WasComputed(cfg, run, steps, k, id);
    } else {
      j, k, t := WasAccepted(cfg, run, steps, i - 1, id);
      OneMoreLoss(run, steps, k, i, id);
    }
  }

  lemma OneMoreLoss(run: seq<State>, steps: seq<Step>, k: nat, i: nat, id: Id)
    requires |run| == |steps| + 1 && k < i - 1 < |steps|
    ensures (exists m :: k < m < i && Loses(run[m], steps[m], id))
       <==> (exists m :: k < m < i - 1 && Loses(run[m], steps[m], id)) || Loses(run[i - 1], steps[i - 1], id)
  {
  }

  /**
   leaseStale from both sides.  The last accepted write of a holder was computed
   on some reading t of its clock; the answer is stale exactly when a renewal
   was lost since it was accepted, or the clock has come within the skew
   allowance of t plus the duration.
   */
  lemma StaleIff(cfg: Config, run: seq<State>, steps: seq<Step>, i: nat, id: Id) returns (j: nat, k: nat, t: int)
    requires IsRun(cfg, run, steps) && i < |run| && Holds(run[i], id) && run[i].holders[id].proc in run[i].clock
    ensures LastAccepted(cfg, run, steps, j, k, i, id, t)
    ensures LeaseFence.LeaseStale(cfg, run[i], id) <==>
              || (exists m :: k < m < i && Loses(run[m], steps[m], id))
              || run[i].clock[run[i].holders[id].proc] + cfg.skew >= t + cfg.duration
  {
    j, k, t := WasAccepted(cfg, run, steps, i, id);
  }
}
