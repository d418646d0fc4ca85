/**
 The expiry fence: while a holder's own clock is before its local expiry less
 the skew allowance, no other acquisition has been accepted since its own.

 Hypotheses: each process's clock is monotone, and at the moment of the check
 any two clocks differ by at most twice the skew allowance.
 */
module LeaseFence {
  import opened Wrappers
  import opened Lease
  import opened LeaseInvariant
  import opened LeaseSafety

  ghost predicate Monotone(s: State, s': State) {
    forall p :: p in s.clock ==> p in s'.clock && s.clock[p] <= s'.clock[p]
  }

  ghost predicate Synced(cfg: Config, s: State) {
    forall p, q :: p in s.clock && q in s.clock ==> s.clock[p] <= s.clock[q] + 2 * cfg.skew
  }

  /** The owner's clock shows that rec could be taken over. */
  ghost predicate Expired(cfg: Config, clock: map<Proc, int>, rec: Record, owner: Proc) {
    rec.status.ReleasedStatus? || (owner in clock && SafelyExpired(cfg, rec, clock[owner]))
  }

  ghost predicate LogClocks(cfg: Config, net: Net, clock: map<Proc, int>) {
    forall k :: 0 < k < |net.log| ==>
      && (net.log[k].kind.Acquire? ==> Expired(cfg, clock, net.log[k - 1].rec, net.log[k].rec.owner))
      && (net.log[k].kind.Renew? ==> net.log[k - 1].rec.expiresAt <= net.log[k].rec.expiresAt)
  }

  ghost predicate WireClocks(cfg: Config, net: Net, clock: map<Proc, int>) {
    forall req, k :: req in net.wire && 0 <= k < |net.log| && req.expected == Some(net.log[k].token) ==>
      && (req.kind.Acquire? ==> Expired(cfg, clock, net.log[k].rec, req.rec.owner))
      && (req.kind.Renew? ==> net.log[k].rec.expiresAt <= req.rec.expiresAt)
  }

  /** A holder's local expiry is never ahead of its clock by more than a duration. */
  ghost predicate HolderClock(cfg: Config, clock: map<Proc, int>, h: Holder) {
    && h.proc in clock
    && match h.phase
       case Acquiring(req) => req.rec.expiresAt <= clock[h.proc] + cfg.duration
       case Holding(rec, _, _, _, renewing) =>
         && rec.expiresAt <= clock[h.proc] + cfg.duration
         && (renewing.Some? ==> renewing.value.rec.expiresAt <= clock[h.proc] + cfg.duration)
       case _ => true
  }

  ghost predicate ClockInv(cfg: Config, s: State) {
    && LogClocks(cfg, s.net, s.clock) && WireClocks(cfg, s.net, s.clock)
    && forall id :: id in s.holders ==> HolderClock(cfg, s.clock, s.holders[id])
  }

  // ---------------------------------------------------------- preservation

  lemma TickClock(cfg: Config, s: State, s': State)
    requires ClockInv(cfg, s) && TickStep(s, s') && Monotone(s, s')
    ensures ClockInv(cfg, s')
  {
    assert forall rec, owner :: Expired(cfg, s.clock, rec, owner) ==> Expired(cfg, s'.clock, rec, owner);
    forall id | id in s'.holders ensures HolderClock(cfg, s'.clock, s'.holders[id]) {
      assert HolderClock(cfg, s.clock, s.holders[id]);
    }
  }

  lemma SendClock(cfg: Config, net: Net, clock: map<Proc, int>, req: Request)
    requires WireClocks(cfg, net, clock)
    requires forall k :: 0 <= k < |net.log| && req.expected == Some(net.log[k].token) ==>
               && (req.kind.Acquire? ==> Expired(cfg, clock, net.log[k].rec, req.rec.owner))
               && (req.kind.Renew? ==> net.log[k].rec.expiresAt <= req.rec.expiresAt)
    ensures WireClocks(cfg, net.(wire := net.wire + {req}), clock)
  {
  }

  lemma DecideClock(cfg: Config, s: State, s': State, id: Id)
    requires Inv(cfg, s) && ClockInv(cfg, s) && DecideStep(cfg, s, s', id)
    ensures ClockInv(cfg, s')
  {
    assert HolderOk(cfg, s.net, id, s.holders[id]);
    if s'.holders[id].phase.Acquiring? {
      SendClock(cfg, s.net, s.clock, s'.holders[id].phase.req);
    }
  }

  lemma RenewTickClock(cfg: Config, s: State, s': State, id: Id)
    requires Inv(cfg, s) && ClockInv(cfg, s) && RenewTickStep(cfg, s, s', id)
    ensures ClockInv(cfg, s')
  {
    var k := HeldWrite(cfg, s, id);
    assert HolderClock(cfg, s.clock, s.holders[id]);
    if s'.holders[id].phase.renewing.Some? {
      SendClock(cfg, s.net, s.clock, s'.holders[id].phase.renewing.value);
    }
  }

  lemma SendReleaseClock(cfg: Config, s: State, s': State, id: Id)
    requires Inv(cfg, s) && ClockInv(cfg, s) && SendReleaseStep(s, s', id)
    ensures ClockInv(cfg, s')
  {
    SendClock(cfg, s.net, s.clock, s'.holders[id].phase.req);
  }

  lemma LandClock(cfg: Config, s: State, s': State, req: Request, token: Token)
    requires Inv(cfg, s) && ClockInv(cfg, s) && LandStep(s, s', req, token)
    ensures ClockInv(cfg, s')
  {
    var log, log' := s.net.log, s'.net.log;
    if Matches(s.net.store, req.expected) {
      assert LogClocks(cfg, s'.net, s.clock);
      forall r, k | r in s'.net.wire && 0 <= k < |log'| && r.expected == Some(log'[k].token)
        ensures k < |log|
      {
        assert RequestOk(log, r);
      }
      assert WireClocks(cfg, s'.net, s.clock);
    }
  }

  lemma LocalClock(cfg: Config, s: State, s': State, step: Step)
    requires ClockInv(cfg, s) && NextStep(cfg, s, s', step)
    requires step.Get? || step.AcquireReply? || step.RenewReply? || step.ReleaseReply? || step.GiveUp? || step.Abandon?
    ensures ClockInv(cfg, s')
  {
    forall id | id in s'.holders ensures HolderClock(cfg, s'.clock, s'.holders[id]) {
      if id in s.holders {
        assert HolderClock(cfg, s.clock, s.holders[id]);
      }
    }
  }

  lemma NextClock(cfg: Config, s: State, s': State, step: Step)
    requires Inv(cfg, s) && ClockInv(cfg, s) && NextStep(cfg, s, s', step) && Monotone(s, s')
    ensures ClockInv(cfg, s')
  {
    match step
    case Tick => TickClock(cfg, s, s');
    case Decide(id) => DecideClock(cfg, s, s', id);
    case Land(req, token) => LandClock(cfg, s, s', req, token);
    case RenewTick(id) => RenewTickClock(cfg, s, s', id);
    case SendRelease(id) => SendReleaseClock(cfg, s, s', id);
    case _ => LocalClock(cfg, s, s', step);
  }

  ghost predicate ClocksMonotone(run: seq<State>) {
    forall i :: 0 <= i < |run| - 1 ==> Monotone(run[i], run[i + 1])
  }

  lemma {:induction false} RunKeepsClocks(cfg: Config, run: seq<State>, steps: seq<Step>, i: nat)
    requires IsRun(cfg, run, steps) && ClocksMonotone(run) && i < |run|
    ensures Inv(cfg, run[i]) && ClockInv(cfg, run[i])
  {
    RunKeeps(cfg, run, steps, i);
    if i > 0 {
      RunKeepsClocks(cfg, run, steps, i - 1);
      NextClock(cfg, run[i - 1], run[i], steps[i - 1]);
    }
  }

  /** Renewals of one tenure never lower the expiry. */
  lemma {:induction false} ExpiryRises(cfg: Config, s: State, j: nat, k: nat)
    requires Inv(cfg, s) && ClockInv(cfg, s) && j <= k < |s.net.log|
    requires forall i :: j < i <= k ==> s.net.log[i].kind.Renew?
    ensures s.net.log[j].rec.expiresAt <= s.net.log[k].rec.expiresAt
    decreases k
  {
    if j < k {
      ExpiryRises(cfg, s, j, k - 1);
    }
  }

  /**
   The local expiry is never above the stored one: while the stored record is
   held under the holder's own lease ID, what leaseStale reads is no later.
   */
  lemma LocalExpiryIsNoLater(cfg: Config, run: seq<State>, steps: seq<Step>, i: nat, id: Id)
    requires IsRun(cfg, run, steps) && ClocksMonotone(run) && i < |run|
    requires id in run[i].holders && run[i].holders[id].phase.Holding? && run[i].net.store.Some?
    requires run[i].net.store.value.rec.leaseId == id && run[i].net.store.value.rec.status.HeldStatus?
    ensures run[i].holders[id].phase.rec.expiresAt <= run[i].net.store.value.rec.expiresAt
  {
    RunKeepsClocks(cfg, run, steps, i);
    var s := run[i];
    var log := s.net.log;
    var last := |log| - 1;
    var k := HeldWrite(cfg, s, id);
    LeaseIdOf(log, last);
    var a := TenureOf(log, last);
    assert EventOk(log, a) && EventOk(log, last);
    assert forall j :: 0 <= j < a ==> log[..a][j] == log[j];
    ExpiryRises(cfg, s, k, last);
  }

  // ------------------------------------------------------------ the fence

  /** What leaseStale computes. */
  predicate LeaseStale(cfg: Config, s: State, id: Id)
    requires id in s.holders && s.holders[id].phase.Holding? && s.holders[id].proc in s.clock
  {
    var h := s.holders[id];
    h.phase.lost || !(s.clock[h.proc] < h.phase.rec.expiresAt - cfg.skew)
  }

  /** From one of its unexpired writes on, every write in the log is the holder's. */
  lemma {:induction false} FenceHolds(cfg: Config, s: State, id: Id, k: nat)
    requires Inv(cfg, s) && ClockInv(cfg, s) && Synced(cfg, s)
    requires id in s.holders && Unreleased(s.net, id) && s.holders[id].proc in s.clock
    requires k < |s.net.log| && s.net.log[k].id == id && !s.net.log[k].kind.Release?
    requires s.clock[s.holders[id].proc] < s.net.log[k].rec.expiresAt - cfg.skew
    ensures forall j :: k <= j < |s.net.log| ==> s.net.log[j].id == id && !s.net.log[j].kind.Release?
    decreases |s.net.log| - k
  {
    var log := s.net.log;
    if k + 1 < |log| {
      assert EventOk(log, k) && EventOk(log, k + 1);
      assert log[k + 1].kind.Acquire? ==> Expired(cfg, s.clock, log[k].rec, log[k + 1].rec.owner);
      FenceHolds(cfg, s, id, k + 1);
    }
  }

  /**
   If leaseStale returns false, no other acquisition of the key has been
   accepted at any time since this one.
   */
  lemma UnstaleLeaseIsOurs(cfg: Config, run: seq<State>, steps: seq<Step>, i: nat, id: Id)
    requires IsRun(cfg, run, steps) && ClocksMonotone(run) && i < |run| && Synced(cfg, run[i])
    requires id in run[i].holders && run[i].holders[id].phase.Holding? && run[i].holders[id].proc in run[i].clock
    requires !LeaseStale(cfg, run[i], id)
    ensures var log := run[i].net.log;
            exists a :: 0 <= a < |log| && log[a].kind.Acquire? && forall j :: a <= j < |log| ==> log[j].id == id
  {
    RunKeepsClocks(cfg, run, steps, i);
    var s := run[i];
    var log := s.net.log;
    var k := HeldWrite(cfg, s, id);
    assert HolderOk(cfg, s.net, id, s.holders[id]);
    FenceHolds(cfg, s, id, k);
    var a := TenureOf(log, k);
    assert forall j :: a <= j < |log| ==> log[j].id == id;
  }
}
