/** What the lease guarantees over every run, whatever the clocks do. */
module LeaseSafety {
  import opened Wrappers
  import opened Lease
  import opened LeaseInvariant

  ghost predicate IsRun(cfg: Config, run: seq<State>, steps: seq<Step>) {
    && |run| == |steps| + 1 && Init(run[0])
    && forall i :: 0 <= i < |steps| ==> NextStep(cfg, run[i], run[i + 1], steps[i])
  }

  lemma {:induction false} RunKeeps(cfg: Config, run: seq<State>, steps: seq<Step>, i: nat)
    requires IsRun(cfg, run, steps) && i < |run|
    ensures Inv(cfg, run[i])
  {
    if i > 0 {
      RunKeeps(cfg, run, steps, i - 1);
      NextKeeps(cfg, run[i - 1], run[i], steps[i - 1]);
    }
  }

  /** The writes from a through b are one uninterrupted tenure of id. */
  ghost predicate Tenure(log: seq<Event>, id: Id, a: nat, b: nat) {
    && a <= b < |log| && log[a].kind.Acquire? && log[a].id == id && log[b].id == id
    && forall k :: a < k < b ==> log[k].kind.Renew? && log[k].id == id
  }

  lemma {:induction false} TenureOf(log: seq<Event>, b: nat) returns (a: nat)
    requires LogOk(log) && b < |log|
    ensures Tenure(log, log[b].id, a, b)
  {
    assert EventOk(log, b);
    if log[b].kind.Acquire? {
      a := b;
    } else {
      a := TenureOf(log, b - 1);
      assert EventOk(log, b - 1);
    }
  }

  /**
   If Release returned nil, then from that acquisition to that release no other
   acquisition, renewal or release was accepted, whatever the clocks did.
   */
  lemma ReleaseWasUninterrupted(cfg: Config, run: seq<State>, steps: seq<Step>, i: nat, id: Id)
    requires IsRun(cfg, run, steps) && i < |run|
    requires id in run[i].holders && run[i].holders[id].phase == Done(ReleasedOk)
    ensures exists a, b :: a < b && Tenure(run[i].net.log, id, a, b) && run[i].net.log[b].kind.Release?
  {
    RunKeeps(cfg, run, steps, i);
    var log := run[i].net.log;
    assert HolderOk(cfg, run[i].net, id, run[i].holders[id]);
    var b :| 0 <= b < |log| && log[b].id == id && log[b].kind.Release?;
    var a := TenureOf(log, b);
    assert a < b && Tenure(log, id, a, b);
  }

  /** A renewal or release is accepted only directly after a write of the same tenure. */
  lemma StaleHolderCannotOverwrite(cfg: Config, run: seq<State>, steps: seq<Step>, i: nat, req: Request, token: Token)
    requires IsRun(cfg, run, steps) && i < |steps| && steps[i] == Land(req, token) && !req.kind.Acquire?
    requires Matches(run[i].net.store, req.expected)
    ensures var log := run[i].net.log;
            && |log| > 0 && log[|log| - 1].id == req.id && !log[|log| - 1].kind.Release?
            && SameLease(log[|log| - 1].rec, req.rec)
  {
    RunKeeps(cfg, run, steps, i);
    assert LandStep(run[i], run[i + 1], req, token);
    assert RequestOk(run[i].net.log, req);
  }

  /** How many acquisitions the store has accepted. */
  function Acquisitions(log: seq<Event>): nat {
    if log == [] then 0
    else Acquisitions(log[..|log| - 1]) + (if log[|log| - 1].kind.Acquire? then 1 else 0)
  }

  lemma LogPrefix(log: seq<Event>, n: nat)
    requires LogOk(log) && n <= |log|
    ensures LogOk(log[..n])
  {
    forall k: nat | k < n ensures EventOk(log[..n], k) {
      assert EventOk(log, k);
      assert log[..n][..k] == log[..k];
    }
  }

  lemma {:induction false} EpochCounts(log: seq<Event>)
    requires LogOk(log) && log != []
    ensures log[|log| - 1].rec.epoch == Acquisitions(log)
    decreases |log|
  {
    var n := |log| - 1;
    assert EventOk(log, n);
    if n > 0 {
      LogPrefix(log, n);
      EpochCounts(log[..n]);
    }
  }

  /** The stored epoch is the number of acquisitions; renewals and releases keep epoch and lease ID. */
  lemma EpochIsGeneration(cfg: Config, run: seq<State>, steps: seq<Step>, i: nat)
    requires IsRun(cfg, run, steps) && i < |run| && run[i].net.store.Some?
    ensures run[i].net.store.value.rec.epoch == Acquisitions(run[i].net.log)
    ensures forall k :: 0 < k < |run[i].net.log| && !run[i].net.log[k].kind.Acquire? ==>
              SameLease(run[i].net.log[k - 1].rec, run[i].net.log[k].rec)
  {
    RunKeeps(cfg, run, steps, i);
    EpochCounts(run[i].net.log);
    forall k: nat | 0 < k < |run[i].net.log| && !run[i].net.log[k].kind.Acquire?
      ensures SameLease(run[i].net.log[k - 1].rec, run[i].net.log[k].rec)
    {
      assert EventOk(run[i].net.log, k);
    }
  }

  /** A held record never expires later than its acquisition time plus three durations. */
  lemma HeldExpiryIsCapped(cfg: Config, run: seq<State>, steps: seq<Step>, i: nat)
    requires IsRun(cfg, run, steps) && i < |run|
    requires run[i].net.store.Some? && run[i].net.store.value.rec.status.HeldStatus?
    ensures var rec := run[i].net.store.value.rec;
            && rec.leaseId in run[i].holders
            && rec.expiresAt <= run[i].holders[rec.leaseId].asked + 3 * cfg.duration
  {
    RunKeeps(cfg, run, steps, i);
    var log := run[i].net.log;
    var a := TenureOf(log, |log| - 1);
    assert EventOk(log, a) && EventOk(log, |log| - 1);
    LeaseIdOf(log, |log| - 1);
  }

  lemma {:induction false} LeaseIdOf(log: seq<Event>, b: nat)
    requires LogOk(log) && b < |log|
    ensures log[b].rec.leaseId == log[b].id
  {
    assert EventOk(log, b);
    if !log[b].kind.Acquire? {
      LeaseIdOf(log, b - 1);
    }
  }

  /**
   A wedged holder is always eventually takeable: once a process's clock is
   past the cap and the skew allowance, its next attempt acquires.
   */
  lemma WedgedLeaseIsTakeable(cfg: Config, run: seq<State>, steps: seq<Step>, id: Id, proc: Proc, token: Token)
    requires IsRun(cfg, run, steps)
    requires var s := run[|run| - 1];
             && id !in s.holders && proc in s.clock && FreshToken(s.net.log, token)
             && (s.net.store.Some? && s.net.store.value.rec.leaseId in s.holders ==>
                   s.clock[proc] > s.holders[s.net.store.value.rec.leaseId].asked + 3 * cfg.duration + cfg.skew)
    ensures exists s1, s2, s3, req ::
              && GetStep(run[|run| - 1], s1, id, proc) && DecideStep(cfg, s1, s2, id) && LandStep(s2, s3, req, token)
              && s3.net.log == run[|run| - 1].net.log + [Event(Acquire, id, req.rec, token)]
  {
    var s := run[|run| - 1];
    RunKeeps(cfg, run, steps, |run| - 1);
    if s.net.store.Some? && s.net.store.value.rec.status.HeldStatus? {
      HeldExpiryIsCapped(cfg, run, steps, |run| - 1);
    }
    var now := s.clock[proc];
    var expected := if s.net.store.None? then None else Some(s.net.store.value.token);
    var prev := if s.net.store.None? then 0 else s.net.store.value.rec.epoch;
    var req := Request(Acquire, id, expected, NewRecord(cfg, proc, id, prev, now));
    var s1 := s.(holders := s.holders[id := Holder(proc, 0, Looked(s.net.store))]);
    var s2 := Send(s.(holders := s.holders[id := Holder(proc, now, Acquiring(req))]), req);
    var s3 := s2.(net := Net(Some(Object(req.rec, token)), s.net.log + [Event(Acquire, id, req.rec, token)],
                             s2.net.wire - {req}, s2.net.replies[req := Ok(token)]));
    assert s1.holders[id := Holder(proc, now, Acquiring(req))] == s2.holders;
    assert GetStep(s, s1, id, proc);
    assert DecideStep(cfg, s1, s2, id);
    assert LandStep(s2, s3, req, token);
  }

  /**
   What may go wrong at any time: a call in flight goes unanswered, an attempt
   dies while it looks or holds, and every clock moves to anywhere.
   */
  lemma AnythingMayFail(cfg: Config, s: State, id: Id, clock: map<Proc, int>)
    requires id in s.holders && clock.Keys >= s.clock.Keys
    ensures NextStep(cfg, s, s.(clock := clock), Tick)
    ensures s.holders[id].phase.Acquiring? || s.holders[id].phase.Releasing? ==>
              NextStep(cfg, s, SetPhase(s, id, Done(Unknown)), GiveUp(id))
    ensures s.holders[id].phase.Holding? && s.holders[id].phase.renewing.Some? ==>
              var p := s.holders[id].phase;
              NextStep(cfg, s, SetPhase(s, id, p.(lost := true, stopped := true, renewing := None)), GiveUp(id))
    ensures s.holders[id].phase.Looked? || s.holders[id].phase.Holding? ==>
              NextStep(cfg, s, SetPhase(s, id, Done(Abandoned)), Abandon(id))
  {
  }
}
