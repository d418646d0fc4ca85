/** The invariant of the lease protocol, for every interleaving and any clocks. */
module LeaseInvariant {
  import opened Wrappers
  import opened Lease

  // --------------------------------------------------------------- the log

  /** Write k continues the tenure of write k - 1: same holder, epoch and lease ID. */
  ghost predicate Follows(log: seq<Event>, k: nat)
    requires k < |log|
  {
    && k > 0 && log[k - 1].id == log[k].id && !log[k - 1].kind.Release?
    && SameLease(log[k - 1].rec, log[k].rec)
  }

  predicate SameLease(a: Record, b: Record) {
    a.owner == b.owner && a.leaseId == b.leaseId && a.epoch == b.epoch
  }

  ghost predicate NoEvent(log: seq<Event>, id: Id) {
    forall k :: 0 <= k < |log| ==> log[k].id != id
  }

  ghost predicate EventOk(log: seq<Event>, k: nat)
    requires k < |log|
  {
    match log[k].kind
    case Acquire =>
      && log[k].rec.status.HeldStatus? && log[k].rec.leaseId == log[k].id
      && log[k].rec.epoch == (if k == 0 then 1 else log[k - 1].rec.epoch + 1)
      && NoEvent(log[..k], log[k].id)
    case Renew => Follows(log, k) && log[k].rec.status.HeldStatus?
    case Release => Follows(log, k) && log[k].rec.status.ReleasedStatus?
  }

  ghost predicate LogOk(log: seq<Event>) {
    && (forall k :: 0 <= k < |log| ==> EventOk(log, k))
    && forall j, k :: 0 <= j < k < |log| ==> log[j].token != log[k].token
  }

  // ----------------------------------------------------------- the network

  /** The log has a write with this token and record, by this holder, that is not a release. */
  ghost predicate HeldBy(log: seq<Event>, id: Id, rec: Record, token: Token) {
    exists k :: 0 <= k < |log| && log[k].token == token && log[k].id == id && log[k].rec == rec && !log[k].kind.Release?
  }

  ghost predicate ContinuesHeld(log: seq<Event>, req: Request) {
    && req.expected.Some?
    && exists k :: 0 <= k < |log| && log[k].token == req.expected.value && log[k].id == req.id
                   && SameLease(log[k].rec, req.rec) && !log[k].kind.Release?
  }

  ghost predicate SawRecord(log: seq<Event>, o: Object) {
    exists k :: 0 <= k < |log| && log[k].token == o.token && log[k].rec == o.rec
  }

  ghost predicate RequestOk(log: seq<Event>, req: Request) {
    match req.kind
    case Acquire =>
      && req.rec.status.HeldStatus? && req.rec.leaseId == req.id && NoEvent(log, req.id)
      && (match req.expected
          case None => req.rec.epoch == 1
          case Some(t) =>
            exists k :: 0 <= k < |log| && log[k].token == t && req.rec.epoch == log[k].rec.epoch + 1)
    case Renew => ContinuesHeld(log, req) && req.rec.status.HeldStatus?
    case Release => ContinuesHeld(log, req) && req.rec.status.ReleasedStatus?
  }

  ghost predicate Logged(log: seq<Event>, e: Event) {
    exists k :: 0 <= k < |log| && log[k] == e
  }

  ghost predicate NetOk(net: Net) {
    && LogOk(net.log)
    && net.store == (if net.log == [] then None
                     else Some(Object(net.log[|net.log| - 1].rec, net.log[|net.log| - 1].token)))
    && (forall req :: req in net.wire ==> RequestOk(net.log, req))
    && (forall a, b :: a in net.wire && b in net.wire && a.kind.Acquire? && b.kind.Acquire? && a.id == b.id ==> a == b)
    && forall req :: req in net.replies && net.replies[req].Ok? ==>
         Logged(net.log, Event(req.kind, req.id, req.rec, net.replies[req].token))
  }

  // ----------------------------------------------------------- the holders

  /** id has sent nothing yet. */
  ghost predicate Quiet(net: Net, id: Id) {
    NoEvent(net.log, id) && forall req :: req in net.wire ==> req.id != id
  }

  /** id has sent no release. */
  ghost predicate Unreleased(net: Net, id: Id) {
    && (forall k :: 0 <= k < |net.log| ==> !(net.log[k].id == id && net.log[k].kind.Release?))
    && forall req :: req in net.wire ==> !(req.id == id && req.kind.Release?)
  }

  ghost predicate HolderOk(cfg: Config, net: Net, id: Id, h: Holder) {
    match h.phase
    case Looked(seen) => Quiet(net, id) && (seen.Some? ==> SawRecord(net.log, seen.value))
    case Acquiring(req) =>
      && req.kind.Acquire? && req.id == id && Unreleased(net, id)
      && req.rec.owner == h.proc && req.rec.expiresAt == h.asked + cfg.duration
    case Holding(rec, version, _, _, renewing) =>
      && HeldBy(net.log, id, rec, version) && Unreleased(net, id)
      && (renewing.Some? ==> renewing.value.kind.Renew? && renewing.value.id == id)
    case Releasing(req) => req.kind.Release? && req.id == id
    case Done(outcome) =>
      outcome.ReleasedOk? ==> exists k :: 0 <= k < |net.log| && net.log[k].id == id && net.log[k].kind.Release?
  }

  /** No held record outlives the acquisition time by more than three durations. */
  ghost predicate Capped(cfg: Config, holders: map<Id, Holder>, kind: Kind, id: Id, rec: Record) {
    && id in holders && rec.owner == holders[id].proc
    && (kind.Acquire? ==> rec.expiresAt == holders[id].asked + cfg.duration)
    && (rec.status.HeldStatus? ==> rec.expiresAt <= MaxExpiry(cfg, holders[id]))
  }

  ghost predicate CapOk(cfg: Config, s: State) {
    && (forall k :: 0 <= k < |s.net.log| ==>
          Capped(cfg, s.holders, s.net.log[k].kind, s.net.log[k].id, s.net.log[k].rec))
    && forall req :: req in s.net.wire ==> Capped(cfg, s.holders, req.kind, req.id, req.rec)
  }

  ghost predicate Inv(cfg: Config, s: State) {
    && NetOk(s.net) && CapOk(cfg, s)
    && forall id :: id in s.holders ==> HolderOk(cfg, s.net, id, s.holders[id])
  }

  // ------------------------------------------------------- preservation

  lemma SendNet(net: Net, req: Request)
    requires NetOk(net) && RequestOk(net.log, req)
    requires req.kind.Acquire? ==> forall r :: r in net.wire ==> r.id != req.id
    ensures NetOk(net.(wire := net.wire + {req}))
  {
  }

  /** Sending a request of id leaves the other holders alone. */
  lemma SendOthers(cfg: Config, net: Net, req: Request, id: Id, h: Holder)
    requires HolderOk(cfg, net, id, h) && id != req.id
    ensures HolderOk(cfg, net.(wire := net.wire + {req}), id, h)
  {
  }

  /** A step that changes one holder and sends one well-formed request. */
  lemma SendKeeps(cfg: Config, s: State, s': State, id: Id, req: Request)
    requires Inv(cfg, s) && id in s.holders && req.id == id
    requires s'.net == s.net.(wire := s.net.wire + {req})
    requires id in s'.holders && s'.holders == s.holders[id := s'.holders[id]]
    requires s'.holders[id].proc == s.holders[id].proc
    requires s'.holders[id].asked == s.holders[id].asked || Quiet(s.net, id)
    requires RequestOk(s.net.log, req) && (req.kind.Acquire? ==> Quiet(s.net, id))
    requires HolderOk(cfg, s'.net, id, s'.holders[id]) && Capped(cfg, s'.holders, req.kind, req.id, req.rec)
    ensures Inv(cfg, s')
  {
    SendNet(s.net, req);
    forall g | g in s'.holders ensures HolderOk(cfg, s'.net, g, s'.holders[g]) {
      if g != id {
        SendOthers(cfg, s.net, req, g, s.holders[g]);
      }
    }
  }

  lemma DecideKeeps(cfg: Config, s: State, s': State, id: Id)
    requires Inv(cfg, s) && DecideStep(cfg, s, s', id)
    ensures Inv(cfg, s')
  {
    assert HolderOk(cfg, s.net, id, s.holders[id]);
    if s'.holders[id].phase.Acquiring? {
      SendKeeps(cfg, s, s', id, s'.holders[id].phase.req);
    } else {
      LocalKeeps(cfg, s, s', id);
    }
  }

  /** The write a holder's version names, which is not a release. */
  lemma HeldWrite(cfg: Config, s: State, id: Id) returns (k: nat)
    requires Inv(cfg, s) && id in s.holders && s.holders[id].phase.Holding?
    ensures var p := s.holders[id].phase;
            && k < |s.net.log| && s.net.log[k].token == p.version && s.net.log[k].id == id
            && s.net.log[k].rec == p.rec && !s.net.log[k].kind.Release? && p.rec.status.HeldStatus?
            && Capped(cfg, s.holders, s.net.log[k].kind, id, p.rec)
  {
    var p := s.holders[id].phase;
    assert HolderOk(cfg, s.net, id, s.holders[id]);
    k :| 0 <= k < |s.net.log| && s.net.log[k].token == p.version && s.net.log[k].id == id
         && s.net.log[k].rec == p.rec && !s.net.log[k].kind.Release?;
    assert EventOk(s.net.log, k);
  }

  lemma RenewTickKeeps(cfg: Config, s: State, s': State, id: Id)
    requires Inv(cfg, s) && RenewTickStep(cfg, s, s', id)
    ensures Inv(cfg, s')
  {
    assert HolderOk(cfg, s.net, id, s.holders[id]);
    var k := HeldWrite(cfg, s, id);
    if s'.holders[id].phase.renewing.Some? {
      SendKeeps(cfg, s, s', id, s'.holders[id].phase.renewing.value);
    } else {
      LocalKeeps(cfg, s, s', id);
    }
  }

  lemma SendReleaseKeeps(cfg: Config, s: State, s': State, id: Id)
    requires Inv(cfg, s) && SendReleaseStep(s, s', id)
    ensures Inv(cfg, s')
  {
    var k := HeldWrite(cfg, s, id);
    SendKeeps(cfg, s, s', id, s'.holders[id].phase.req);
  }

  /** A step that changes one holder's phase and sends nothing. */
  lemma LocalKeeps(cfg: Config, s: State, s': State, id: Id)
    requires Inv(cfg, s) && id in s.holders && id in s'.holders
    requires s' == s.(holders := s.holders[id := s.holders[id].(phase := s'.holders[id].phase)])
    requires HolderOk(cfg, s.net, id, s'.holders[id])
    ensures Inv(cfg, s')
  {
  }

  lemma ReplyKeeps(cfg: Config, s: State, s': State, id: Id)
    requires Inv(cfg, s)
    requires AcquireReplyStep(s, s', id) || RenewReplyStep(s, s', id) || ReleaseReplyStep(s, s', id)
    ensures Inv(cfg, s')
  {
    assert HolderOk(cfg, s.net, id, s.holders[id]);
    LocalKeeps(cfg, s, s', id);
  }

  lemma EndKeeps(cfg: Config, s: State, s': State, id: Id)
    requires Inv(cfg, s) && (GiveUpStep(s, s', id) || AbandonStep(s, s', id))
    ensures Inv(cfg, s')
  {
    assert HolderOk(cfg, s.net, id, s.holders[id]);
    LocalKeeps(cfg, s, s', id);
  }

  // ---------------------------------------------------------- landing

  /** The accepted write extends the log in order. */
  lemma AppendLog(net: Net, req: Request, token: Token)
    requires NetOk(net) && RequestOk(net.log, req) && Matches(net.store, req.expected) && FreshToken(net.log, token)
    ensures LogOk(net.log + [Event(req.kind, req.id, req.rec, token)])
  {
    var log' := net.log + [Event(req.kind, req.id, req.rec, token)];
    forall k: nat | k < |log'| ensures EventOk(log', k) {
      if k < |net.log| {
        assert EventOk(net.log, k);
        assert log'[..k] == net.log[..k];
      } else {
        assert log'[..k] == net.log;
      }
    }
  }

  /** What was true of a request before another write stays true, if it was not that holder's acquisition. */
  lemma RequestGrows(log: seq<Event>, e: Event, req: Request)
    requires RequestOk(log, req) && !(req.kind.Acquire? && req.id == e.id)
    ensures RequestOk(log + [e], req)
  {
    var log' := log + [e];
    if req.expected.Some? {
      if req.kind.Acquire? {
        var k :| 0 <= k < |log| && log[k].token == req.expected.value && req.rec.epoch == log[k].rec.epoch + 1;
        assert log'[k] == log[k];
      } else {
        var k :| 0 <= k < |log| && log[k].token == req.expected.value && log[k].id == req.id
                 && SameLease(log[k].rec, req.rec) && !log[k].kind.Release?;
        assert log'[k] == log[k];
      }
    }
  }

  lemma LandNet(net: Net, req: Request, token: Token)
    requires NetOk(net) && req in net.wire && Matches(net.store, req.expected) && FreshToken(net.log, token)
    ensures NetOk(Net(Some(Object(req.rec, token)), net.log + [Event(req.kind, req.id, req.rec, token)],
                      net.wire - {req}, net.replies[req := Ok(token)]))
  {
    var e := Event(req.kind, req.id, req.rec, token);
    var net' := Net(Some(Object(req.rec, token)), net.log + [e], net.wire - {req}, net.replies[req := Ok(token)]);
    AppendLog(net, req, token);
    forall r | r in net'.wire ensures RequestOk(net'.log, r) {
      assert RequestOk(net.log, r) && RequestOk(net.log, req);
      assert !req.kind.Acquire? ==> ContinuesHeld(net.log, req);
      RequestGrows(net.log, e, r);
    }
    forall r | r in net'.replies && net'.replies[r].Ok?
      ensures Logged(net'.log, Event(r.kind, r.id, r.rec, net'.replies[r].token))
    {
      if r == req {
        assert net'.log[|net.log|] == e;
      } else {
        var k :| 0 <= k < |net.log| && net.log[k] == Event(r.kind, r.id, r.rec, net.replies[r].token);
        assert net'.log[k] == net.log[k];
      }
    }
  }

  lemma LandHolder(cfg: Config, net: Net, net': Net, req: Request, e: Event, id: Id, h: Holder)
    requires HolderOk(cfg, net, id, h) && req in net.wire && e.id == req.id && e.kind == req.kind
    requires net'.log == net.log + [e] || net'.log == net.log
    requires net'.wire == net.wire - {req}
    ensures HolderOk(cfg, net', id, h)
  {
    match h.phase
    case Looked(seen) =>
      if seen.Some? {
        var k :| 0 <= k < |net.log| && net.log[k].token == seen.value.token && net.log[k].rec == seen.value.rec;
        assert net'.log[k] == net.log[k];
      }
    case Holding(rec, version, _, _, _) =>
      var k :| 0 <= k < |net.log| && net.log[k].token == version && net.log[k].id == id && net.log[k].rec == rec
               && !net.log[k].kind.Release?;
      assert net'.log[k] == net.log[k];
    case Done(outcome) =>
      if outcome.ReleasedOk? {
        var k :| 0 <= k < |net.log| && net.log[k].id == id && net.log[k].kind.Release?;
        assert net'.log[k] == net.log[k];
      }
    case _ =>
  }

  lemma LandKeeps(cfg: Config, s: State, s': State, req: Request, token: Token)
    requires Inv(cfg, s) && LandStep(s, s', req, token)
    ensures Inv(cfg, s')
  {
    if Matches(s.net.store, req.expected) {
      LandNet(s.net, req, token);
    }
    var e := Event(req.kind, req.id, req.rec, token);
    forall g | g in s'.holders ensures HolderOk(cfg, s'.net, g, s'.holders[g]) {
      LandHolder(cfg, s.net, s'.net, req, e, g, s.holders[g]);
    }
  }

  lemma GetKeeps(cfg: Config, s: State, s': State, id: Id, proc: Proc)
    requires Inv(cfg, s) && GetStep(s, s', id, proc)
    ensures Inv(cfg, s')
  {
    if s.net.store.Some? {
      assert s.net.log[|s.net.log| - 1].token == s.net.store.value.token;
    }
    assert Quiet(s.net, id);
  }

  lemma NextKeeps(cfg: Config, s: State, s': State, step: Step)
    requires Inv(cfg, s) && NextStep(cfg, s, s', step)
    ensures Inv(cfg, s')
  {
    match step
    case Tick =>
    case Get(id, proc) => GetKeeps(cfg, s, s', id, proc);
    case Decide(id) => DecideKeeps(cfg, s, s', id);
    case Land(req, token) => LandKeeps(cfg, s, s', req, token);
    case RenewTick(id) => RenewTickKeeps(cfg, s, s', id);
    case SendRelease(id) => SendReleaseKeeps(cfg, s, s', id);
    case AcquireReply(id) => ReplyKeeps(cfg, s, s', id);
    case RenewReply(id) => ReplyKeeps(cfg, s, s', id);
    case ReleaseReply(id) => ReplyKeeps(cfg, s, s', id);
    case GiveUp(id) => EndKeeps(cfg, s, s', id);
    case Abandon(id) => EndKeeps(cfg, s, s', id);
  }
}
