/**
 The CAS lease of one key: many processes read the record, send conditional
 replaces that land later or never, renew, release and crash.  The log records
 every write the store accepted, in order.

 Hypothesis: the store mints a token it has never minted before (Land).
 Clocks are unconstrained here; LeaseFence adds what its theorem needs.
 */
module Lease {
  import opened Wrappers

  type Id = nat      // one acquisition attempt
  type Proc = nat    // one API process
  type Token = nat

  datatype Status = HeldStatus | ReleasedStatus

  /** The lease record; the lease ID is the attempt's own fresh value. */
  datatype Record = Record(status: Status, owner: Proc, leaseId: Id, epoch: nat, expiresAt: int)

  datatype Object = Object(rec: Record, token: Token)

  datatype Kind = Acquire | Renew | Release

  /** A conditional write: expected None means create-if-absent. */
  datatype Request = Request(kind: Kind, id: Id, expected: Option<Token>, rec: Record)

  datatype Reply = Ok(token: Token) | Conflict

  datatype Event = Event(kind: Kind, id: Id, rec: Record, token: Token)

  datatype Outcome = Busy | Unknown | ReleasedOk | ReleaseConflict | Abandoned

  datatype Phase =
    | Looked(seen: Option<Object>)
    | Acquiring(req: Request)
    | Holding(rec: Record, version: Token, lost: bool, stopped: bool, renewing: Option<Request>)
    | Releasing(req: Request)
    | Done(outcome: Outcome)

  /** asked is the clock reading the acquisition was computed from. */
  datatype Holder = Holder(proc: Proc, asked: int, phase: Phase)

  datatype Config = Config(duration: nat, skew: nat)

  datatype Net = Net(
    store: Option<Object>,
    log: seq<Event>,
    wire: set<Request>,              // sent, not yet decided by the store
    replies: map<Request, Reply>)

  datatype State = State(net: Net, holders: map<Id, Holder>, clock: map<Proc, int>)

  datatype Step =
    | Tick
    | Get(id: Id, proc: Proc)
    | Decide(id: Id)
    | Land(req: Request, token: Token)
    | AcquireReply(id: Id)
    | RenewTick(id: Id)
    | RenewReply(id: Id)
    | SendRelease(id: Id)
    | ReleaseReply(id: Id)
    | GiveUp(id: Id)
    | Abandon(id: Id)

  function MaxExpiry(cfg: Config, h: Holder): int {
    h.asked + 3 * cfg.duration
  }

  predicate SafelyExpired(cfg: Config, rec: Record, now: int) {
    rec.expiresAt < now - cfg.skew
  }

  /** The record an acquisition writes over what it saw. */
  function NewRecord(cfg: Config, proc: Proc, id: Id, prevEpoch: nat, now: int): Record {
    Record(HeldStatus, proc, id, prevEpoch + 1, now + cfg.duration)
  }

  predicate Matches(store: Option<Object>, expected: Option<Token>) {
    match expected
    case None => store.None?
    case Some(t) => store.Some? && store.value.token == t
  }

  predicate FreshToken(log: seq<Event>, t: Token) {
    forall i :: 0 <= i < |log| ==> log[i].token != t
  }

  function SetPhase(s: State, id: Id, phase: Phase): State
    requires id in s.holders
  {
    s.(holders := s.holders[id := s.holders[id].(phase := phase)])
  }

  function Send(s: State, req: Request): State {
    s.(net := s.net.(wire := s.net.wire + {req}))
  }

  // ------------------------------------------------------------------- steps

  ghost predicate TickStep(s: State, s': State) {
    && s'.clock.Keys >= s.clock.Keys
    && s' == s.(clock := s'.clock)
  }

  ghost predicate GetStep(s: State, s': State, id: Id, proc: Proc) {
    && id !in s.holders && proc in s.clock
    && s' == s.(holders := s.holders[id := Holder(proc, 0, Looked(s.net.store))])
  }

  /** Busy when the record seen is held and not safely expired; otherwise send the CAS. */
  ghost predicate DecideStep(cfg: Config, s: State, s': State, id: Id) {
    && id in s.holders && s.holders[id].phase.Looked? && s.holders[id].proc in s.clock
    && var h := s.holders[id];
    && var now := s.clock[h.proc];
    && match h.phase.seen
       case None =>
         var req := Request(Acquire, id, None, NewRecord(cfg, h.proc, id, 0, now));
         s' == Send(s.(holders := s.holders[id := Holder(h.proc, now, Acquiring(req))]), req)
       case Some(o) =>
         if o.rec.status.HeldStatus? && !SafelyExpired(cfg, o.rec, now)
         then s' == SetPhase(s, id, Done(Busy))
         else
           var req := Request(Acquire, id, Some(o.token), NewRecord(cfg, h.proc, id, o.rec.epoch, now));
           s' == Send(s.(holders := s.holders[id := Holder(h.proc, now, Acquiring(req))]), req)
  }

  /** The store decides one request, atomically. */
  ghost predicate LandStep(s: State, s': State, req: Request, token: Token) {
    && req in s.net.wire
    && s' == s.(net :=
         if Matches(s.net.store, req.expected)
         then Net(Some(Object(req.rec, token)), s.net.log + [Event(req.kind, req.id, req.rec, token)],
                  s.net.wire - {req}, s.net.replies[req := Ok(token)])
         else s.net.(wire := s.net.wire - {req}, replies := s.net.replies[req := Conflict]))
    && (Matches(s.net.store, req.expected) ==> FreshToken(s.net.log, token))
  }

  ghost predicate AcquireReplyStep(s: State, s': State, id: Id) {
    && id in s.holders && s.holders[id].phase.Acquiring?
    && var req := s.holders[id].phase.req;
    && req in s.net.replies
    && s' == SetPhase(s, id,
         match s.net.replies[req]
         case Ok(t) => Holding(req.rec, t, false, false, None)
         case Conflict => Done(Busy))
  }

  ghost predicate RenewTickStep(cfg: Config, s: State, s': State, id: Id) {
    && id in s.holders && s.holders[id].phase.Holding? && s.holders[id].proc in s.clock
    && var h := s.holders[id];
    && var p := h.phase;
    && p.renewing.None? && !p.stopped
    && var next := s.clock[h.proc] + cfg.duration;
    && if next > MaxExpiry(cfg, h)
       then s' == SetPhase(s, id, p.(stopped := true))
       else
         var req := Request(Renew, id, Some(p.version), p.rec.(expiresAt := next));
         s' == Send(SetPhase(s, id, p.(renewing := Some(req))), req)
  }

  ghost predicate RenewReplyStep(s: State, s': State, id: Id) {
    && id in s.holders && s.holders[id].phase.Holding? && s.holders[id].phase.renewing.Some?
    && var p := s.holders[id].phase;
    && p.renewing.value in s.net.replies
    && s' == SetPhase(s, id,
         match s.net.replies[p.renewing.value]
         case Ok(t) => p.(rec := p.renewing.value.rec, version := t, renewing := None)
         case Conflict => p.(lost := true, stopped := true, renewing := None))
  }

  /** Release waits for an in-flight renewal, then sends the conditional replace. */
  ghost predicate SendReleaseStep(s: State, s': State, id: Id) {
    && id in s.holders && s.holders[id].phase.Holding? && s.holders[id].proc in s.clock
    && var h := s.holders[id];
    && h.phase.renewing.None?
    && var req := Request(Release, id, Some(h.phase.version),
                          h.phase.rec.(status := ReleasedStatus, expiresAt := s.clock[h.proc]));
    && s' == Send(SetPhase(s, id, Releasing(req)), req)
  }

  ghost predicate ReleaseReplyStep(s: State, s': State, id: Id) {
    && id in s.holders && s.holders[id].phase.Releasing?
    && var req := s.holders[id].phase.req;
    && req in s.net.replies
    && s' == SetPhase(s, id, Done(if s.net.replies[req].Ok? then ReleasedOk else ReleaseConflict))
  }

  /** A call fails or its reply is lost; the request may still land. */
  ghost predicate GiveUpStep(s: State, s': State, id: Id) {
    && id in s.holders
    && match s.holders[id].phase
       case Acquiring(_) => s' == SetPhase(s, id, Done(Unknown))
       case Releasing(_) => s' == SetPhase(s, id, Done(Unknown))
       case Holding(rec, version, _, _, renewing) =>
         renewing.Some? && s' == SetPhase(s, id, Holding(rec, version, true, true, None))
       case _ => false
  }

  ghost predicate AbandonStep(s: State, s': State, id: Id) {
    && id in s.holders && (s.holders[id].phase.Looked? || s.holders[id].phase.Holding?)
    && s' == SetPhase(s, id, Done(Abandoned))
  }

  ghost predicate NextStep(cfg: Config, s: State, s': State, step: Step) {
    match step
    case Tick => TickStep(s, s')
    case Get(id, proc) => GetStep(s, s', id, proc)
    case Decide(id) => DecideStep(cfg, s, s', id)
    case Land(req, token) => LandStep(s, s', req, token)
    case AcquireReply(id) => AcquireReplyStep(s, s', id)
    case RenewTick(id) => RenewTickStep(cfg, s, s', id)
    case RenewReply(id) => RenewReplyStep(s, s', id)
    case SendRelease(id) => SendReleaseStep(s, s', id)
    case ReleaseReply(id) => ReleaseReplyStep(s, s', id)
    case GiveUp(id) => GiveUpStep(s, s', id)
    case Abandon(id) => AbandonStep(s, s', id)
  }

  ghost predicate Init(s: State) {
    s.net == Net(None, [], {}, map[]) && s.holders == map[]
  }
}
