/**
 The in-memory lease store and the manager's calls on it, one call at a time.
 Lease splits each call into a send, a decision and a reply; the Run lemmas
 below show that a call made in one go is a run of those steps.

 Tokens come from outside and are new to the store; lease IDs are fresh values.
 */
module LeaseStore {
  import opened Wrappers
  import opened Lease

  type Key = nat

  datatype GetResult = NotFound | Found(rec: Record, token: Token)

  datatype PutResult = Stored(token: Token) | AlreadyExists | Missing | TokenConflict

  function At(objects: map<Key, Object>, key: Key): Option<Object> {
    if key in objects then Some(objects[key]) else None
  }

  /** One key's object after a conditional write. */
  function Decided(store: Option<Object>, expected: Option<Token>, rec: Record, token: Token): Option<Object> {
    if Matches(store, expected) then Some(Object(rec, token)) else store
  }

  class MemoryStore {
    var objects: map<Key, Object>
    ghost var minted: set<Token>

    ghost predicate Valid()
      reads this
    {
      forall k :: k in objects ==> objects[k].token in minted
    }

    constructor ()
      ensures Valid() && objects == map[] && minted == {}
    {
      objects, minted := map[], {};
    }

    method Get(key: Key) returns (r: GetResult)
      ensures r == if key in objects then Found(objects[key].rec, objects[key].token) else NotFound
    {
      if key !in objects {
        return NotFound;
      }
      return Found(objects[key].rec, objects[key].token);
    }

    method CreateIfAbsent(key: Key, rec: Record, token: Token) returns (r: PutResult)
      requires Valid() && token !in minted
      modifies this
      ensures Valid() && minted == old(minted) + {token}
      ensures key !in old(objects) ==> r == Stored(token) && objects == old(objects)[key := Object(rec, token)]
      ensures key in old(objects) ==> r == AlreadyExists && objects == old(objects)
    {
      minted := minted + {token};
      if key in objects {
        return AlreadyExists;
      }
      objects := objects[key := Object(rec, token)];
      return Stored(token);
    }

    /** A token the store no longer holds never matches again, since each write mints a new one. */
    method ReplaceIfToken(key: Key, expected: Token, rec: Record, token: Token) returns (r: PutResult)
      requires Valid() && token !in minted
      modifies this
      ensures Valid() && minted == old(minted) + {token}
      ensures r.Stored? <==> key in old(objects) && old(objects)[key].token == expected
      ensures r.Stored? ==> r.token == token && objects == old(objects)[key := Object(rec, token)]
      ensures !r.Stored? ==> objects == old(objects)
      ensures r == Missing <==> key !in old(objects)
      ensures r.Stored? && expected in old(minted) ==> objects[key].token != expected
    {
      minted := minted + {token};
      if key !in objects {
        return Missing;
      }
      if objects[key].token != expected {
        return TokenConflict;
      }
      objects := objects[key := Object(rec, token)];
      return Stored(token);
    }
  }

  /** An acquired lease: what the holder believes, and whether it may still believe it. */
  class Held {
    const key: Key
    const maxExpiry: int
    var record: Record
    var version: Token
    var lost: bool
    var stopped: bool

    constructor (key: Key, record: Record, version: Token, duration: nat)
      ensures this.key == key && this.record == record && this.version == version && !lost && !stopped
      ensures maxExpiry == record.expiresAt + 2 * duration
    {
      this.key, this.record, this.version, lost, stopped := key, record, version, false, false;
      maxExpiry := record.expiresAt + 2 * duration;
    }
  }

  /** Absent, released, or expired before the time given. */
  ghost predicate Takeable(o: Option<Object>, before: int) {
    o.None? || o.value.rec.status.ReleasedStatus? || o.value.rec.expiresAt < before
  }

  /** The holder's view is what the store holds. */
  ghost predicate Owns(held: Held, store: MemoryStore)
    reads held, store
  {
    At(store.objects, held.key) == Some(Object(held.record, held.version))
  }

  /** Acquires exactly when the record is absent, released or safely expired, and then raises the epoch by one. */
  method AcquireOnce(store: MemoryStore, key: Key, cfg: Config, proc: Proc, id: Id, now: int, token: Token)
    returns (held: Held?)
    requires store.Valid() && token !in store.minted
    modifies store
    ensures store.Valid()
    ensures held != null <==>
              || key !in old(store.objects)
              || old(store.objects)[key].rec.status.ReleasedStatus?
              || old(store.objects)[key].rec.expiresAt < now - cfg.skew
    ensures held == null ==> store.objects == old(store.objects)
    ensures At(store.objects, key) == AfterAcquire(cfg, At(old(store.objects), key), proc, id, now, token)
    ensures held != null ==>
              && fresh(held) && held.key == key && Owns(held, store) && !held.lost && !held.stopped
              && held.version == token && held.maxExpiry == now + 3 * cfg.duration
              && var epoch := if key in old(store.objects) then old(store.objects)[key].rec.epoch else 0;
              && held.record == NewRecord(cfg, proc, id, epoch, now)
    ensures forall k :: k != key ==> At(store.objects, k) == At(old(store.objects), k)
  {
    held := null;
    var seen := store.Get(key);
    match seen
    case NotFound =>
      var rec := NewRecord(cfg, proc, id, 0, now);
      var r := store.CreateIfAbsent(key, rec, token);
      if r.Stored? {
        held := new Held(key, rec, r.token, cfg.duration);
      }
    case Found(old', version) =>
      if old'.status.HeldStatus? && !SafelyExpired(cfg, old', now) {
        return;
      }
      var rec := NewRecord(cfg, proc, id, old'.epoch, now);
      var r := store.ReplaceIfToken(key, version, rec, token);
      if r.Stored? {
        held := new Held(key, rec, r.token, cfg.duration);
      }
  }

  /** The stored token is the holder's. */
  predicate Current(objects: map<Key, Object>, key: Key, version: Token) {
    key in objects && objects[key].token == version
  }

  /**
   One tick of the renewal loop; reachable is false when the store cannot be
   asked.  Past the cap renewal ends; before it, the lease is renewed, or it is
   lost: exactly when the token has moved or the store did not answer.
   */
  method RenewTick(store: MemoryStore, held: Held, cfg: Config, now: int, token: Token, reachable: bool)
    requires store.Valid() && token !in store.minted && !held.stopped
    modifies store, held
    ensures store.Valid()
    ensures now + cfg.duration <= held.maxExpiry && reachable && old(Current(store.objects, held.key, held.version)) ==>
              && held.record == old(held.record).(expiresAt := now + cfg.duration) && held.version == token
              && At(store.objects, held.key) == Some(Object(held.record, token))
              && held.lost == old(held.lost) && !held.stopped
    ensures !(now + cfg.duration <= held.maxExpiry && reachable && old(Current(store.objects, held.key, held.version)))
            ==>
              && store.objects == old(store.objects)
              && held.record == old(held.record) && held.version == old(held.version)
              && held.stopped
    ensures held.lost <==>
              || old(held.lost)
              || (&& now + cfg.duration <= held.maxExpiry
                  && (!reachable || !old(Current(store.objects, held.key, held.version))))
    ensures forall k :: k != held.key ==> At(store.objects, k) == At(old(store.objects), k)
  {
    var next := now + cfg.duration;
    if next > held.maxExpiry {
      held.stopped := true;
      return;
    }
    if !reachable {
      held.lost, held.stopped := true, true;
      return;
    }
    var rec := held.record.(expiresAt := next);
    var r := store.ReplaceIfToken(held.key, held.version, rec, token);
    if r.Stored? {
      held.record := rec;
      held.version := r.token;
    } else {
      held.lost, held.stopped := true, true;
    }
  }

  /** Releases only a lease whose token is still the stored one; a stale holder changes nothing. */
  method Release(store: MemoryStore, held: Held, now: int, token: Token) returns (ok: bool)
    requires store.Valid() && token !in store.minted
    modifies store, held`stopped
    ensures store.Valid() && held.stopped
    ensures ok <==> Current(old(store.objects), held.key, held.version)
    ensures !ok ==> store.objects == old(store.objects)
    ensures ok ==> At(store.objects, held.key) ==
                   Some(Object(held.record.(status := ReleasedStatus, expiresAt := now), token))
    ensures forall k :: k != held.key ==> At(store.objects, k) == At(old(store.objects), k)
  {
    held.stopped := true;
    var rec := held.record.(status := ReleasedStatus, expiresAt := now);
    var r := store.ReplaceIfToken(held.key, held.version, rec, token);
    ok := r.Stored?;
  }

  // ------------------------------------------------- the calls as lease steps

  /** The stored object after an uninterrupted attempt to acquire. */
  function AfterAcquire(cfg: Config, o: Option<Object>, proc: Proc, id: Id, now: int, token: Token): Option<Object> {
    if o.None? then Some(Object(NewRecord(cfg, proc, id, 0, now), token))
    else if o.value.rec.status.HeldStatus? && !SafelyExpired(cfg, o.value.rec, now) then o
    else Some(Object(NewRecord(cfg, proc, id, o.value.rec.epoch, now), token))
  }

  /**
   AcquireOnce is get, decide, land and reply in one go: they lead from a lease
   whose cell is the store's to one whose cell is what AcquireOnce leaves, and
   the attempt holds exactly what AcquireOnce returns.
   */
  lemma AcquireRuns(cfg: Config, s: State, id: Id, proc: Proc, token: Token)
    requires id !in s.holders && proc in s.clock && FreshToken(s.net.log, token)
    ensures var now := s.clock[proc];
            var o' := AfterAcquire(cfg, s.net.store, proc, id, now, token);
            exists s' ::
              && Acquires(cfg, s, s', id, proc, token) && s'.net.store == o'
              && s'.holders[id].phase == (if Takeable(s.net.store, now - cfg.skew)
                                          then Holding(o'.value.rec, token, false, false, None) else Done(Busy))
  {
    var now := s.clock[proc];
    var s1 := s.(holders := s.holders[id := Holder(proc, 0, Looked(s.net.store))]);
    assert GetStep(s, s1, id, proc);
    if !Takeable(s.net.store, now - cfg.skew) {
      var s2 := SetPhase(s1, id, Done(Busy));
      assert DecideStep(cfg, s1, s2, id);
      assert Acquires(cfg, s, s2, id, proc, token);
    } else {
      var expected := if s.net.store.None? then None else Some(s.net.store.value.token);
      var epoch := if s.net.store.None? then 0 else s.net.store.value.rec.epoch;
      var req := Request(Acquire, id, expected, NewRecord(cfg, proc, id, epoch, now));
      var s2 := Send(s1.(holders := s1.holders[id := Holder(proc, now, Acquiring(req))]), req);
      assert DecideStep(cfg, s1, s2, id);
      var s3 := Accepted(s2, req, token);
      assert LandStep(s2, s3, req, token);
      var s4 := SetPhase(s3, id, Holding(req.rec, token, false, false, None));
      assert AcquireReplyStep(s3, s4, id);
      assert Acquires(cfg, s, s4, id, proc, token);
    }
  }

  /** The state after the store accepts a request. */
  function Accepted(s: State, req: Request, token: Token): State {
    s.(net := Net(Some(Object(req.rec, token)), s.net.log + [Event(req.kind, req.id, req.rec, token)],
                  s.net.wire - {req}, s.net.replies[req := Ok(token)]))
  }

  /** Get, decide, and if the record was takeable land and reply, with nothing in between. */
  ghost predicate Acquires(cfg: Config, s: State, s': State, id: Id, proc: Proc, token: Token) {
    exists s1, s2 ::
      && GetStep(s, s1, id, proc) && DecideStep(cfg, s1, s2, id)
      && (s' == s2 || exists s3, req :: LandStep(s2, s3, req, token) && AcquireReplyStep(s3, s', id))
  }

  /** A renewal of a lease whose token is still stored is tick, land and reply in one go. */
  lemma RenewRuns(cfg: Config, s: State, id: Id, token: Token)
    requires id in s.holders && s.holders[id].phase.Holding? && s.holders[id].proc in s.clock
    requires s.holders[id].phase.renewing.None? && !s.holders[id].phase.stopped && FreshToken(s.net.log, token)
    requires s.clock[s.holders[id].proc] + cfg.duration <= s.holders[id].asked + 3 * cfg.duration
    ensures var h := s.holders[id];
            var rec := h.phase.rec.(expiresAt := s.clock[h.proc] + cfg.duration);
            var ok := Matches(s.net.store, Some(h.phase.version));
            exists s1, s2, s', req ::
              && RenewTickStep(cfg, s, s1, id) && LandStep(s1, s2, req, token) && RenewReplyStep(s2, s', id)
              && s'.net.store == Decided(s.net.store, Some(h.phase.version), rec, token)
              && s'.holders[id].phase == (if ok then Holding(rec, token, h.phase.lost, false, None)
                                          else Holding(h.phase.rec, h.phase.version, true, true, None))
  {
    var h := s.holders[id];
    var p := h.phase;
    var req := Request(Renew, id, Some(p.version), p.rec.(expiresAt := s.clock[h.proc] + cfg.duration));
    var s1 := Send(SetPhase(s, id, p.(renewing := Some(req))), req);
    assert RenewTickStep(cfg, s, s1, id);
    if Matches(s.net.store, Some(p.version)) {
      var s2 := Accepted(s1, req, token);
      assert LandStep(s1, s2, req, token);
      var s3 := SetPhase(s2, id, Holding(req.rec, token, p.lost, false, None));
      assert RenewReplyStep(s2, s3, id);
    } else {
      var s2 := Refused(s1, req);
      assert LandStep(s1, s2, req, token);
      var s3 := SetPhase(s2, id, Holding(p.rec, p.version, true, true, None));
      assert RenewReplyStep(s2, s3, id);
    }
  }

  function Refused(s: State, req: Request): State {
    s.(net := s.net.(wire := s.net.wire - {req}, replies := s.net.replies[req := Conflict]))
  }

  /** Release is send, land and reply in one go. */
  lemma ReleaseRuns(cfg: Config, s: State, id: Id, token: Token)
    requires id in s.holders && s.holders[id].phase.Holding? && s.holders[id].proc in s.clock
    requires s.holders[id].phase.renewing.None? && FreshToken(s.net.log, token)
    ensures var h := s.holders[id];
            var rec := h.phase.rec.(status := ReleasedStatus, expiresAt := s.clock[h.proc]);
            var ok := Matches(s.net.store, Some(h.phase.version));
            exists s1, s2, s', req ::
              && SendReleaseStep(s, s1, id) && LandStep(s1, s2, req, token) && ReleaseReplyStep(s2, s', id)
              && s'.net.store == Decided(s.net.store, Some(h.phase.version), rec, token)
              && s'.holders[id].phase == Done(if ok then ReleasedOk else ReleaseConflict)
  {
    var h := s.holders[id];
    var req := Request(Kind.Release, id, Some(h.phase.version),
                       h.phase.rec.(status := ReleasedStatus, expiresAt := s.clock[h.proc]));
    var s1 := Send(SetPhase(s, id, Releasing(req)), req);
    assert SendReleaseStep(s, s1, id);
    if Matches(s.net.store, Some(h.phase.version)) {
      var s2 := Accepted(s1, req, token);
      assert LandStep(s1, s2, req, token);
      assert ReleaseReplyStep(s2, SetPhase(s2, id, Done(ReleasedOk)), id);
    } else {
      var s2 := Refused(s1, req);
      assert LandStep(s1, s2, req, token);
      assert ReleaseReplyStep(s2, SetPhase(s2, id, Done(ReleaseConflict)), id);
    }
  }
}
