/**
 Every history of CompactionLoss is a run of Database: the writes, the lost
 manifest PUT, the repair, the passes and their deletions are steps of attempts
 and of compaction, and so the TXIDs that compaction loses are acknowledged ones.
 */
module DatabaseLoss {
  import opened Wrappers
  import opened Levels
  import opened Database
  import opened DatabaseSafety
  import Passes = CompactionPass
  import DatabaseOrder
  import Loss = CompactionLoss

  type Replica = Loss.Replica

  /** The key of the write that becomes TXID t. */
  function KeyOf(t: nat): Key {
    seq(t, _ => 'k')
  }

  function Chunk(f: File): map<nat, Key> {
    map t: nat | f.min <= t <= f.max :: KeyOf(t)
  }

  /** Every file holds the mutations of its range. */
  function Chunks(files: set<File>): map<File, map<nat, Key>> {
    map f | f in files :: Chunk(f)
  }

  function View(n: nat): map<nat, Key> {
    map t: nat | 1 <= t <= n :: KeyOf(t)
  }

  // -------------------------------------------------------------------- runs

  /** Turns fire by the threshold; nothing is asked of what a landing PUT lists. */
  ghost predicate Paced(s: State, step: Step) {
    step.Land? || DatabaseOrder.Regular(Loss.THRESHOLD, s, step)
  }

  ghost predicate IsPacedRun(run: seq<State>, steps: seq<Step>) {
    IsRun(run, steps) && forall i :: 0 <= i < |steps| ==> Paced(run[i], steps[i])
  }

  ghost predicate EndsIn(run: seq<State>, steps: seq<Step>, s: State) {
    IsPacedRun(run, steps) && run[|steps|] == s
  }

  ghost predicate Reached(s: State) {
    exists run, steps :: EndsIn(run, steps, s)
  }

  lemma Go(s: State, s': State, step: Step)
    requires Reached(s) && NextStep(s, s', step) && Paced(s, step)
    ensures Reached(s')
  {
    var run, steps :| EndsIn(run, steps, s);
    var longer, more := run + [s'], steps + [step];
    forall i | 0 <= i < |more| ensures NextStep(longer[i], longer[i + 1], more[i]) && Paced(longer[i], more[i]) {
      if i < |steps| {
        assert longer[i] == run[i] && longer[i + 1] == run[i + 1] && more[i] == steps[i];
      } else {
        assert longer[i] == s && longer[i + 1] == s' && more[i] == step;
      }
    }
    assert EndsIn(longer, more, s');
  }

  // --------------------------------------------------------- twins of a replica

  function Man(r: Replica): Option<set<File>> {
    if r.manifest == {} then None else Some(r.manifest)
  }

  predicate Acknowledged(acks: seq<Acknowledgement>, t: nat) {
    exists i :: 0 <= i < |acks| && acks[i].txid == t && acks[i].key == KeyOf(t)
  }

  /** Every flushed TXID but the unsure ones is acknowledged. */
  ghost predicate Sure(s: State, r: Replica) {
    forall t :: 1 <= t <= r.flushed && t !in r.unsure ==> Acknowledged(s.acks, t)
  }

  /** No identifier from id on has been used. */
  ghost predicate Unused(s: State, id: Id) {
    && (forall k :: k in s.att ==> k < id)
    && (forall k :: k in s.d.tenants ==> k < id) && forall k :: k in s.d.released ==> k < id
  }

  /** A reachable state whose durable part is r; id is the next free identifier. */
  ghost predicate Twin(s: State, r: Replica, id: Id) {
    && Reached(s) && s.d.pass.Idle? && s.d.content == Chunks(r.store) && s.d.manifest == Man(r)
    && Sure(s, r) && Unused(s, id)
  }

  /** The same, in the middle of the attempt id, which holds the lease. */
  ghost predicate Here(s: State, id: Id, a: Attempt, r: Replica) {
    Twin(s, r, id + 1) && In(s, id) && s.att[id] == a && Tenant(s.d, id) && id !in s.d.released
  }

  // ----------------------------------------------------------------- attempts

  lemma Advance(s: State, id: Id, a: Attempt, a': Attempt, r: Replica, step: Step) returns (s': State)
    requires Here(s, id, a, r) && NextStep(s, s.(att := s.att[id := a']), step) && Paced(s, step)
    ensures Here(s', id, a', r)
  {
    s' := s.(att := s.att[id := a']);
    Go(s, s', step);
  }

  /** An attempt begins, acquires the lease and reads the manifest. */
  lemma Starts(s: State, id: Id, key: Key, r: Replica) returns (s': State)
    requires Twin(s, r, id)
    ensures Here(s', id, Attempt(key, Got(Man(r)), None), r)
  {
    var a := Attempt(key, Start, None);
    var s1 := s.(att := s.att[id := a]);
    Go(s, s1, Begin(id, key));
    var s2 := s1.(d := s1.d.(tenants := s1.d.tenants + [id]));
    Go(s1, s2, Grant(id));
    assert Here(s2, id, a, r);
    s' := Advance(s2, id, a, Attempt(key, Got(Man(r)), None), r, ReadManifest(id));
  }

  /** It fails and lets the lease go. */
  lemma Quits(s: State, id: Id, a: Attempt, r: Replica) returns (s': State)
    requires Here(s, id, a, r) && a.pending.None? && !a.phase.Acked?
    ensures Twin(s', r, id + 1)
  {
    var s1 := Advance(s, id, a, a.(phase := Failed), r, Fail(id));
    s' := s1.(d := s1.d.(released := s1.d.released + [id]));
    Go(s1, s', Free(id));
  }

  /** It lets the lease go and acknowledges its TXID. */
  lemma Finishes(s: State, id: Id, t: nat, r: Replica, r': Replica) returns (s': State)
    requires Here(s, id, Attempt(KeyOf(t), Ready(t, false), None), r)
    requires r == r'.(unsure := r'.unsure + {t})
    ensures Twin(s', r', id + 1)
  {
    var s1 := s.(d := s.d.(released := s.d.released + [id]));
    Go(s, s1, Free(id));
    var ack := Acknowledgement(id, KeyOf(t), t, false);
    s' := SetPhase(s1, id, Acked).(acks := s1.acks + [ack]);
    Go(s1, s', Ack(id));
    StaysSure(s.acks, ack);
    assert s'.acks[|s.acks|] == ack;
  }

  lemma StaysSure(acks: seq<Acknowledgement>, ack: Acknowledgement)
    ensures forall t :: Acknowledged(acks, t) ==> Acknowledged(acks + [ack], t)
  {
    forall t | Acknowledged(acks, t) ensures Acknowledged(acks + [ack], t) {
      var i :| 0 <= i < |acks| && acks[i].txid == t && acks[i].key == KeyOf(t);
      assert (acks + [ack])[i] == acks[i];
    }
  }

  // ------------------------------------------------------------------ flushing

  function AfterFlush(r: Replica): Replica {
    r.(store := r.store + {Loss.Tail(r.flushed + 1)}, flushed := r.flushed + 1, unsure := r.unsure + {r.flushed + 1})
  }

  lemma ChunksStep(files: set<File>, f: File)
    ensures Chunks(files)[f := Chunk(f)] == Chunks(files + {f})
  {
  }

  lemma TailChunk(t: nat)
    ensures Chunk(Loss.Tail(t)) == map[t := KeyOf(t)]
  {
  }

  /** What an openable replica is opened to. */
  lemma PlanReads(r: Replica)
    requires Loss.Openable(r)
    ensures Top(r.manifest) == r.flushed && Reads(Chunks(r.store), r.manifest, r.flushed, View(r.flushed))
    ensures r.manifest == {} ==> r.store == {}
  {
    if r.flushed > 0 {
      assert Covers(r.manifest, r.flushed);
    }
    forall t | t in View(r.flushed)
      ensures exists f :: f in r.manifest && f in Chunks(r.store) && t in Chunks(r.store)[f]
                       && Chunks(r.store)[f][t] == View(r.flushed)[t]
    {
      assert Covers(r.manifest, t);
      var f :| f in r.manifest && Has(f, t);
    }
  }

  lemma Opens(s: State, id: Id, key: Key, r: Replica) returns (s': State)
    requires Here(s, id, Attempt(key, Planned(Man(r)), None), r) && Loss.Openable(r)
    ensures Here(s', id, Attempt(key, Opened(Man(r), r.flushed, View(r.flushed)), None), r)
  {
    var n, man := r.flushed, Man(r);
    PlanReads(r);
    assert s.d.content.Keys == r.store;
    s' := Advance(s, id, Attempt(key, Planned(man), None), Attempt(key, Opened(man, n, View(n)), None), r,
                  Open(id, View(n)));
  }

  lemma Misses(s: State, id: Id, key: Key, man: Option<set<File>>, n: nat, r: Replica) returns (s': State)
    requires Here(s, id, Attempt(key, Opened(man, n, View(n)), None), r) && key == KeyOf(n + 1)
    ensures Here(s', id, Attempt(key, Flushing(man, n), Some(PutFile(n + 1, key))), r)
  {
    assert forall t :: t in View(n) ==> |View(n)[t]| == t && |key| == n + 1;
    s' := Advance(s, id, Attempt(key, Opened(man, n, View(n)), None),
                  Attempt(key, Flushing(man, n), Some(PutFile(n + 1, key))), r, Miss(id));
  }

  /** It opens the database, misses its key, and its new file lands. */
  lemma Flushes(s: State, id: Id, key: Key, r: Replica) returns (s': State)
    requires Here(s, id, Attempt(key, Planned(Man(r)), None), r) && Loss.Openable(r) && key == KeyOf(r.flushed + 1)
    ensures Here(s', id, Attempt(key, Flushed(Man(r), r.flushed + 1), None), AfterFlush(r))
  {
    var n, man := r.flushed, Man(r);
    var s1 := Opens(s, id, key, r);
    var s2 := Misses(s1, id, key, man, n, r);
    var s3 := FileLands(s2, id, man, r);
    s' := Advance(s3, id, Attempt(key, Flushing(man, n), None), Attempt(key, Flushed(man, n + 1), None),
                  AfterFlush(r), ConfirmFlush(id));
  }

  lemma FileLands(s: State, id: Id, man: Option<set<File>>, r: Replica) returns (s': State)
    requires var t := r.flushed + 1;
             Here(s, id, Attempt(KeyOf(t), Flushing(man, r.flushed), Some(PutFile(t, KeyOf(t)))), r)
    ensures Here(s', id, Attempt(KeyOf(r.flushed + 1), Flushing(man, r.flushed), None), AfterFlush(r))
  {
    var t := r.flushed + 1;
    s' := s.(d := s.d.(content := s.d.content[File(0, t, t) := map[t := KeyOf(t)]],
                       landed := s.d.landed + [Landing(id, KeyOf(t), t)]),
             att := s.att[id := s.att[id].(pending := None)]);
    Go(s, s', Land(id));
    TailChunk(t);
    ChunksStep(r.store, Loss.Tail(t));
  }

  // ------------------------------------------------------------ manifest PUTs

  lemma ManifestLands(s: State, id: Id, key: Key, files: set<File>, why: Why, r: Replica) returns (s': State)
    requires Here(s, id, Attempt(key, Putting(files, why), Some(PutManifest(files, why))), r) && files != {}
    ensures Here(s', id, Attempt(key, Putting(files, why), None), r.(manifest := files))
  {
    s' := s.(d := s.d.(manifest := Some(files), keep := Survivors(files, s.d)),
             att := s.att[id := s.att[id].(pending := None)]);
    Go(s, s', Land(id));
  }

  /** Its commit record lands. */
  lemma Indexes(s: State, id: Id, t: nat, r: Replica) returns (s': State)
    requires Here(s, id, Attempt(KeyOf(t), Flushed(Man(r), t), None), r) && r.manifest != {}
    ensures Here(s', id, Attempt(KeyOf(t), Ready(t, false), None), r.(manifest := r.manifest + {Loss.Tail(t)}))
  {
    var key, files := KeyOf(t), r.manifest + {Loss.Tail(t)};
    var s1 := Advance(s, id, Attempt(key, Flushed(Man(r), t), None),
                      Attempt(key, Putting(files, Index(t)), Some(PutManifest(files, Index(t)))), r, SendIndex(id));
    var s2 := ManifestLands(s1, id, key, files, Index(t), r);
    s' := Advance(s2, id, Attempt(key, Putting(files, Index(t)), None), Attempt(key, Ready(t, false), None),
                  r.(manifest := files), ConfirmPut(id));
  }

  function Below(files: set<File>, level: nat): set<File> {
    set f | f in files && f.level < level
  }

  /** The levels from level on are listed in turn. */
  lemma {:induction false} Scans(s: State, id: Id, key: Key, level: nat, why: Why, r: Replica) returns (s': State)
    requires level <= SNAPSHOT_LEVEL + 1
    requires Here(s, id, Attempt(key, Scanning(level, Below(r.store, level), why), None), r)
    ensures var all := Below(r.store, SNAPSHOT_LEVEL + 1);
            Here(s', id, Attempt(key, Scanning(SNAPSHOT_LEVEL + 1, all, why), None), r)
    decreases SNAPSHOT_LEVEL + 1 - level
  {
    if level == SNAPSHOT_LEVEL + 1 {
      s' := s;
    } else {
      assert s.d.content.Keys == r.store;
      assert Below(r.store, level) + LevelFiles(r.store, level) == Below(r.store, level + 1);
      var s1 := Advance(s, id, Attempt(key, Scanning(level, Below(r.store, level), why), None),
                        Attempt(key, Scanning(level + 1, Below(r.store, level + 1), why), None), r, ScanLevel(id));
      s' := Scans(s1, id, key, level + 1, why, r);
    }
  }

  /** A manifest rebuilt from the listing lands. */
  lemma Rebuilds(s: State, id: Id, key: Key, why: Why, n: nat, r: Replica) returns (s': State)
    requires Here(s, id, Attempt(key, Scanning(0, {}, why), None), r) && Within(r.store, n) && r.store != {}
    ensures Here(s', id, Attempt(key, Putting(r.store, why), None), r.(manifest := r.store))
  {
    assert Below(r.store, 0) == {} && Below(r.store, SNAPSHOT_LEVEL + 1) == r.store;
    var s1 := Scans(s, id, key, 0, why, r);
    var s2 := Advance(s1, id, Attempt(key, Scanning(SNAPSHOT_LEVEL + 1, r.store, why), None),
                      Attempt(key, Putting(r.store, why), Some(PutManifest(r.store, why))), r, SendRebuilt(id));
    s' := ManifestLands(s2, id, key, r.store, why, r);
  }

  // -------------------------------------------------------------- whole moves

  /** An attempt on an openable replica needs no repair. */
  lemma Plans(s: State, id: Id, key: Key, r: Replica) returns (s': State)
    requires Twin(s, r, id) && Loss.Openable(r)
    ensures Here(s', id, Attempt(key, Planned(Man(r)), None), r)
  {
    PlanReads(r);
    var s1 := Starts(s, id, key, r);
    assert s1.d.content.Keys == r.store;
    s' := Advance(s1, id, Attempt(key, Got(Man(r)), None), Attempt(key, Planned(Man(r)), None), r, Probe(id));
  }

  lemma Writes(s: State, id: Id, r: Replica, r': Replica) returns (s': State)
    requires Twin(s, r, id) && Loss.Moves(r, r', Loss.Write)
    ensures Twin(s', r', id + 1)
  {
    var t := r.flushed + 1;
    var s1 := Plans(s, id, KeyOf(t), r);
    var s2 := Flushes(s1, id, KeyOf(t), r);
    var s3: State;
    if r.manifest == {} {
      PlanReads(r);
      s3 := Migrates(s2, id, t, AfterFlush(r));
      assert AfterFlush(r).store == {Loss.Tail(t)} == r'.manifest;
    } else {
      s3 := Indexes(s2, id, t, AfterFlush(r));
    }
    s' := Finishes(s3, id, t, AfterFlush(r).(manifest := r'.manifest), r');
  }

  /** The first write of a database leaves its first manifest. */
  lemma Migrates(s: State, id: Id, t: nat, r: Replica) returns (s': State)
    requires Here(s, id, Attempt(KeyOf(t), Flushed(None, t), None), r) && r.store == {Loss.Tail(t)} && t >= 1
    ensures Here(s', id, Attempt(KeyOf(t), Ready(t, false), None), r.(manifest := r.store))
  {
    var key := KeyOf(t);
    var s1 := Advance(s, id, Attempt(key, Flushed(None, t), None), Attempt(key, Scanning(0, {}, Migrate(t)), None), r,
                      SendIndex(id));
    var s2 := Rebuilds(s1, id, key, Migrate(t), t, r);
    s' := Advance(s2, id, Attempt(key, Putting(r.store, Migrate(t)), None), Attempt(key, Ready(t, false), None),
                  r.(manifest := r.store), ConfirmPut(id));
  }

  /** A writer that dies after its file landed. */
  lemma OnlyFlushes(s: State, id: Id, r: Replica, r': Replica) returns (s': State)
    requires Twin(s, r, id) && Loss.Moves(r, r', Loss.Flush)
    ensures Twin(s', r', id + 1)
  {
    var t := r.flushed + 1;
    var s1 := Plans(s, id, KeyOf(t), r);
    var s2 := Flushes(s1, id, KeyOf(t), r);
    s' := Quits(s2, id, Attempt(KeyOf(t), Flushed(Man(r), t), None), r');
  }

  /** A writer that finds the tail, repairs the manifest and dies. */
  lemma Repairs(s: State, id: Id, r: Replica, r': Replica) returns (s': State)
    requires Twin(s, r, id) && Loss.Moves(r, r', Loss.Repair)
    ensures Twin(s', r', id + 1)
  {
    var key, n := KeyOf(0), r.flushed;
    var s1 := Starts(s, id, key, r);
    assert s1.d.content.Keys == r.store;
    assert Loss.Tail(n) in LevelFiles(r.store, 0);
    var s2 := Advance(s1, id, Attempt(key, Got(Man(r)), None), Attempt(key, Scanning(0, {}, Tail), None), r, Probe(id));
    var s3 := Rebuilds(s2, id, key, Tail, n, r);
    s' := Quits(s3, id, Attempt(key, Putting(r.store, Tail), None), r');
  }

  // ------------------------------------------------------------------- passes

  /** A pass over r's manifest, before its turn at level lvl. */
  ghost predicate Turning(s: State, r: Replica, id: Id, lvl: nat, merged: set<File>, sources: set<File>) {
    && Reached(s) && s.d.pass.Merging? && s.d.pass.snap == r.manifest && s.d.pass.lvl == lvl
    && s.d.pass.merged == merged && s.d.pass.sources == sources
    && s.d.content == Chunks(r.store + merged) && s.d.manifest == Man(r) && Sure(s, r) && Unused(s, id)
    && forall f :: f in sources ==> f.level < lvl
  }

  lemma ChunkMerges(files: set<File>, cs: set<File>, l: nat, info: File)
    requires cs <= files && IsMerge(info, cs, l) && forall t :: Has(info, t) ==> Covers(cs, t)
    ensures MergesData(Chunks(files), cs, Chunk(info))
  {
    forall t | t in Chunk(info)
      ensures exists c :: c in cs && c in Chunks(files) && t in Chunks(files)[c]
                       && Chunks(files)[c][t] == Chunk(info)[t]
    {
      assert Covers(cs, t);
      var c :| c in cs && Has(c, t);
      assert c in Chunks(files);
    }
  }

  lemma MergeTurn(s: State, r: Replica, id: Id, l: nat, merged: set<File>, sources: set<File>, info: File)
      returns (s': State)
    requires 1 <= l <= TOP_LEVEL && Turning(s, r, id, l, merged, sources) && r.manifest <= r.store
    requires var x := r.manifest + merged;
             && Passes.Fires(x, Loss.THRESHOLD, l) && IsMerge(info, Candidates(x, l), l) && Loss.NoHole(x, info)
    ensures var gone := Gone((r.manifest + merged) - sources, info);
            Turning(s', r, id, l + 1, merged + {info}, sources + gone)
  {
    var x, p := r.manifest + merged, s.d.pass;
    var gone := Gone(x - sources, info);
    ChunkMerges(r.store + merged, Candidates(x, l), l, info);
    assert s.d.content.Keys == r.store + merged;
    s' := s.(d := s.d.(content := s.d.content[info := Chunk(info)],
                       pass := Merging(p.snap, p.lvl + 1, p.merged + {info}, p.sources + gone,
                                       (p.kept - gone) + {info})));
    Go(s, s', PassMerge(info, Chunk(info)));
    ChunksStep(r.store + merged, info);
    assert r.store + merged + {info} == r.store + (merged + {info});
  }

  lemma SkipTurn(s: State, r: Replica, id: Id, l: nat, merged: set<File>, sources: set<File>) returns (s': State)
    requires 1 <= l <= TOP_LEVEL && Turning(s, r, id, l, merged, sources)
    requires !Passes.Fires(r.manifest + merged, Loss.THRESHOLD, l)
    ensures Turning(s', r, id, l + 1, merged, sources)
  {
    s' := s.(d := s.d.(pass := s.d.pass.(lvl := s.d.pass.lvl + 1)));
    Go(s, s', PassSkip);
  }

  lemma NextActive(snap: set<File>, merged: set<File>, sources: set<File>, info: File)
    requires forall f :: f in sources ==> f.level < info.level
    ensures var u := (snap + merged) - sources;
            After(u, info) == (snap + (merged + {info})) - (sources + Gone(u, info))
  {
  }

  lemma Unfolds(u: set<File>, merged: set<File>, sources: set<File>, ms: seq<File>)
    requires ms != []
    ensures merged + {ms[0]} + Passes.AsSet(ms[1..]) == merged + Passes.AsSet(ms)
    ensures sources + Gone(u, ms[0]) + Passes.Sources(After(u, ms[0]), ms[1..]) == sources + Passes.Sources(u, ms)
  {
    Passes.AsSetCons(ms);
  }

  /** The turns from level l on make the merges ms. */
  lemma {:induction false} Turns(s: State, r: Replica, id: Id, l: nat, merged: set<File>, sources: set<File>,
                                 ms: seq<File>)
      returns (s': State)
    requires 1 <= l <= TOP_LEVEL + 1 && Turning(s, r, id, l, merged, sources) && r.manifest <= r.store
    requires Passes.IsPass(r.manifest + merged, Loss.THRESHOLD, l, ms) && Loss.Seamless(r.manifest + merged, ms)
    ensures var rest := Passes.Sources((r.manifest + merged) - sources, ms);
            Turning(s', r, id, TOP_LEVEL + 1, merged + Passes.AsSet(ms), sources + rest)
    decreases TOP_LEVEL + 1 - l
  {
    var x := r.manifest + merged;
    if l == TOP_LEVEL + 1 {
      s' := s;
      assert merged + Passes.AsSet([]) == merged && sources + {} == sources;
    } else if Passes.Fires(x, Loss.THRESHOLD, l) {
      var info, gone := ms[0], Gone(x - sources, ms[0]);
      var s1 := MergeTurn(s, r, id, l, merged, sources, info);
      assert x + {info} == r.manifest + (merged + {info});
      NextActive(r.manifest, merged, sources, info);
      s' := Turns(s1, r, id, l + 1, merged + {info}, sources + gone, ms[1..]);
      Unfolds(x - sources, merged, sources, ms);
    } else {
      var s1 := SkipTurn(s, r, id, l, merged, sources);
      s' := Turns(s1, r, id, l + 1, merged, sources, ms);
    }
  }

  /** The delta is published under the lease. */
  ghost predicate Deleting(s: State, r: Replica, id: Id, sources: set<File>) {
    && Reached(s) && s.d.pass == Published(sources) && s.d.content == Chunks(r.store) && s.d.manifest == Man(r)
    && Sure(s, r) && Unused(s, id)
  }

  lemma Publishes(s: State, r: Replica, id: Id, merged: set<File>, sources: set<File>) returns (s': State)
    requires Turning(s, r, id, TOP_LEVEL + 1, merged, sources) && merged != {} && r.manifest != {}
    ensures Deleting(s', r.(manifest := (r.manifest - sources) + merged, store := r.store + merged), id + 1, sources)
  {
    var s1 := s.(d := s.d.(tenants := s.d.tenants + [id]));
    Go(s, s1, Grant(id));
    var p, final := s1.d.pass, (r.manifest - sources) + merged;
    var s2 := s1.(d := s1.d.(pass := Sent(id, p.snap, p.merged, p.sources, p.kept, final, false)));
    Go(s1, s2, PassSend(id));
    s' := s2.(d := s2.d.(manifest := Some(final), pass := Published(sources),
                         keep := Survivors(final, s2.d.(pass := Published(sources)))));
    Go(s2, s', PassLand);
    assert final != {};
  }

  lemma {:induction false} Deletes(s: State, r: Replica, id: Id, sources: set<File>, deleted: set<File>)
      returns (s': State)
    requires Deleting(s, r, id, sources) && deleted <= sources
    ensures Deleting(s', r.(store := r.store - deleted), id, sources)
    decreases |deleted|
  {
    if deleted == {} {
      s' := s;
      assert r.store - deleted == r.store;
    } else {
      var f :| f in deleted;
      var s1 := s.(d := s.d.(content := s.d.content - {f}));
      Go(s, s1, DeleteOne(f));
      assert s1.d.content == Chunks(r.store - {f});
      s' := Deletes(s1, r.(store := r.store - {f}), id, sources, deleted - {f});
      assert r.store - {f} - (deleted - {f}) == r.store - deleted;
    }
  }

  lemma Compacts(s: State, id: Id, r: Replica, r': Replica, ms: seq<File>, deleted: set<File>) returns (s': State)
    requires Twin(s, r, id) && Loss.Moves(r, r', Loss.Compact(ms, deleted))
    ensures Twin(s', r', id + 1)
  {
    var none: set<File> := {};
    var s1 := s.(d := s.d.(pass := Merging(r.manifest, 1, none, none, s.d.keep)));
    Go(s, s1, PassStart);
    assert r.manifest + none == r.manifest && r.manifest - none == r.manifest && r.store + none == r.store;
    var s2 := Turns(s1, r, id, 1, none, none, ms);
    var merged, sources := Passes.AsSet(ms), Passes.Sources(r.manifest, ms);
    assert none + merged == merged && none + sources == sources && ms[0] in merged;
    var s3 := Publishes(s2, r, id, merged, sources);
    var r3 := r.(manifest := (r.manifest - sources) + merged, store := r.store + merged);
    var s4 := Deletes(s3, r3, id + 1, sources, deleted);
    s' := s4.(d := s4.d.(pass := Idle));
    Go(s4, s', PassEnd);
  }

  // ----------------------------------------------------------------- histories

  lemma Moved(s: State, id: Id, r: Replica, r': Replica, move: Loss.Move) returns (s': State)
    requires Twin(s, r, id) && Loss.Moves(r, r', move)
    ensures Twin(s', r', id + 1)
  {
    match move
    case Write => s' := Writes(s, id, r, r');
    case Flush => s' := OnlyFlushes(s, id, r, r');
    case Repair => s' := Repairs(s, id, r, r');
    case Compact(ms, deleted) => s' := Compacts(s, id, r, r', ms, deleted);
  }

  /** Every history is a run, in which every write that did not die is acknowledged. */
  lemma {:induction false} HistoryRuns(h: Loss.History) returns (s: State, id: Id)
    requires Loss.IsHistory(h)
    ensures Twin(s, Loss.End(h), id)
  {
    match h
    case Empty =>
      s, id := State(Durable(map[], None, {}, [], Idle, [], []), map[], []), 0;
      assert EndsIn([s], [], s);
    case Then(before, move, r) =>
      s, id := HistoryRuns(before);
      s := Moved(s, id, Loss.End(before), r, move);
      id := id + 1;
  }

  /** TXID t is acknowledged, and no stored object and no listed file holds it. */
  ghost predicate Lost(s: State, t: nat) {
    && Acknowledged(s.acks, t) && (forall f :: f in s.d.content ==> t !in s.d.content[f])
    && s.d.manifest.Some? && !Covers(s.d.manifest.value, t)
  }

  /**
   There is a run, with every turn decided by the threshold, after which two
   acknowledged TXIDs are gone from the store and from the manifest.
   */
  lemma AcknowledgedWritesAreLost()
    ensures exists run, steps :: IsPacedRun(run, steps) && Lost(run[|steps|], 22) && Lost(run[|steps|], 23)
  {
    Loss.CompactionLosesTxids();
    var r := Loss.Replica(Loss.ENDING + {File(1, 32, 35)}, Loss.ENDING, 35, {21});
    var h :| Loss.IsHistory(h) && Loss.End(h) == r;
    var s, id := HistoryRuns(h);
    AreLost(s, r, id, 22);
    AreLost(s, r, id, 23);
    var run, steps :| EndsIn(run, steps, s);
    assert IsPacedRun(run, steps);
  }

  lemma AreLost(s: State, r: Replica, id: Id, t: nat)
    requires Twin(s, r, id) && 1 <= t <= r.flushed && t !in r.unsure && r.manifest != {}
    requires !Covers(r.manifest, t) && !Covers(r.store, t)
    ensures Lost(s, t)
  {
    forall f | f in s.d.content ensures t !in s.d.content[f] {
      assert f in r.store;
    }
  }
}
