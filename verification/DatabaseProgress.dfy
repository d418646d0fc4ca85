/**
 What an attempt can always do by itself.  A retry of a key it finds is
 acknowledged with the TXID where the key sits, and a write in any reachable
 state of a sound run can be carried through to its acknowledgement, whatever
 the other attempts and the pass have left behind.
 */
module DatabaseProgress {
  import opened Wrappers
  import opened Levels
  import opened Database
  import opened DatabaseInvariant
  import opened DatabaseSafety
  import opened DatabaseDurability

  // ------------------------------------------------------------------- paths

  /** A step of attempt id between its first read and its release, with no failure and nothing given up. */
  predicate Inner(step: Step, id: Id) {
    match step
    case Probe(i) => i == id
    case ScanLevel(i) => i == id
    case SendRebuilt(i) => i == id
    case Open(i, _) => i == id
    case Hit(i, _) => i == id
    case Miss(i) => i == id
    case ConfirmFlush(i) => i == id
    case SendIndex(i) => i == id
    case ConfirmPut(i) => i == id
    case DedupRead(i) => i == id
    case Land(i) => i == id
    case _ => false
  }

  /** The steps around them. */
  predicate Outer(step: Step, id: Id) {
    match step
    case Begin(i, _) => i == id
    case Grant(i) => i == id
    case ReadManifest(i) => i == id
    case Free(i) => i == id
    case Ack(i) => i == id
    case _ => false
  }

  /** A step of attempt id; whole allows the outer ones. */
  predicate Own(step: Step, id: Id, whole: bool) {
    Inner(step, id) || (whole && Outer(step, id))
  }

  ghost predicate IsPath(run: seq<State>, steps: seq<Step>, id: Id, whole: bool) {
    && |run| == |steps| + 1
    && forall i :: 0 <= i < |steps| ==> NextStep(run[i], run[i + 1], steps[i]) && Own(steps[i], id, whole)
  }

  ghost predicate Joins(run: seq<State>, steps: seq<Step>, s: State, s': State, id: Id, whole: bool) {
    IsPath(run, steps, id, whole) && run[0] == s && run[|steps|] == s'
  }

  /** Attempt id alone leads from s to s'. */
  ghost predicate Leads(s: State, s': State, id: Id, whole: bool) {
    exists run, steps :: Joins(run, steps, s, s', id, whole)
  }

  lemma Stay(s: State, id: Id, whole: bool)
    ensures Leads(s, s, id, whole)
  {
    assert Joins([s], [], s, s, id, whole);
  }

  lemma Go(s: State, s1: State, s2: State, id: Id, whole: bool, step: Step)
    requires Leads(s, s1, id, whole) && NextStep(s1, s2, step) && Own(step, id, whole)
    ensures Leads(s, s2, id, whole)
  {
    var run, steps :| Joins(run, steps, s, s1, id, whole);
    var longer, more := run + [s2], steps + [step];
    forall i | 0 <= i < |more| ensures NextStep(longer[i], longer[i + 1], more[i]) && Own(more[i], id, whole) {
      if i < |steps| {
        assert longer[i] == run[i] && longer[i + 1] == run[i + 1] && more[i] == steps[i];
      } else {
        assert longer[i] == s1 && longer[i + 1] == s2 && more[i] == step;
      }
    }
    assert Joins(longer, more, s, s2, id, whole);
  }

  /** An inner path goes on where a whole one has got to. */
  lemma {:induction false} Append(s: State, run: seq<State>, steps: seq<Step>, id: Id, i: nat)
    requires IsPath(run, steps, id, false) && i <= |steps| && Leads(s, run[0], id, true)
    ensures Leads(s, run[i], id, true)
  {
    if i > 0 {
      Append(s, run, steps, id, i - 1);
      Go(s, run[i - 1], run[i], id, true, steps[i - 1]);
    }
  }

  lemma GoesOn(s: State, s1: State, s2: State, id: Id)
    requires Leads(s, s1, id, true) && Leads(s1, s2, id, false)
    ensures Leads(s, s2, id, true)
  {
    var run, steps :| Joins(run, steps, s1, s2, id, false);
    Append(s, run, steps, id, |steps|);
  }

  lemma {:induction false} PathKeeps(run: seq<State>, steps: seq<Step>, id: Id, whole: bool, i: nat)
    requires IsPath(run, steps, id, whole) && Inv(run[0]) && Complete(run[0].d) && i <= |steps|
    ensures Inv(run[i]) && Complete(run[i].d)
  {
    if i > 0 {
      PathKeeps(run, steps, id, whole, i - 1);
      NextKeeps(run[i - 1], run[i], steps[i - 1]);
      NextComplete(run[i - 1], run[i], steps[i - 1]);
    }
  }

  lemma LeadsKeeps(s: State, s': State, id: Id, whole: bool)
    requires Leads(s, s', id, whole) && Inv(s) && Complete(s.d)
    ensures Inv(s') && Complete(s'.d)
  {
    var run, steps :| Joins(run, steps, s, s', id, whole);
    PathKeeps(run, steps, id, whole, |steps|);
  }

  // ------------------------------------------------------------ single moves

  /** On the way from s0: attempt id, the last acquirer, is at a, and the durable state is d. */
  ghost predicate Here(s0: State, s: State, id: Id, a: Attempt, d: Durable) {
    && Leads(s0, s, id, false) && In(s, id) && s.att[id] == a && s.d == d && s.acks == s0.acks
    && Tenant(d, id) && id !in d.released
  }

  lemma Advance(s0: State, s: State, id: Id, a: Attempt, a': Attempt, d: Durable, step: Step) returns (s': State)
    requires Here(s0, s, id, a, d) && NextStep(s, s.(att := s.att[id := a']), step) && Inner(step, id)
    ensures Here(s0, s', id, a', d)
  {
    s' := s.(att := s.att[id := a']);
    Go(s0, s, s', id, false, step);
  }

  /** It lets the lease go and acknowledges. */
  lemma Finishes(s: State, s0: State, s1: State, id: Id, key: Key, t: nat, dedup: bool, d: Durable) returns (s': State)
    requires Leads(s, s0, id, true) && Here(s0, s1, id, Attempt(key, Ready(t, dedup), None), d)
    ensures Leads(s, s', id, true) && s'.d == d.(released := d.released + [id])
    ensures s'.acks == s0.acks + [Acknowledgement(id, key, t, dedup)]
  {
    GoesOn(s, s0, s1, id);
    var s2 := s1.(d := d.(released := d.released + [id]));
    Go(s, s1, s2, id, true, Free(id));
    s' := SetPhase(s2, id, Acked).(acks := s2.acks + [Acknowledgement(id, key, t, dedup)]);
    Go(s, s2, s', id, true, Ack(id));
  }

  // ------------------------------------------------------- rebuilt manifests

  function Below(files: set<File>, level: nat): set<File> {
    set f | f in files && f.level < level
  }

  /** What a listing of the levels 0 to 9 finds. */
  function Listed(content: map<File, map<nat, Key>>): set<File> {
    Below(content.Keys, 10)
  }

  lemma {:induction false} Scans(s0: State, s: State, id: Id, key: Key, level: nat, why: Why, d: Durable)
      returns (s': State)
    requires level <= 10 && Here(s0, s, id, Attempt(key, Scanning(level, Below(d.content.Keys, level), why), None), d)
    ensures Here(s0, s', id, Attempt(key, Scanning(10, Listed(d.content), why), None), d)
    decreases 10 - level
  {
    var all := d.content.Keys;
    if level == 10 {
      s' := s;
    } else {
      assert Below(all, level) + LevelFiles(all, level) == Below(all, level + 1);
      var s1 := Advance(s0, s, id, Attempt(key, Scanning(level, Below(all, level), why), None),
                        Attempt(key, Scanning(level + 1, Below(all, level + 1), why), None), d, ScanLevel(id));
      s' := Scans(s0, s1, id, key, level + 1, why, d);
    }
  }

  function WithManifest(d: Durable, files: set<File>, keep: set<File>): Durable {
    d.(manifest := Some(files), keep := keep)
  }

  lemma ManifestLands(s0: State, s: State, id: Id, key: Key, files: set<File>, why: Why, d: Durable)
      returns (s': State)
    requires Here(s0, s, id, Attempt(key, Putting(files, why), Some(PutManifest(files, why))), d)
    ensures Here(s0, s', id, Attempt(key, Putting(files, why), None), WithManifest(d, files, Survivors(files, d)))
  {
    s' := s.(d := d.(manifest := Some(files), keep := Survivors(files, d)),
             att := s.att[id := s.att[id].(pending := None)]);
    Go(s0, s, s', id, false, Land(id));
  }

  lemma Rebuilds(s0: State, s: State, id: Id, key: Key, why: Why, d: Durable) returns (s': State)
    requires Here(s0, s, id, Attempt(key, Scanning(0, {}, why), None), d)
    ensures var files := Listed(d.content);
            Here(s0, s', id, Attempt(key, Putting(files, why), None), WithManifest(d, files, Survivors(files, d)))
  {
    var files := Listed(d.content);
    assert Below(d.content.Keys, 0) == {};
    var s1 := Scans(s0, s, id, key, 0, why, d);
    var s2 := Advance(s0, s1, id, Attempt(key, Scanning(10, files, why), None),
                      Attempt(key, Putting(files, why), Some(PutManifest(files, why))), d, SendRebuilt(id));
    s' := ManifestLands(s0, s2, id, key, files, why, d);
  }

  // -------------------------------------------------------------- a retry

  /** The durable state once the retry of a key at t is answered. */
  ghost function AfterRetry(d: Durable, man: Option<set<File>>, t: nat): Durable {
    if man.None? || (d.manifest.Some? && Covers(d.manifest.value, t)) then d
    else WithManifest(d, Listed(d.content), Survivors(Listed(d.content), d))
  }

  lemma Retries(s0: State, s: State, id: Id, key: Key, man: Option<set<File>>, pos: nat, view: map<nat, Key>, t: nat,
                d: Durable)
      returns (s': State)
    requires Here(s0, s, id, Attempt(key, Opened(man, pos, view), None), d) && t in view && view[t] == key
    ensures Here(s0, s', id, Attempt(key, Ready(t, true), None), AfterRetry(d, man, t))
  {
    var at := Attempt(key, DedupAt(man, t), None);
    var s1 := Advance(s0, s, id, Attempt(key, Opened(man, pos, view), None), at, d, Hit(id, t));
    if man.None? || (d.manifest.Some? && Covers(d.manifest.value, t)) {
      s' := Advance(s0, s1, id, at, Attempt(key, Ready(t, true), None), d, DedupRead(id));
    } else {
      var s2 := Advance(s0, s1, id, at, Attempt(key, Scanning(0, {}, DedupFix(t)), None), d, DedupRead(id));
      var s3 := Rebuilds(s0, s2, id, key, DedupFix(t), d);
      s' := Advance(s0, s3, id, Attempt(key, Putting(Listed(d.content), DedupFix(t)), None),
                    Attempt(key, Ready(t, true), None), AfterRetry(d, man, t), ConfirmPut(id));
    }
  }

  /**
   A retry whose key is in the view it opened is acknowledged, deduplicated,
   with the TXID where the key sits, and lands nothing.  If the manifest it
   re-reads lists that TXID it stays; otherwise it is rebuilt from the listing.
   */
  lemma RetryIsAcknowledged(s: State, id: Id, t: nat) returns (s': State)
    requires In(s, id) && s.att[id].phase.Opened? && s.att[id].pending.None?
    requires Tenant(s.d, id) && id !in s.d.released
    requires t in s.att[id].phase.view && s.att[id].phase.view[t] == s.att[id].key
    ensures Leads(s, s', id, true) && s'.acks == s.acks + [Acknowledgement(id, s.att[id].key, t, true)]
    ensures s'.d.landed == s.d.landed && s'.d.content == s.d.content
    ensures s.d.manifest.Some? && Covers(s.d.manifest.value, t) ==> s'.d.manifest == s.d.manifest
    ensures s.d.manifest.Some? && s.att[id].phase.man.Some? && !Covers(s.d.manifest.value, t) ==>
              s'.d.manifest == Some(set f | f in s.d.content && f.level <= 9)
  {
    var a := s.att[id];
    Stay(s, id, false);
    Stay(s, id, true);
    var s1 := Retries(s, s, id, a.key, a.phase.man, a.phase.pos, a.phase.view, t, s.d);
    s' := Finishes(s, s, s1, id, a.key, t, true, AfterRetry(s.d, a.phase.man, t));
    assert Listed(s.d.content) == set f | f in s.d.content && f.level <= 9;
  }

  // ------------------------------------------------------------ a new write

  function WithFlush(d: Durable, id: Id, key: Key, t: nat): Durable {
    d.(content := d.content[File(0, t, t) := map[t := key]], landed := d.landed + [Landing(id, key, t)])
  }

  /** It misses its key, and its file lands. */
  lemma Flushes(s0: State, s: State, id: Id, key: Key, man: Option<set<File>>, n: nat, view: map<nat, Key>, d: Durable)
      returns (s': State)
    requires Here(s0, s, id, Attempt(key, Opened(man, n, view), None), d) && forall t :: t in view ==> view[t] != key
    ensures Here(s0, s', id, Attempt(key, Flushed(man, n + 1), None), WithFlush(d, id, key, n + 1))
  {
    var sent := Attempt(key, Flushing(man, n), Some(PutFile(n + 1, key)));
    var s1 := Advance(s0, s, id, Attempt(key, Opened(man, n, view), None), sent, d, Miss(id));
    var s2 := FileLands(s0, s1, id, key, man, n, d);
    s' := Advance(s0, s2, id, Attempt(key, Flushing(man, n), None), Attempt(key, Flushed(man, n + 1), None),
                  WithFlush(d, id, key, n + 1), ConfirmFlush(id));
  }

  lemma FileLands(s0: State, s: State, id: Id, key: Key, man: Option<set<File>>, n: nat, d: Durable)
      returns (s': State)
    requires Here(s0, s, id, Attempt(key, Flushing(man, n), Some(PutFile(n + 1, key))), d)
    ensures Here(s0, s', id, Attempt(key, Flushing(man, n), None), WithFlush(d, id, key, n + 1))
  {
    s' := s.(d := WithFlush(d, id, key, n + 1), att := s.att[id := s.att[id].(pending := None)]);
    Go(s0, s, s', id, false, Land(id));
  }

  /** Its commit record lands, or the first manifest of the replica. */
  lemma Indexes(s0: State, s: State, id: Id, key: Key, man: Option<set<File>>, t: nat, d: Durable)
      returns (s': State, d': Durable)
    requires Here(s0, s, id, Attempt(key, Flushed(man, t), None), d)
    ensures Here(s0, s', id, Attempt(key, Ready(t, false), None), d') && d'.landed == d.landed
    ensures d'.tenants == d.tenants && d'.released == d.released
    ensures d'.manifest == Some(if man.Some? then man.value + {File(0, t, t)} else Listed(d.content))
  {
    if man.Some? {
      var files := man.value + {File(0, t, t)};
      var s1 := Advance(s0, s, id, Attempt(key, Flushed(man, t), None),
                        Attempt(key, Putting(files, Index(t)), Some(PutManifest(files, Index(t)))), d, SendIndex(id));
      var s2 := ManifestLands(s0, s1, id, key, files, Index(t), d);
      d' := WithManifest(d, files, Survivors(files, d));
      s' := Advance(s0, s2, id, Attempt(key, Putting(files, Index(t)), None), Attempt(key, Ready(t, false), None), d',
                    ConfirmPut(id));
    } else {
      s', d' := Migrates(s0, s, id, key, t, d);
    }
  }

  lemma Migrates(s0: State, s: State, id: Id, key: Key, t: nat, d: Durable) returns (s': State, d': Durable)
    requires Here(s0, s, id, Attempt(key, Flushed(None, t), None), d)
    ensures Here(s0, s', id, Attempt(key, Ready(t, false), None), d')
    ensures d'.landed == d.landed && d'.manifest == Some(Listed(d.content))
    ensures d'.tenants == d.tenants && d'.released == d.released
  {
    var files := Listed(d.content);
    var s1 := Advance(s0, s, id, Attempt(key, Flushed(None, t), None), Attempt(key, Scanning(0, {}, Migrate(t)), None),
                      d, SendIndex(id));
    var s2 := Rebuilds(s0, s1, id, key, Migrate(t), d);
    d' := WithManifest(d, files, Survivors(files, d));
    s' := Advance(s0, s2, id, Attempt(key, Putting(files, Migrate(t)), None), Attempt(key, Ready(t, false), None), d',
                  ConfirmPut(id));
  }

  // ---------------------------------------------------------- a whole attempt

  /** It begins, takes the lease over and reads the manifest. */
  lemma Starts(s: State, id: Id, key: Key) returns (s': State)
    requires id !in s.att && id !in s.d.tenants && id !in s.d.released
    ensures Leads(s, s', id, true) && s'.acks == s.acks && s'.d == s.d.(tenants := s.d.tenants + [id])
    ensures In(s', id) && s'.att[id] == Attempt(key, Got(s.d.manifest), None)
  {
    var s1 := s.(att := s.att[id := Attempt(key, Start, None)]);
    Stay(s, id, true);
    Go(s, s, s1, id, true, Begin(id, key));
    var s2 := s1.(d := s1.d.(tenants := s1.d.tenants + [id]));
    Go(s, s1, s2, id, true, Grant(id));
    s' := SetPhase(s2, id, Got(s2.d.manifest));
    Go(s, s2, s', id, true, ReadManifest(id));
  }

  /** It repairs the manifest if the listing is ahead of it. */
  lemma Plans(s0: State, s: State, id: Id, key: Key, d: Durable) returns (s': State, d': Durable)
    requires Here(s0, s, id, Attempt(key, Got(d.manifest), None), d)
    ensures Here(s0, s', id, Attempt(key, Planned(d'.manifest), None), d') && d'.landed == d.landed
    ensures d'.tenants == d.tenants && d'.released == d.released
  {
    var got := Attempt(key, Got(d.manifest), None);
    if d.manifest.Some? && Top(LevelFiles(d.content.Keys, 0)) > Top(d.manifest.value) {
      var s1 := Advance(s0, s, id, got, Attempt(key, Scanning(0, {}, Tail), None), d, Probe(id));
      var s2 := Rebuilds(s0, s1, id, key, Tail, d);
      var files := Listed(d.content);
      d' := WithManifest(d, files, Survivors(files, d));
      s' := Advance(s0, s2, id, Attempt(key, Putting(files, Tail), None), Attempt(key, Planned(Some(files)), None), d',
                    ConfirmPut(id));
    } else {
      d' := d;
      s' := Advance(s0, s, id, got, Attempt(key, Planned(d.manifest), None), d, Probe(id));
    }
  }

  function KeyAt(landed: seq<Landing>, t: nat): Key {
    if 1 <= t <= |landed| then landed[t - 1].key else ""
  }

  /** Everything landed, by TXID. */
  function Everything(landed: seq<Landing>): map<nat, Key> {
    map t: nat | 1 <= t <= |landed| :: KeyAt(landed, t)
  }

  ghost function PlanOf(d: Durable): set<File> {
    if d.manifest.Some? then d.manifest.value else d.content.Keys
  }

  /** The plan of an up-to-date database reads back everything landed. */
  lemma PlanReads(d: Durable)
    requires StoreOk(d) && Complete(d) && UpToDate(d)
    ensures Top(PlanOf(d)) == |d.landed| && Reads(d.content, PlanOf(d), |d.landed|, Everything(d.landed))
  {
    var plan, n, view := PlanOf(d), |d.landed|, Everything(d.landed);
    SolidReaches(d);
    if d.manifest.None? {
      TopIs(plan, n);
    }
    forall t | t in view
      ensures exists f :: f in plan && f in d.content && t in d.content[f] && d.content[f][t] == view[t]
    {
      var x := if d.manifest.Some? then d.keep else d.content.Keys;
      assert Covers(x, t);
      var f :| f in x && Has(f, t);
      assert t in d.content[f] && LandedAs(d, t, d.content[f][t]);
    }
  }

  lemma Opens(s0: State, s: State, id: Id, key: Key, d: Durable) returns (s': State)
    requires Here(s0, s, id, Attempt(key, Planned(d.manifest), None), d) && Inv(s) && Complete(d)
    ensures Here(s0, s', id, Attempt(key, Opened(d.manifest, |d.landed|, Everything(d.landed)), None), d)
  {
    assert AttemptOk(d, id, s.att[id]);
    PlanReads(d);
    s' := Advance(s0, s, id, Attempt(key, Planned(d.manifest), None),
                  Attempt(key, Opened(d.manifest, |d.landed|, Everything(d.landed)), None), d,
                  Open(id, Everything(d.landed)));
  }

  /** The write of key by id is decided: with the old TXID if the key had landed, else with the next one. */
  ghost predicate Decided(landed: seq<Landing>, d: Durable, id: Id, key: Key, t: nat, dedup: bool) {
    if dedup
    then 1 <= t <= |landed| && landed[t - 1].key == key && d.landed == landed
    else
      && t == |landed| + 1 && d.landed == landed + [Landing(id, key, t)] && KeyIsUnused(landed, key)
      && d.manifest.Some? && File(0, t, t) in d.manifest.value
  }

  ghost predicate KeyIsUnused(landed: seq<Landing>, key: Key) {
    forall k :: 0 <= k < |landed| ==> landed[k].key != key
  }

  /** From its first read, an attempt gets its view of everything landed, */
  lemma GetsOpen(s: State, id: Id, key: Key) returns (s': State)
    requires Inv(s) && Complete(s.d) && Tenant(s.d, id) && id !in s.d.released
    requires In(s, id) && s.att[id] == Attempt(key, Got(s.d.manifest), None)
    ensures Here(s, s', id, Attempt(key, Opened(s'.d.manifest, |s.d.landed|, Everything(s.d.landed)), None), s'.d)
    ensures s'.d.landed == s.d.landed && s'.d.tenants == s.d.tenants && s'.d.released == s.d.released
  {
    Stay(s, id, false);
    var s1, d := Plans(s, s, id, key, s.d);
    LeadsKeeps(s, s1, id, false);
    s' := Opens(s, s1, id, key, d);
  }

  /** decides on it, */
  lemma Concludes(s0: State, s: State, id: Id, key: Key, d: Durable)
      returns (s': State, d': Durable, t: nat, dedup: bool)
    requires Here(s0, s, id, Attempt(key, Opened(d.manifest, |d.landed|, Everything(d.landed)), None), d)
    ensures Here(s0, s', id, Attempt(key, Ready(t, dedup), None), d') && Decided(d.landed, d', id, key, t, dedup)
    ensures d'.tenants == d.tenants && d'.released == d.released
  {
    var n, man, view := |d.landed|, d.manifest, Everything(d.landed);
    if k :| 0 <= k < n && d.landed[k].key == key {
      t, dedup := k + 1, true;
      s' := Retries(s0, s, id, key, man, n, view, t, d);
      d' := AfterRetry(d, man, t);
    } else {
      t, dedup := n + 1, false;
      var flushed := WithFlush(d, id, key, t);
      var s1 := Flushes(s0, s, id, key, man, n, view, d);
      s', d' := Indexes(s0, s1, id, key, man, t, flushed);
      assert File(0, t, t) in Listed(flushed.content);
    }
  }

  /** and so gets to the point of releasing by itself. */
  lemma GetsReady(s: State, id: Id, key: Key) returns (s': State, t: nat, dedup: bool)
    requires Inv(s) && Complete(s.d) && Tenant(s.d, id) && id !in s.d.released
    requires In(s, id) && s.att[id] == Attempt(key, Got(s.d.manifest), None)
    ensures Here(s, s', id, Attempt(key, Ready(t, dedup), None), s'.d) && Decided(s.d.landed, s'.d, id, key, t, dedup)
    ensures s'.d.tenants == s.d.tenants && s'.d.released == s.d.released
  {
    var s1 := GetsOpen(s, id, key);
    var d := s1.d;
    s', d, t, dedup := Concludes(s, s1, id, key, s1.d);
  }

  /** s' is s with the write of key by id acknowledged. */
  ghost predicate Answered(s: State, s': State, id: Id, key: Key) {
    exists t, dedup ::
      Decided(s.d.landed, s'.d, id, key, t, dedup) && s'.acks == s.acks + [Acknowledgement(id, key, t, dedup)]
  }

  /**
   A new attempt, left alone, is acknowledged, in any state whose surviving
   listed files hold all they should: with a legacy replica, an unindexed tail,
   other attempts half done and a pass at any point.  A key that has landed gets
   its old TXID, any other the next one.
   */
  lemma WriteCanSucceed(s: State, id: Id, key: Key) returns (s': State)
    requires Inv(s) && Complete(s.d) && id !in s.att && id !in s.d.tenants && id !in s.d.released
    ensures Leads(s, s', id, true) && Answered(s, s', id, key)
  {
    var s1 := Starts(s, id, key);
    LeadsKeeps(s, s1, id, true);
    var s2, t, dedup := GetsReady(s1, id, key);
    s' := Finishes(s, s1, s2, id, key, t, dedup, s2.d);
    assert Decided(s.d.landed, s'.d, id, key, t, dedup);
  }

  /** A first manifest that cannot be written does not stop the acknowledgement. */
  lemma MigrationIsBestEffort(s: State, id: Id, t: nat) returns (s1: State, s2: State, s3: State)
    requires In(s, id) && Tenant(s.d, id) && id !in s.d.released
    requires (s.att[id].phase.Scanning? || s.att[id].phase.Putting?) && s.att[id].phase.why == Migrate(t)
    ensures NextStep(s, s1, GiveUpMigrate(id)) && NextStep(s1, s2, Free(id)) && NextStep(s2, s3, Ack(id))
    ensures s3.acks == s.acks + [Acknowledgement(id, s.att[id].key, t, false)]
  {
    s1 := SetPhase(s, id, Ready(t, false));
    s2 := s1.(d := s1.d.(released := s1.d.released + [id]));
    s3 := SetPhase(s2, id, Acked).(acks := s2.acks + [Acknowledgement(id, s.att[id].key, t, false)]);
  }

  // ---------------------------------------------------------- a collection

  /**
   After a publish a collection can remove any object the manifest does not
   list, except level-0 files above its highest TXID, and touches nothing else.
   */
  lemma GarbageCanGo(s: State, f: File) returns (s1: State, s2: State)
    requires s.d.pass.Published? && s.d.manifest.Some? && f in s.d.content && f !in s.d.manifest.value
    requires f.level > 0 || f.min <= Top(s.d.manifest.value)
    ensures NextStep(s, s1, GcStart) && NextStep(s1, s2, DeleteOne(f))
    ensures s2.d.content == s.d.content - {f} && s2.d.manifest == s.d.manifest && s2.att == s.att
  {
    s1 := s.(d := s.d.(pass := Collecting(s.d.manifest.value)));
    s2 := s1.(d := s1.d.(content := s1.d.content - {f}));
  }

  // ----------------------------------------------------------------- faults

  /**
   What may go wrong at any time: an attempt fails, with its last PUT still
   able to land; a pass stops while merging, or dies with its PUT under way.
   */
  lemma AnythingMayFail(s: State, id: Id)
    ensures In(s, id) && !s.att[id].phase.Acked? ==> NextStep(s, SetPhase(s, id, Failed), Fail(id))
    ensures s.d.pass.Merging? ==> NextStep(s, s.(d := s.d.(pass := Idle)), PassAbort)
    ensures s.d.pass.Sent? ==> NextStep(s, s.(d := s.d.(pass := s.d.pass.(abandoned := true))), PassAbandon)
    ensures s.d.pass.Sent? && !Tenant(s.d, s.d.pass.id) ==> NextStep(s, s.(d := s.d.(pass := Idle)), PassDrop)
    ensures s.d.pass.Published? || s.d.pass.Collecting? ==> NextStep(s, s.(d := s.d.(pass := Idle)), PassEnd)
  {
  }
}
