/**
 The durable state of one database and every step that changes it: write
 attempts of any number of runtimes, one background compaction pass at a time,
 source deletion and garbage collection.

 The write lease appears only as the order in which attempts acquired and
 released it; Lease.dfy models the CAS protocol behind that order.  Every remote
 call is split into a send, a landing that may never happen, and a confirmation.

 Hypotheses built into the steps:
 - a PUT lands while its sender is still the last acquirer of the lease, or never
   (Land, PassLand);
 - compaction passes on one database do not overlap, from the snapshot to the
   last deletion, and no pass starts while an earlier pass's manifest PUT can
   still land (PassStart);
 - garbage collection spares level-0 files above the manifest it read (Doomed);
 - a listing returns what the store holds when that level is read (ScanLevel);
 - a database opens only if every TXID up to the plan's highest is in a file of
   the plan that the store holds (Open): a plan with a hole is refused.
 */
module Database {
  import opened Wrappers
  import opened Levels

  type Id = nat
  type Key = string

  /** Why a manifest is being written. */
  datatype Why =
    | Tail                   // repair before opening
    | DedupFix(txid: nat)    // repair before acknowledging a retry
    | Migrate(txid: nat)     // first manifest of a legacy replica
    | Index(txid: nat)       // commit record of a new file

  datatype Put =
    | PutFile(txid: nat, key: Key)
    | PutManifest(files: set<File>, why: Why)

  datatype Phase =
    | Start
    | Got(man: Option<set<File>>)
    | Scanning(level: nat, acc: set<File>, why: Why)
    | Putting(files: set<File>, why: Why)
    | Planned(man: Option<set<File>>)
    | Opened(man: Option<set<File>>, pos: nat, view: map<nat, Key>)
    | DedupAt(man: Option<set<File>>, txid: nat)
    | Flushing(man: Option<set<File>>, pos: nat)
    | Flushed(man: Option<set<File>>, txid: nat)
    | Ready(txid: nat, dedup: bool)
    | Failed
    | Acked

  /** One call of withWriteAttempt; pending is a PUT that has been sent and has not landed. */
  datatype Attempt = Attempt(key: Key, phase: Phase, pending: Option<Put>)

  /**
   A compaction pass.  kept is a history variable: the snapshot's surviving
   files and the pass's own merges, less the retired sources.
   */
  datatype Pass =
    | Idle
    | Merging(snap: set<File>, lvl: nat, merged: set<File>, sources: set<File>, kept: set<File>)
    | Sent(id: Id, snap: set<File>, merged: set<File>, sources: set<File>, kept: set<File>,
           final: set<File>, abandoned: bool)
    | Published(sources: set<File>)
    | Collecting(active: set<File>)

  datatype Landing = Landing(id: Id, key: Key, txid: nat)
  datatype Acknowledgement = Acknowledgement(id: Id, key: Key, txid: nat, dedup: bool)

  datatype Durable = Durable(
    content: map<File, map<nat, Key>>,   // LTX objects: the mutation each TXID carries
    manifest: Option<set<File>>,
    keep: set<File>,                     // history: see Survivors
    landed: seq<Landing>,                // history of landed flushes
    pass: Pass,
    tenants: seq<Id>,                    // lease acquisitions, in order
    released: seq<Id>)                   // lease releases, in order

  datatype State = State(
    d: Durable,
    att: map<Id, Attempt>,
    acks: seq<Acknowledgement>)

  datatype Step =
    | Grant(id: Id)
    | Free(id: Id)
    | Begin(id: Id, key: Key)
    | ReadManifest(id: Id)
    | Probe(id: Id)
    | ScanLevel(id: Id)
    | SendRebuilt(id: Id)
    | Open(id: Id, view: map<nat, Key>)
    | Hit(id: Id, txid: nat)
    | Miss(id: Id)
    | ConfirmFlush(id: Id)
    | SendIndex(id: Id)
    | ConfirmPut(id: Id)
    | GiveUpMigrate(id: Id)
    | DedupRead(id: Id)
    | Fail(id: Id)
    | Land(id: Id)
    | Ack(id: Id)
    | PassStart
    | PassMerge(info: File, data: map<nat, Key>)
    | PassSkip
    | PassAbort
    | PassSend(id: Id)
    | PassLand
    | PassAbandon
    | PassDrop
    | DeleteOne(file: File)
    | GcStart
    | PassEnd

  // ------------------------------------------------------------ observations

  /** The attempt that acquired the lease last. */
  predicate Tenant(d: Durable, id: Id) {
    |d.tenants| > 0 && d.tenants[|d.tenants| - 1] == id
  }

  /** The files deletion or garbage collection may remove now. */
  ghost predicate Doomed(pass: Pass, f: File) {
    match pass
    case Published(sources) => f in sources
    case Collecting(active) => f !in active && !(f.level == 0 && f.min > Top(active))
    case _ => false
  }

  /** The files of a landing manifest that exist and are not up for deletion. */
  ghost function Survivors(files: set<File>, d: Durable): set<File> {
    set f | f in files && f in d.content && !Doomed(d.pass, f)
  }

  /** view holds, for exactly the TXIDs 1..pos, what some file of the plan stores. */
  ghost predicate Reads(content: map<File, map<nat, Key>>, plan: set<File>, pos: nat, view: map<nat, Key>) {
    && (forall t :: t in view <==> 1 <= t <= pos)
    && forall t :: t in view ==> exists f :: f in plan && f in content && t in content[f] && content[f][t] == view[t]
  }

  /** data is the union of what the merged files store. */
  ghost predicate MergesData(content: map<File, map<nat, Key>>, cs: set<File>, data: map<nat, Key>) {
    && (forall c, t :: c in cs && c in content && t in content[c] ==> t in data)
    && forall t :: t in data ==> exists c :: c in cs && c in content && t in content[c] && content[c][t] == data[t]
  }

  predicate In(s: State, id: Id) {
    id in s.att
  }

  function SetPhase(s: State, id: Id, phase: Phase): State
    requires In(s, id)
  {
    s.(att := s.att[id := s.att[id].(phase := phase)])
  }

  function SetPut(s: State, id: Id, phase: Phase, put: Put): State
    requires In(s, id)
  {
    s.(att := s.att[id := s.att[id].(phase := phase, pending := Some(put))])
  }

  // ------------------------------------------------------------------- steps

  ghost predicate LeaseStep(s: State, s': State, step: Step)
    requires step.Grant? || step.Free? || step.Begin?
  {
    match step
    case Grant(id) => id !in s.d.tenants && s' == s.(d := s.d.(tenants := s.d.tenants + [id]))
    case Free(id) =>
      && Tenant(s.d, id) && id !in s.d.released
      && (In(s, id) ==> s.att[id].phase.Ready? || s.att[id].phase.Failed?)
      && s' == s.(d := s.d.(released := s.d.released + [id]))
    case Begin(id, key) =>
      && id !in s.att && id !in s.d.tenants
      && s' == s.(att := s.att[id := Attempt(key, Start, None)])
  }

  ghost predicate FirstRead(s: State, s': State, id: Id) {
    && In(s, id) && s.att[id].phase.Start?
    && s' == SetPhase(s, id, Got(s.d.manifest))
  }

  ghost predicate ReadManifestStep(s: State, s': State, id: Id) {
    id in s.d.tenants && FirstRead(s, s', id)
  }

  ghost predicate ProbeStep(s: State, s': State, id: Id) {
    && In(s, id) && s.att[id].phase.Got?
    && var man := s.att[id].phase.man;
    && s' == SetPhase(s, id,
         if man.Some? && Top(LevelFiles(s.d.content.Keys, 0)) > Top(man.value)
         then Scanning(0, {}, Tail) else Planned(man))
  }

  ghost predicate ScanLevelStep(s: State, s': State, id: Id) {
    && In(s, id) && s.att[id].phase.Scanning?
    && var p := s.att[id].phase;
    && p.level <= SNAPSHOT_LEVEL
    && s' == SetPhase(s, id, Scanning(p.level + 1, p.acc + LevelFiles(s.d.content.Keys, p.level), p.why))
  }

  ghost predicate SendRebuiltStep(s: State, s': State, id: Id) {
    && In(s, id) && s.att[id].phase.Scanning?
    && var p := s.att[id].phase;
    && p.level == SNAPSHOT_LEVEL + 1
    && s' == SetPut(s, id, Putting(p.acc, p.why), PutManifest(p.acc, p.why))
  }

  ghost predicate OpenStep(s: State, s': State, id: Id, view: map<nat, Key>) {
    && In(s, id) && s.att[id].phase.Planned?
    && var man := s.att[id].phase.man;
    && var plan := if man.Some? then man.value else s.d.content.Keys;
    && Reads(s.d.content, plan, Top(plan), view)
    && s' == SetPhase(s, id, Opened(man, Top(plan), view))
  }

  ghost predicate HitStep(s: State, s': State, id: Id, txid: nat) {
    && In(s, id) && s.att[id].phase.Opened?
    && var p := s.att[id].phase;
    && txid in p.view && p.view[txid] == s.att[id].key
    && s' == SetPhase(s, id, DedupAt(p.man, txid))
  }

  ghost predicate MissStep(s: State, s': State, id: Id) {
    && In(s, id) && s.att[id].phase.Opened?
    && var p := s.att[id].phase;
    && (forall t :: t in p.view ==> p.view[t] != s.att[id].key)
    && s' == SetPut(s, id, Flushing(p.man, p.pos), PutFile(p.pos + 1, s.att[id].key))
  }

  ghost predicate ConfirmFlushStep(s: State, s': State, id: Id) {
    && In(s, id) && s.att[id].phase.Flushing? && s.att[id].pending.None?
    && var p := s.att[id].phase;
    && s' == SetPhase(s, id, Flushed(p.man, p.pos + 1))
  }

  ghost predicate SendIndexStep(s: State, s': State, id: Id) {
    && In(s, id) && s.att[id].phase.Flushed?
    && var p := s.att[id].phase;
    && s' == if p.man.Some?
             then var files := p.man.value + {File(0, p.txid, p.txid)};
                  SetPut(s, id, Putting(files, Index(p.txid)), PutManifest(files, Index(p.txid)))
             else SetPhase(s, id, Scanning(0, {}, Migrate(p.txid)))
  }

  ghost predicate ConfirmPutStep(s: State, s': State, id: Id) {
    && In(s, id) && s.att[id].phase.Putting? && s.att[id].pending.None?
    && var p := s.att[id].phase;
    && s' == SetPhase(s, id,
         match p.why
         case Tail => Planned(Some(p.files))
         case DedupFix(txid) => Ready(txid, true)
         case Migrate(txid) => Ready(txid, false)
         case Index(txid) => Ready(txid, false))
  }

  /** A legacy replica's first manifest is best effort: its failure does not fail the write. */
  ghost predicate GiveUpMigrateStep(s: State, s': State, id: Id) {
    && In(s, id) && (s.att[id].phase.Scanning? || s.att[id].phase.Putting?)
    && s.att[id].phase.why.Migrate?
    && s' == SetPhase(s, id, Ready(s.att[id].phase.why.txid, false))
  }

  ghost predicate DedupReadStep(s: State, s': State, id: Id) {
    && In(s, id) && s.att[id].phase.DedupAt?
    && var p := s.att[id].phase;
    && s' == SetPhase(s, id,
         if p.man.None? || (s.d.manifest.Some? && Covers(s.d.manifest.value, p.txid))
         then Ready(p.txid, true) else Scanning(0, {}, DedupFix(p.txid)))
  }

  ghost predicate FailStep(s: State, s': State, id: Id) {
    && In(s, id) && !s.att[id].phase.Acked?
    && s' == SetPhase(s, id, Failed)
  }

  ghost predicate LandStep(s: State, s': State, id: Id) {
    && In(s, id) && s.att[id].pending.Some? && Tenant(s.d, id)
    && var att' := s.att[id := s.att[id].(pending := None)];
    && s' == match s.att[id].pending.value
             case PutFile(txid, key) =>
               s.(d := s.d.(content := s.d.content[File(0, txid, txid) := map[txid := key]],
                            landed := s.d.landed + [Landing(id, key, txid)]),
                  att := att')
             case PutManifest(files, _) =>
               s.(d := s.d.(manifest := Some(files), keep := Survivors(files, s.d)), att := att')
  }

  ghost predicate AckStep(s: State, s': State, id: Id) {
    id in s.d.released && Acknowledge(s, s', id)
  }

  ghost predicate Acknowledge(s: State, s': State, id: Id) {
    && In(s, id) && s.att[id].phase.Ready?
    && var p := s.att[id].phase;
    && s' == SetPhase(s, id, Acked).(acks := s.acks + [Acknowledgement(id, s.att[id].key, p.txid, p.dedup)])
  }

  ghost predicate PassStartStep(s: State, s': State) {
    && s.d.pass.Idle? && s.d.manifest.Some? && s.d.manifest.value != {}
    && s' == s.(d := s.d.(pass := Merging(s.d.manifest.value, 1, {}, {}, s.d.keep)))
  }

  ghost predicate PassMergeStep(s: State, s': State, info: File, data: map<nat, Key>) {
    && s.d.pass.Merging?
    && var p := s.d.pass;
    && var cs := Candidates(p.snap + p.merged, p.lvl);
    && p.lvl <= TOP_LEVEL && IsMerge(info, cs, p.lvl) && cs <= s.d.content.Keys
    && MergesData(s.d.content, cs, data)
    && var gone := Gone((p.snap + p.merged) - p.sources, info);
    && s' == s.(d := s.d.(content := s.d.content[info := data],
                          pass := Merging(p.snap, p.lvl + 1, p.merged + {info},
                                          p.sources + gone, (p.kept - gone) + {info})))
  }

  ghost predicate PassSkipStep(s: State, s': State) {
    && s.d.pass.Merging? && s.d.pass.lvl <= TOP_LEVEL
    && s' == s.(d := s.d.(pass := s.d.pass.(lvl := s.d.pass.lvl + 1)))
  }

  ghost predicate PassSendStep(s: State, s': State, id: Id) {
    id in s.d.tenants && SendDelta(s, s', id)
  }

  /** Re-read the manifest under the write lease held by id and send the delta. */
  ghost predicate SendDelta(s: State, s': State, id: Id) {
    && s.d.pass.Merging? && s.d.pass.lvl == TOP_LEVEL + 1 && s.d.pass.merged != {}
    && id !in s.att && s.d.manifest.Some?
    && var p := s.d.pass;
    && s' == s.(d := s.d.(pass := Sent(id, p.snap, p.merged, p.sources, p.kept,
                                      (s.d.manifest.value - p.sources) + p.merged, false)))
  }

  ghost predicate PassLandStep(s: State, s': State) {
    && s.d.pass.Sent? && Tenant(s.d, s.d.pass.id)
    && var pass' := if s.d.pass.abandoned then Idle else Published(s.d.pass.sources);
    && s' == s.(d := s.d.(manifest := Some(s.d.pass.final), pass := pass',
                          keep := Survivors(s.d.pass.final, s.d.(pass := pass'))))
  }

  /** A pass may stop anywhere; one whose PUT can still land stays until it cannot. */
  ghost predicate PassStopStep(s: State, s': State, step: Step) {
    match step
    case PassAbort => s.d.pass.Merging? && s' == s.(d := s.d.(pass := Idle))
    case PassAbandon => s.d.pass.Sent? && s' == s.(d := s.d.(pass := s.d.pass.(abandoned := true)))
    case PassDrop => s.d.pass.Sent? && !Tenant(s.d, s.d.pass.id) && s' == s.(d := s.d.(pass := Idle))
    case PassEnd => (s.d.pass.Published? || s.d.pass.Collecting?) && s' == s.(d := s.d.(pass := Idle))
    case _ => false
  }

  ghost predicate DeleteOneStep(s: State, s': State, file: File) {
    Doomed(s.d.pass, file) && s' == s.(d := s.d.(content := s.d.content - {file}))
  }

  ghost predicate GcStartStep(s: State, s': State) {
    && s.d.pass.Published? && s.d.manifest.Some?
    && s' == s.(d := s.d.(pass := Collecting(s.d.manifest.value)))
  }

  ghost predicate NextStep(s: State, s': State, step: Step) {
    match step
    case Grant(_) => LeaseStep(s, s', step)
    case Free(_) => LeaseStep(s, s', step)
    case Begin(_, _) => LeaseStep(s, s', step)
    case ReadManifest(id) => ReadManifestStep(s, s', id)
    case Probe(id) => ProbeStep(s, s', id)
    case ScanLevel(id) => ScanLevelStep(s, s', id)
    case SendRebuilt(id) => SendRebuiltStep(s, s', id)
    case Open(id, view) => OpenStep(s, s', id, view)
    case Hit(id, txid) => HitStep(s, s', id, txid)
    case Miss(id) => MissStep(s, s', id)
    case ConfirmFlush(id) => ConfirmFlushStep(s, s', id)
    case SendIndex(id) => SendIndexStep(s, s', id)
    case ConfirmPut(id) => ConfirmPutStep(s, s', id)
    case GiveUpMigrate(id) => GiveUpMigrateStep(s, s', id)
    case DedupRead(id) => DedupReadStep(s, s', id)
    case Fail(id) => FailStep(s, s', id)
    case Land(id) => LandStep(s, s', id)
    case Ack(id) => AckStep(s, s', id)
    case PassStart => PassStartStep(s, s')
    case PassMerge(info, data) => PassMergeStep(s, s', info, data)
    case PassSkip => PassSkipStep(s, s')
    case PassSend(id) => PassSendStep(s, s', id)
    case PassLand => PassLandStep(s, s')
    case DeleteOne(file) => DeleteOneStep(s, s', file)
    case GcStart => GcStartStep(s, s')
    case PassAbort => PassStopStep(s, s', step)
    case PassAbandon => PassStopStep(s, s', step)
    case PassDrop => PassStopStep(s, s', step)
    case PassEnd => PassStopStep(s, s', step)
  }

  ghost predicate Init(s: State) {
    s == State(Durable(map[], None, {}, [], Idle, [], []), map[], [])
  }
}
