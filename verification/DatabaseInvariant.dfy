/**
 The inductive invariant of Database: what holds of the store, of the
 compaction pass and of every write attempt after each step.
 */
module DatabaseInvariant {
  import opened Wrappers
  import opened Levels
  import opened Database

  // ---------------------------------------------------------------- the store

  /** Objects hold landed mutations of their own range. */
  ghost predicate ContentOk(d: Durable) {
    && Within(d.content.Keys, |d.landed|)
    && forall f, t :: f in d.content && t in d.content[f] ==> Has(f, t) && LandedAs(d, t, d.content[f][t])
  }

  ghost predicate LandedAs(d: Durable, t: nat, key: Key) {
    1 <= t <= |d.landed| && d.landed[t - 1].key == key
  }

  ghost predicate LandedBy(d: Durable, t: nat, id: Id, key: Key) {
    LandedAs(d, t, key) && d.landed[t - 1].id == id
  }

  ghost predicate Unlanded(d: Durable, id: Id) {
    forall i :: 0 <= i < |d.landed| ==> d.landed[i].id != id
  }

  ghost predicate KeyIsNew(d: Durable, key: Key) {
    forall i :: 0 <= i < |d.landed| ==> d.landed[i].key != key
  }

  /** Wherever x and y occur in the acquisition order, x comes first. */
  ghost predicate Before(tenants: seq<Id>, x: Id, y: Id) {
    forall a, b :: 0 <= a < |tenants| && 0 <= b < |tenants| && tenants[a] == x && tenants[b] == y ==> a < b
  }

  /** Flushes landed gap-free, each key once, in the order of their leases. */
  ghost predicate HistoryOk(d: Durable) {
    LandingsOk(d.landed, d.tenants)
  }

  ghost predicate LandingsOk(landed: seq<Landing>, tenants: seq<Id>) {
    && (forall i :: 0 <= i < |landed| ==> landed[i].txid == i + 1 && landed[i].id in tenants)
    && (forall i, j :: 0 <= i < j < |landed| ==> landed[i].key != landed[j].key)
    && (forall a, b :: 0 <= a < b < |tenants| ==> tenants[a] != tenants[b])
    && forall i, j :: 0 <= i < j < |landed| ==> Before(tenants, landed[i].id, landed[j].id)
  }

  /** Releases happen in the order of acquisitions. */
  ghost predicate ReleasesOk(d: Durable) {
    ReleaseOrder(d.released, d.tenants)
  }

  ghost predicate ReleaseOrder(released: seq<Id>, tenants: seq<Id>) {
    && (forall i :: 0 <= i < |released| ==> released[i] in tenants)
    && forall i, j :: 0 <= i < j < |released| ==> Before(tenants, released[i], released[j])
  }

  /** The manifest trails the landed TXIDs by at most one level-0 file. */
  ghost predicate ManifestOk(d: Durable) {
    match d.manifest
    case None =>
      && d.pass.Idle?
      && (forall f :: f in d.content ==> f.level == 0)
      && CoversUpTo(d.content.Keys, |d.landed|)
    case Some(m) =>
      && Within(m, Top(m)) && Top(m) <= |d.landed| <= Top(m) + 1
      && (Top(m) < |d.landed| ==> File(0, |d.landed|, |d.landed|) in d.content)
      && d.keep <= m && d.keep <= d.content.Keys
      && (forall f :: f in d.keep ==> !Doomed(d.pass, f))
      && Reaches(d.keep, Top(m))
  }

  /** Files no step but a manifest landing can take away. */
  ghost function Solid(d: Durable): set<File> {
    match d.manifest
    case None => d.content.Keys
    case Some(m) =>
      d.keep + (if Top(m) < |d.landed| then {File(0, |d.landed|, |d.landed|)} else {})
  }

  // --------------------------------------------------------- compaction pass

  ghost predicate MergeOk(d: Durable, snap: set<File>, merged: set<File>, sources: set<File>, kept: set<File>) {
    && d.manifest.Some? && Within(snap + merged, Top(d.manifest.value))
    && merged <= d.content.Keys && sources <= snap + merged
    && kept <= (snap + merged) - sources && kept <= d.keep + merged
    && forall f :: f in sources ==> Reaches(kept, f.max)
  }

  ghost predicate TurnOk(lvl: nat, sources: set<File>) {
    1 <= lvl <= TOP_LEVEL + 1 && forall f :: f in sources ==> f.level + 1 < lvl
  }

  ghost predicate PassOk(d: Durable) {
    match d.pass
    case Idle => true
    case Merging(snap, lvl, merged, sources, kept) =>
      MergeOk(d, snap, merged, sources, kept) && TurnOk(lvl, sources)
    case Sent(id, snap, merged, sources, kept, final, _) =>
      && MergeOk(d, snap, merged, sources, kept) && id in d.tenants
      && (Tenant(d, id) ==> final == (d.manifest.value - sources) + merged)
    case Published(sources) =>
      d.manifest.Some? && forall f :: f in sources ==> f.max <= Top(d.manifest.value)
    case Collecting(active) =>
      d.manifest.Some? && Top(active) <= Top(d.manifest.value)
  }

  // ----------------------------------------------------------- write attempts

  ghost predicate Covered(d: Durable, t: nat) {
    d.manifest.Some? ==> t <= Top(d.manifest.value)
  }

  ghost predicate WhyOk(d: Durable, id: Id, key: Key, why: Why) {
    match why
    case Tail => Unlanded(d, id)
    case DedupFix(t) => LandedAs(d, t, key)
    case Migrate(t) => LandedBy(d, t, id, key) && Covered(d, t)
    case Index(t) => LandedBy(d, t, id, key)
  }

  ghost predicate Fenced(d: Durable, id: Id) {
    Tenant(d, id) || id in d.released
  }

  /** What an attempt knows stays true whoever holds the lease. */
  ghost predicate Facts(d: Durable, id: Id, a: Attempt) {
    && (id !in d.tenants ==> (a.phase.Start? || a.phase.Failed?) && a.pending.None?)
    && (id in d.released ==> a.phase.Ready? || a.phase.Failed? || a.phase.Acked?)
    && match a.phase
       case Start => a.pending.None? && Unlanded(d, id)
       case Got(_) => a.pending.None? && Unlanded(d, id)
       case Scanning(_, acc, why) =>
         a.pending.None? && WhyOk(d, id, a.key, why) && Within(acc, |d.landed|) && !why.Index?
       case Putting(files, why) =>
         && WhyOk(d, id, a.key, why)
         && (match a.pending
             case Some(put) => put == PutManifest(files, why)
             case None => d.manifest.Some? && (why.Tail? || why.txid <= Top(d.manifest.value)))
       case Planned(_) => a.pending.None? && Unlanded(d, id)
       case Opened(_, _, view) =>
         a.pending.None? && Unlanded(d, id) && forall t :: t in view ==> LandedAs(d, t, view[t])
       case DedupAt(_, t) => a.pending.None? && LandedAs(d, t, a.key)
       case Flushing(man, pos) =>
         (match a.pending
          case Some(put) => put == PutFile(pos + 1, a.key) && Unlanded(d, id)
          case None => LandedBy(d, pos + 1, id, a.key) && (man.None? ==> Covered(d, pos + 1)))
       case Flushed(man, t) =>
         a.pending.None? && LandedBy(d, t, id, a.key) && (man.None? ==> Covered(d, t))
       case Ready(t, dedup) =>
         && LandedAs(d, t, a.key) && (!dedup ==> LandedBy(d, t, id, a.key))
         && (Fenced(d, id) ==> Covered(d, t))
       case Failed => true
       case Acked => true
  }

  /** What a PUT that can still land would write. */
  ghost predicate PutOk(d: Durable, id: Id, a: Attempt, put: Put) {
    match put
    case PutFile(t, key) =>
      key == a.key && t == |d.landed| + 1 && KeyIsNew(d, key) && Unlanded(d, id) && UpToDate(d)
    case PutManifest(files, why) =>
      && Within(files, |d.landed|) && |d.landed| >= 1
      && if why.Index?
         then d.manifest.Some? && Behind(d) && files == d.manifest.value + {File(0, |d.landed|, |d.landed|)}
         else Solid(d) <= files && (why.Migrate? <==> d.manifest.None?) && (why.Migrate? ==> files <= d.content.Keys)
  }

  /** What the last acquirer of the lease knows about the store. */
  ghost predicate Tenancy(d: Durable, id: Id, a: Attempt) {
    && (a.pending.Some? ==> PutOk(d, id, a, a.pending.value))
    && match a.phase
       case Got(man) => man == d.manifest
       case Scanning(level, acc, why) =>
         && (why.Migrate? <==> d.manifest.None?) && (why.Migrate? ==> acc <= d.content.Keys) && |d.landed| >= 1
         && forall f :: f in Solid(d) && f.level < level ==> f in acc
       case Putting(files, why) =>
         a.pending.None? && why.Tail? ==> d.manifest == Some(files) && Top(files) == |d.landed|
       case Planned(man) => man == d.manifest && UpToDate(d)
       case Opened(man, pos, view) =>
         man == d.manifest && UpToDate(d) && pos == |d.landed| && forall t :: 1 <= t <= pos ==> t in view
       case DedupAt(man, t) => man == d.manifest
       case Flushing(man, pos) =>
         man == d.manifest && (a.pending.None? ==> |d.landed| == pos + 1 && Behind(d))
       case Flushed(man, t) => man == d.manifest && t == |d.landed| && Behind(d)
       case _ => true
  }

  ghost predicate UpToDate(d: Durable) {
    d.manifest.Some? ==> Top(d.manifest.value) == |d.landed|
  }

  /** The manifest misses exactly the last landed file. */
  ghost predicate Behind(d: Durable) {
    d.manifest.Some? ==> Top(d.manifest.value) + 1 == |d.landed|
  }

  ghost predicate AttemptOk(d: Durable, id: Id, a: Attempt) {
    Facts(d, id, a) && (Tenant(d, id) ==> Tenancy(d, id, a))
  }

  ghost predicate AttemptsOk(s: State) {
    forall id :: id in s.att ==> AttemptOk(s.d, id, s.att[id])
  }

  ghost predicate AcksOk(s: State) {
    forall i :: 0 <= i < |s.acks| ==> AckOk(s.d, s.acks[i])
  }

  ghost predicate AckOk(d: Durable, k: Acknowledgement) {
    && LandedAs(d, k.txid, k.key) && Covered(d, k.txid) && k.id in d.released
    && (!k.dedup ==> LandedBy(d, k.txid, k.id, k.key))
  }

  ghost predicate StoreOk(d: Durable) {
    ContentOk(d) && HistoryOk(d) && ReleasesOk(d) && ManifestOk(d) && PassOk(d)
  }

  ghost predicate Inv(s: State) {
    && StoreOk(s.d) && AttemptsOk(s) && AcksOk(s)
    && (s.d.pass.Sent? ==> s.d.pass.id !in s.att)
  }

  // ------------------------------------------------------------ frame lemmas

  /** History only extends, and the manifest only advances. */
  ghost predicate Advances(d: Durable, d': Durable) {
    && d.landed <= d'.landed && d'.tenants == d.tenants && d'.released == d.released
    && (d.manifest.Some? ==> d'.manifest.Some? && Top(d.manifest.value) <= Top(d'.manifest.value))
    && (d.manifest.None? && d'.manifest.Some? ==> Top(d'.manifest.value) >= |d.landed|)
  }

  lemma FactsAdvance(d: Durable, d': Durable, id: Id, a: Attempt)
    requires Facts(d, id, a) && Advances(d, d')
    requires forall i :: |d.landed| <= i < |d'.landed| ==> d'.landed[i].id != id
    ensures Facts(d', id, a)
  {
    assert forall t, key :: LandedAs(d, t, key) ==> LandedAs(d', t, key);
    match a.phase
    case Opened(_, _, view) =>
      forall t | t in view ensures LandedAs(d', t, view[t]) {
        assert LandedAs(d, t, view[t]);
      }
    case Scanning(_, acc, why) => assert Within(acc, |d'.landed|);
    case _ =>
  }

  lemma PutFrame(d: Durable, d': Durable, id: Id, a: Attempt, put: Put)
    requires PutOk(d, id, a, put) && SameView(d, d')
    ensures PutOk(d', id, a, put)
  {
  }

  /** The manifest, the history and the solid files are as before. */
  ghost predicate SameView(d: Durable, d': Durable) {
    && d'.manifest == d.manifest && d'.landed == d.landed
    && d'.tenants == d.tenants && d'.released == d.released
    && Solid(d') == Solid(d) && (d.manifest.None? ==> d'.content == d.content)
  }

  /** A step that moves neither the manifest, nor history, nor the solid files leaves attempts alone. */
  lemma AttemptFrame(d: Durable, d': Durable, id: Id, a: Attempt)
    requires AttemptOk(d, id, a) && SameView(d, d')
    ensures AttemptOk(d', id, a)
  {
    FactsAdvance(d, d', id, a);
    if Tenant(d, id) {
      if a.pending.Some? {
        PutFrame(d, d', id, a, a.pending.value);
      }
      assert Tenancy(d', id, a);
    }
  }

  /** A pass in progress survives anything that deletes no file and forgets no kept one. */
  lemma PassAdvances(d: Durable, d': Durable)
    requires PassOk(d) && d'.pass == d.pass && d'.tenants == d.tenants
    requires d.manifest.Some? ==> d'.manifest.Some? && Top(d.manifest.value) <= Top(d'.manifest.value)
    requires d.content.Keys <= d'.content.Keys
    requires d.pass.Merging? || d.pass.Sent? ==> d.keep <= d'.keep
    requires d.pass.Sent? ==> d'.manifest == d.manifest || !Tenant(d, d.pass.id)
    ensures PassOk(d')
  {
    match d.pass
    case Merging(snap, lvl, merged, sources, kept) =>
      assert MergeOk(d', snap, merged, sources, kept);
    case Sent(id, snap, merged, sources, kept, final, _) =>
      assert MergeOk(d', snap, merged, sources, kept);
    case _ =>
  }

  lemma ContentOnly(d: Durable, d': Durable)
    requires ContentOk(d) && d'.content == d.content && d'.landed == d.landed
    ensures ContentOk(d')
  {
    forall f, t | f in d'.content && t in d'.content[f] ensures LandedAs(d', t, d'.content[f][t]) {
      assert LandedAs(d, t, d.content[f][t]);
    }
  }

  lemma AckAdvances(d: Durable, d': Durable, k: Acknowledgement)
    requires AckOk(d, k) && Advances(d, d')
    ensures AckOk(d', k)
  {
  }

  lemma AcksAdvance(d: Durable, d': Durable, acks: seq<Acknowledgement>)
    requires Advances(d, d') && forall i :: 0 <= i < |acks| ==> AckOk(d, acks[i])
    ensures forall i :: 0 <= i < |acks| ==> AckOk(d', acks[i])
  {
    forall i | 0 <= i < |acks| ensures AckOk(d', acks[i]) {
      AckAdvances(d, d', acks[i]);
    }
  }

  /** What id's landing does to the attempts that do not hold the lease. */
  lemma OthersAdvance(d: Durable, d': Durable, att: map<Id, Attempt>, id: Id)
    requires forall h :: h in att ==> AttemptOk(d, h, att[h])
    requires Advances(d, d') && Tenant(d, id)
    requires forall i :: |d.landed| <= i < |d'.landed| ==> d'.landed[i].id == id
    ensures forall h :: h in att && h != id ==> AttemptOk(d', h, att[h])
  {
    forall h | h in att && h != id ensures AttemptOk(d', h, att[h]) {
      FactsAdvance(d, d', h, att[h]);
    }
  }

  /** The solid files exist and go up to the last landed TXID. */
  lemma SolidReaches(d: Durable)
    requires ContentOk(d) && ManifestOk(d)
    ensures Reaches(Solid(d), |d.landed|) && Solid(d) <= d.content.Keys
  {
    if d.manifest.None? {
      if |d.landed| > 0 {
        assert Covers(d.content.Keys, |d.landed|);
      }
    } else if |d.landed| > Top(d.manifest.value) {
      assert File(0, |d.landed|, |d.landed|) in Solid(d);
    } else if |d.landed| > 0 {
      var f :| f in d.keep && f.max >= |d.landed|;
      assert f in Solid(d);
    }
  }

  lemma TopIs(x: set<File>, n: nat)
    requires Within(x, n) && Reaches(x, n)
    ensures Top(x) == n
  {
  }
}
