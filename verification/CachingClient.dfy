/**
 The caching replica client over the in-memory replica.  Each method promises
 what the replica's own method promises, so any sequence of calls through the
 cache reads, lists, writes and deletes as the bare replica would.
 */
module CachingClient {
  import opened Wrappers
  import opened Levels
  import opened Manifest
  import opened FileCache
  import opened Replica

  const MAX_CACHED_FILE_BYTES: int := 8 * 1024 * 1024

  datatype Listing = Listing(infos: seq<Info>, at: int)

  /** The cached bytes of database db are the stored ones. */
  ghost predicate Fresh(entries: map<Key, Bytes>, db: string, objects: map<File, Object>) {
    forall k :: k in entries && k.db == db ==> k.file in objects && entries[k] == objects[k.file].data
  }

  /** No entry of another database appears or changes. */
  ghost predicate OthersKept(was: map<Key, Bytes>, entries: map<Key, Bytes>, db: string) {
    forall k :: k in entries && k.db != db ==> k in was && entries[k] == was[k]
  }

  ghost function KeysOf(db: string, infos: seq<Info>): set<Key> {
    set i | i in infos :: Key(db, i.file)
  }

  ghost function LevelsOf(infos: seq<Info>): set<nat> {
    set i | i in infos :: i.file.level
  }

  lemma OneMore(db: string, infos: seq<Info>, i: nat)
    requires i < |infos|
    ensures KeysOf(db, infos[..i + 1]) == KeysOf(db, infos[..i]) + {Key(db, infos[i].file)}
    ensures LevelsOf(infos[..i + 1]) == LevelsOf(infos[..i]) + {infos[i].file.level}
  {
    assert infos[..i + 1] == infos[..i] + [infos[i]];
  }

  ghost predicate ListingsOk(listings: map<nat, Listing>, objects: map<File, Object>) {
    forall level :: level in listings ==> Lists(listings[level].infos, objects, level, 0)
  }

  /** Small enough to be kept: at most 8 MiB, and at most the whole cache. */
  predicate Cacheable(files: Cache, data: Bytes) {
    |data| <= 8_388_608 && 0 < files.limit && |data| <= files.limit
  }

  class Client {
    const inner: MemoryReplica
    const db: string
    const files: Cache?          // null: file bytes are not cached
    const listingTTL: int        // not positive: listings are not cached
    var listings: map<nat, Listing>

    ghost predicate Valid()
      reads this, inner, files
    {
      && (files != null ==> files.Valid() && Fresh(files.entries, db, inner.objects))
      && ListingsOk(listings, inner.objects)
    }

    constructor (inner: MemoryReplica, db: string, files: Cache?, listingTTL: int)
      requires files != null ==> files.Valid() && Fresh(files.entries, db, inner.objects)
      ensures Valid() && this.inner == inner && this.files == files && this.db == db && listings == map[]
    {
      this.inner, this.db, this.files, this.listingTTL, listings := inner, db, files, listingTTL, map[];
    }

    /** A listing is served from memory while its age is below the TTL. */
    method LTXFiles(level: nat, seek: nat, now: int) returns (infos: seq<Info>)
      requires Valid()
      modifies this
      ensures Valid() && Lists(infos, inner.objects, level, seek)
      ensures level == 0 || listingTTL <= 0 || (level in old(listings) && now - old(listings)[level].at < listingTTL)
              ==> listings == old(listings)
      ensures level > 0 && listingTTL > 0 && !(level in old(listings) && now - old(listings)[level].at < listingTTL)
              ==> level in listings && listings[level].at == now && listings - {level} == old(listings) - {level}
    {
      if level == 0 || listingTTL <= 0 {
        infos := inner.LTXFiles(level, seek);
        return;
      }
      if level in listings && now - listings[level].at < listingTTL {
        infos := FilterFrom(listings[level].infos, seek);
        return;
      }
      infos := inner.LTXFiles(level, 0);
      listings := listings[level := Listing(infos, now)];
      infos := FilterFrom(infos, seek);
    }

    method DropListings()
      requires Valid()
      modifies this
      ensures Valid() && listings == map[]
    {
      listings := map[];
    }

    /** Same bytes as the replica for every window that starts at or after zero. */
    method OpenLTXFile(file: File, offset: int, size: int) returns (r: Read)
      requires Valid()
      modifies files
      ensures Valid() && (files != null ==> OthersKept(old(files.entries), files.entries, db))
      ensures file !in inner.objects ==> r == NotExist
      ensures file in inner.objects ==>
                r == if files == null || offset >= 0 then Data(Window(inner.objects[file].data, offset, size))
                     else OutOfRange
      ensures files != null && file in inner.objects && Cacheable(files, inner.objects[file].data) ==>
                files.order != [] && files.order[0] == Key(db, file)
    {
      if files == null {
        r := inner.OpenLTXFile(file, offset, size);
        return;
      }
      var key := Key(db, file);
      var hit := files.Get(key);
      if hit.Some? {
        r := SliceReader(hit.value, offset, size);
        return;
      }
      var whole := inner.OpenLTXFile(file, 0, 0);
      if whole != NotExist {
        if |whole.bytes| <= MAX_CACHED_FILE_BYTES {
          files.Put(key, whole.bytes);
        }
        r := SliceReader(whole.bytes, offset, size);
      } else {
        r := NotExist;
      }
    }

    method WriteLTXFile(file: File, data: Bytes, stamp: Option<int>) returns (r: Result<Info>)
      requires Valid()
      modifies this, inner, files
      ensures Valid() && (files != null ==> OthersKept(old(files.entries), files.entries, db))
      ensures stamp.None? ==> r == Failure && inner.objects == old(inner.objects)
      ensures stamp.Some? ==>
                && inner.objects == old(inner.objects)[file := Object(data, stamp.value)]
                && r == Success(InfoOf(file, inner.objects[file]))
      ensures stamp.Some? && files != null && Cacheable(files, data) ==>
                files.order != [] && files.order[0] == Key(db, file)
    {
      DropLevel(file.level);
      if files == null {
        WriteKeepsListings(listings, inner.objects, file, data, stamp);
        r := inner.WriteLTXFile(file, data, stamp);
        return;
      }
      var key := Key(db, file);
      files.Drop(key);
      WriteKeepsListings(listings, inner.objects, file, data, stamp);
      r := inner.WriteLTXFile(file, data, stamp);
      if r == Failure {
        return;
      }
      if |data| <= MAX_CACHED_FILE_BYTES {
        files.Put(key, data);
      }
    }

    method DropLevel(level: nat)
      modifies this
      ensures listings == old(listings) - {level}
    {
      listings := listings - {level};
    }

    method DeleteLTXFiles(infos: seq<Info>)
      requires Valid()
      modifies this, inner, files
      ensures Valid() && (files != null ==> OthersKept(old(files.entries), files.entries, db))
      ensures inner.objects == Deleted(old(inner.objects), infos)
    {
      Forget(infos);
      DeleteKeepsListings(listings, inner.objects, infos);
      inner.DeleteLTXFiles(infos);
    }

    /** Drops the files' bytes and their levels' listings. */
    method Forget(infos: seq<Info>)
      requires files != null ==> files.Valid()
      modifies this, files
      ensures files != null ==> files.Valid() && files.entries == old(files.entries) - KeysOf(db, infos)
      ensures listings == old(listings) - LevelsOf(infos)
    {
      assert KeysOf(db, infos[..0]) == {} && LevelsOf(infos[..0]) == {};
      for i := 0 to |infos|
        invariant files != null ==> files.Valid() && files.entries == old(files.entries) - KeysOf(db, infos[..i])
        invariant listings == old(listings) - LevelsOf(infos[..i])
      {
        OneMore(db, infos, i);
        if files != null {
          files.Drop(Key(db, infos[i].file));
        }
        DropLevel(infos[i].file.level);
      }
      assert infos[..|infos|] == infos;
    }

    method DeleteAll()
      requires Valid()
      modifies this, inner, files
      ensures Valid() && (files != null ==> OthersKept(old(files.entries), files.entries, db))
      ensures inner.objects == map[] && listings == map[]
    {
      if files != null {
        files.DropDB(db);
      }
      listings := map[];
      inner.DeleteAll();
    }
  }

  // -------------------------------------------------------- sequential runs

  datatype Op =
    | ListOp(level: nat, seek: nat, now: int)
    | ReadOp(file: File, offset: nat, size: int)
    | WriteOp(file: File, data: Bytes, stamp: Option<int>)
    | DeleteOp(infos: seq<Info>)
    | DeleteAllOp

  datatype Answer = Listed(infos: seq<Info>) | Bytes(read: Read) | Written(r: Result<Info>) | Done

  /** The replica's objects after one operation. */
  function Apply(objects: map<File, Object>, op: Op): map<File, Object> {
    match op
    case ListOp(_, _, _) => objects
    case ReadOp(_, _, _) => objects
    case WriteOp(file, data, stamp) => if stamp.Some? then objects[file := Object(data, stamp.value)] else objects
    case DeleteOp(infos) => Deleted(objects, infos)
    case DeleteAllOp => map[]
  }

  function ApplyAll(objects: map<File, Object>, ops: seq<Op>): map<File, Object> {
    if ops == [] then objects else Apply(ApplyAll(objects, ops[..|ops| - 1]), ops[|ops| - 1])
  }

  /** The bare replica may answer op with a. */
  ghost predicate Answers(objects: map<File, Object>, op: Op, a: Answer) {
    match op
    case ListOp(level, seek, _) => a.Listed? && Lists(a.infos, objects, level, seek)
    case ReadOp(file, offset, size) =>
      a == Bytes(if file in objects then Data(Window(objects[file].data, offset, size)) else NotExist)
    case WriteOp(file, data, stamp) =>
      a == Written(if stamp.Some? then Success(InfoOf(file, Object(data, stamp.value))) else Failure)
    case DeleteOp(_) => a == Done
    case DeleteAllOp => a == Done
  }

  method Perform(c: Client, op: Op) returns (a: Answer)
    requires c.Valid()
    modifies c, c.inner, c.files
    ensures c.Valid() && Answers(old(c.inner.objects), op, a) && c.inner.objects == Apply(old(c.inner.objects), op)
  {
    match op
    case ListOp(level, seek, now) =>
      var infos := c.LTXFiles(level, seek, now);
      a := Listed(infos);
    case ReadOp(file, offset, size) =>
      var r := c.OpenLTXFile(file, offset, size);
      a := Bytes(r);
    case WriteOp(file, data, stamp) =>
      var r := c.WriteLTXFile(file, data, stamp);
      a := Written(r);
    case DeleteOp(infos) =>
      c.DeleteLTXFiles(infos);
      a := Done;
    case DeleteAllOp =>
      c.DeleteAll();
      a := Done;
  }

  /** Every answer of a sequential run through the cache is one the bare replica would give at that point. */
  method Run(c: Client, ops: seq<Op>) returns (answers: seq<Answer>)
    requires c.Valid()
    modifies c, c.inner, c.files
    ensures c.Valid() && |answers| == |ops| && c.inner.objects == ApplyAll(old(c.inner.objects), ops)
    ensures forall i :: 0 <= i < |ops| ==> Answers(ApplyAll(old(c.inner.objects), ops[..i]), ops[i], answers[i])
  {
    answers := [];
    for i := 0 to |ops|
      invariant c.Valid() && |answers| == i && c.inner.objects == ApplyAll(old(c.inner.objects), ops[..i])
      invariant forall j :: 0 <= j < i ==> Answers(ApplyAll(old(c.inner.objects), ops[..j]), ops[j], answers[j])
    {
      var a := Perform(c, ops[i]);
      answers := answers + [a];
      assert ops[..i + 1][..i] == ops[..i];
    }
    assert ops[..|ops|] == ops;
  }

  method FilterFrom(infos: seq<Info>, seek: nat) returns (r: seq<Info>)
    ensures forall i :: i in r <==> i in infos && i.file.min >= seek
    ensures Distinct(infos) ==> Distinct(r)
  {
    if seek == 0 {
      return infos;
    }
    r := [];
    for i := 0 to |infos|
      invariant forall x :: x in r <==> x in infos[..i] && x.file.min >= seek
      invariant Distinct(infos) ==> Distinct(r)
    {
      if infos[i].file.min >= seek {
        r := r + [infos[i]];
      }
    }
    assert infos[..|infos|] == infos;
  }

  /** A slice with a negative start is out of range; the replica reads such a window from zero. */
  method SliceReader(data: Bytes, offset: int, size: int) returns (r: Read)
    ensures r == if offset >= 0 then Data(Window(data, offset, size)) else OutOfRange
  {
    if offset >= |data| {
      return Data([]);
    }
    if offset < 0 {
      return OutOfRange;
    }
    var window := data[offset..];
    if size > 0 && |window| > size {
      window := window[..size];
    }
    return Data(window);
  }

  lemma WriteKeepsListings(listings: map<nat, Listing>, objects: map<File, Object>, file: File, data: Bytes,
                           stamp: Option<int>)
    requires ListingsOk(listings, objects) && file.level !in listings
    ensures stamp.Some? ==> ListingsOk(listings, objects[file := Object(data, stamp.value)])
  {
  }

  lemma DeleteKeepsListings(listings: map<nat, Listing>, objects: map<File, Object>, infos: seq<Info>)
    requires ListingsOk(listings, objects) && forall j :: 0 <= j < |infos| ==> infos[j].file.level !in listings
    ensures ListingsOk(listings, Deleted(objects, infos))
  {
    forall level | level in listings
      ensures Lists(listings[level].infos, Deleted(objects, infos), level, 0)
    {
      assert Lists(listings[level].infos, objects, level, 0);
    }
  }
}
