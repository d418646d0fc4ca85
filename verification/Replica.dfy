/**
 The in-memory replica of one database: a map from file to object.  It is the
 plain behaviour the caching client must reproduce.
 */
module Replica {
  import opened Wrappers
  import opened Levels
  import opened Manifest
  import opened FileCache

  datatype Object = Object(data: Bytes, createdAt: int)

  /** Reading a file: its window, an absent file, or a slice out of range. */
  datatype Read = Data(bytes: Bytes) | NotExist | OutOfRange

  function InfoOf(f: File, o: Object): Info {
    Info(f, |o.data|, o.createdAt)
  }

  /** The requested window; a size of zero or less means to the end. */
  function Window(data: Bytes, offset: int, size: int): (w: Bytes)
    ensures var start := if offset < 0 then 0 else if offset > |data| then |data| else offset;
            && |w| == (if 0 < size < |data| - start then size else |data| - start)
            && forall i :: 0 <= i < |w| ==> w[i] == data[start + i]
  {
    var rest := if offset <= 0 then data else if offset >= |data| then [] else data[offset..];
    if size > 0 && |rest| > size then rest[..size] else rest
  }

  /** infos lists exactly the stored files of a level from seek on, once each. */
  ghost predicate Lists(infos: seq<Info>, objects: map<File, Object>, level: nat, seek: nat) {
    && Distinct(infos)
    && forall i :: i in infos <==>
         i.file in objects && i == InfoOf(i.file, objects[i.file]) && i.file.level == level && i.file.min >= seek
  }

  /** The objects after deleting a list of files. */
  function Deleted(objects: map<File, Object>, files: seq<Info>): map<File, Object> {
    map f | f in objects && (forall i :: i in files ==> i.file != f) :: objects[f]
  }

  class MemoryReplica {
    var objects: map<File, Object>

    constructor ()
      ensures objects == map[]
    {
      objects := map[];
    }

    method LTXFiles(level: nat, seek: nat) returns (infos: seq<Info>)
      ensures Lists(infos, objects, level, seek)
    {
      infos := [];
      var walk := objects.Keys;
      while walk != {}
        invariant walk <= objects.Keys && Lists(infos, objects - walk, level, seek)
        decreases |walk|
      {
        var f :| f in walk;
        ghost var before := objects - walk;
        walk := walk - {f};
        assert objects - walk == before[f := objects[f]];
        if f.level == level && f.min >= seek {
          infos := infos + [InfoOf(f, objects[f])];
        }
      }
      assert objects - {} == objects;
    }

    method OpenLTXFile(file: File, offset: int, size: int) returns (r: Read)
      ensures r == if file in objects then Data(Window(objects[file].data, offset, size)) else NotExist
    {
      if file !in objects {
        return NotExist;
      }
      var data := objects[file].data;
      if offset > 0 {
        if offset >= |data| {
          data := [];
        } else {
          data := data[offset..];
        }
      }
      if size > 0 && |data| > size {
        data := data[..size];
      }
      return Data(data);
    }

    /** stamp is the header's timestamp; a file whose header cannot be read is refused. */
    method WriteLTXFile(file: File, data: Bytes, stamp: Option<int>) returns (r: Result<Info>)
      modifies this
      ensures stamp.None? ==> r == Failure && objects == old(objects)
      ensures stamp.Some? ==>
                && objects == old(objects)[file := Object(data, stamp.value)]
                && r == Success(Info(file, |data|, stamp.value))
    {
      if stamp.None? {
        return Failure;
      }
      objects := objects[file := Object(data, stamp.value)];
      return Success(Info(file, |data|, stamp.value));
    }

    method DeleteLTXFiles(files: seq<Info>)
      modifies this
      ensures objects == Deleted(old(objects), files)
    {
      for i := 0 to |files|
        invariant objects == Deleted(old(objects), files[..i])
      {
        objects := objects - {files[i].file};
        assert files[..i + 1] == files[..i] + [files[i]];
      }
      assert files[..|files|] == files;
    }

    method DeleteAll()
      modifies this
      ensures objects == map[]
    {
      objects := map[];
    }

    // ------------------------------------------- what the runtime asks of it

    /** The highest TXID in level 0. */
    method TailTXID() returns (max: nat)
      ensures max == Top(LevelFiles(objects.Keys, 0))
    {
      var infos := LTXFiles(0, 0);
      ListedFiles(infos, objects, 0);
      max := ManifestMaxTXID(infos);
    }

    /** One listing per level, ascending. */
    method BuildManifest() returns (files: seq<Info>)
      ensures Distinct(files)
      ensures forall i :: i in files <==>
                i.file in objects && i == InfoOf(i.file, objects[i.file]) && i.file.level <= 9
    {
      files := [];
      for level := 0 to SNAPSHOT_LEVEL + 1
        invariant Distinct(files)
        invariant forall i :: i in files <==>
                    i.file in objects && i == InfoOf(i.file, objects[i.file]) && i.file.level < level
      {
        var infos := LTXFiles(level, 0);
        files := files + infos;
      }
    }
  }

  lemma ListedFiles(infos: seq<Info>, objects: map<File, Object>, level: nat)
    requires Lists(infos, objects, level, 0)
    ensures FilesOf(infos) == LevelFiles(objects.Keys, level)
  {
    forall f | f in LevelFiles(objects.Keys, level) ensures f in FilesOf(infos) {
      assert InfoOf(f, objects[f]) in infos;
    }
  }
}
