/** The stored manifest document: what encoding writes, what decoding accepts, and the round trip. */
module ManifestDocument {
  import opened Wrappers
  import opened Levels
  import opened Manifest

  /** One entry as stored; nothing about it is trusted before decoding. */
  datatype Entry = Entry(level: int, min: nat, max: nat, size: int, createdAt: int)

  datatype Document = Document(version: int, files: seq<Entry>)

  predicate ValidEntry(e: Entry) {
    0 <= e.level <= SNAPSHOT_LEVEL && e.min != 0 && e.max >= e.min
  }

  function ToEntry(i: Info): Entry {
    Entry(i.file.level, i.file.min, i.file.max, i.size, i.createdAt)
  }

  predicate EntryOrder(a: Entry, b: Entry) {
    || a.level < b.level
    || (a.level == b.level && (a.min < b.min || (a.min == b.min && a.max <= b.max)))
  }

  /** The list without its nil elements. */
  function Present(files: seq<Option<Info>>): seq<Info> {
    if files == [] then []
    else Present(files[..|files| - 1]) + match files[|files| - 1] case None => [] case Some(i) => [i]
  }

  function ToEntries(s: seq<Info>): (r: seq<Entry>)
    ensures |r| == |s| && forall i :: 0 <= i < |s| ==> r[i] == ToEntry(s[i])
  {
    seq(|s|, i requires 0 <= i < |s| => ToEntry(s[i]))
  }

  ghost predicate IsEncoding(infos: seq<Info>, doc: Document) {
    && doc.version == 1 && SortedBy(doc.files, EntryOrder)
    && multiset(doc.files) == multiset(ToEntries(infos))
  }

  method EncodeManifest(files: seq<Option<Info>>) returns (doc: Document)
    ensures IsEncoding(Present(files), doc)
    ensures forall i, j :: 0 <= i < j < |doc.files| ==>
              var a, b := doc.files[i], doc.files[j];
              || a.level < b.level
              || (a.level == b.level && (a.min < b.min || (a.min == b.min && a.max <= b.max)))
  {
    var entries := [];
    for i := 0 to |files|
      invariant entries == ToEntries(Present(files[..i]))
    {
      assert files[..i + 1][..i] == files[..i];
      if files[i].Some? {
        entries := entries + [ToEntry(files[i].value)];
      }
    }
    assert files[..|files|] == files;
    entries := Sort(entries, EntryOrder);
    doc := Document(MANIFEST_VERSION, entries);
  }

  function Range(e: Entry): File
    requires ValidEntry(e)
  {
    File(e.level, e.min, e.max)
  }

  /** Entry k is the first of its range. */
  ghost predicate IsFirst(s: seq<Entry>, k: nat)
    requires k < |s|
  {
    forall j :: 0 <= j < k ==> !(s[j].level == s[k].level && s[j].min == s[k].min && s[j].max == s[k].max)
  }

  ghost predicate FirstEntry(s: seq<Entry>, i: Info) {
    exists k :: 0 <= k < |s| && s[k] == ToEntry(i) && IsFirst(s, k)
  }

  /** A document is refused for its version or for one bad entry; otherwise the first entry of each range is kept. */
  ghost predicate IsDecoding(doc: Document, r: Result<seq<Info>>) {
    && (r.Success? <==> doc.version == 1 && forall e :: e in doc.files ==> ValidEntry(e))
    && (r.Success? ==>
          && SortedBy(r.value, InOrder) && Distinct(r.value)
          && (forall i :: i in r.value ==> FirstEntry(doc.files, i))
          && (forall e :: e in doc.files ==> Range(e) in FilesOf(r.value)))
  }

  method DecodeManifest(doc: Document) returns (r: Result<seq<Info>>)
    ensures IsDecoding(doc, r)
    ensures r.Success? ==> forall i, j :: 0 <= i < j < |r.value| ==>
              var a, b := r.value[i].file, r.value[j].file;
              a.level < b.level || (a.level == b.level && a.min <= b.min)
  {
    if doc.version != MANIFEST_VERSION {
      return Failure;
    }
    var files := [];
    var seen: set<File> := {};
    for i := 0 to |doc.files|
      invariant forall j :: 0 <= j < i ==> ValidEntry(doc.files[j])
      invariant seen == FilesOf(files) && Distinct(files)
      invariant forall x :: x in files ==> FirstEntry(doc.files, x)
      invariant forall j :: 0 <= j < i ==> Range(doc.files[j]) in FilesOf(files)
    {
      var f := doc.files[i];
      assert f in doc.files;
      if f.level < 0 || f.level > SNAPSHOT_LEVEL {
        return Failure;
      }
      if f.min == 0 || f.max < f.min {
        return Failure;
      }
      var key := File(f.level, f.min, f.max);
      if key !in seen {
        var info := Info(key, f.size, f.createdAt);
        assert IsFirst(doc.files, i) && doc.files[i] == ToEntry(info);
        AppendFiles(files, info);
        seen := seen + {key};
        files := files + [info];
      }
    }
    var sorted := Sort(files, InOrder);
    SameElements(files, sorted);
    PermutedDistinct(files, sorted);
    r := Success(sorted);
  }

  predicate Storable(i: Info) {
    i.file.level <= 9 && 1 <= i.file.min <= i.file.max
  }

  /**
   What was encoded is what is decoded: accepted exactly when every file is
   storable, one info per range and each of them an original, and all of them
   when no range repeats.
   */
  lemma RoundTrip(infos: seq<Info>, doc: Document, r: Result<seq<Info>>)
    requires IsEncoding(infos, doc) && IsDecoding(doc, r)
    ensures r.Success? <==> forall i :: i in infos ==> Storable(i)
    ensures r.Success? ==>
              FilesOf(r.value) == FilesOf(infos) && Distinct(r.value) && forall i :: i in r.value ==> i in infos
    ensures r.Success? && Distinct(infos) ==> forall i :: i in r.value <==> i in infos
  {
    EncodedEntries(infos, doc);
    Accepted(infos, doc);
    if r.Success? {
      DecodedFiles(infos, doc, r.value);
    }
  }

  lemma Accepted(infos: seq<Info>, doc: Document)
    requires EntriesOf(infos, doc.files)
    ensures (forall e :: e in doc.files ==> ValidEntry(e)) <==> forall i :: i in infos ==> Storable(i)
  {
    assert forall i :: ValidEntry(ToEntry(i)) <==> Storable(i);
  }

  lemma DecodedFiles(infos: seq<Info>, doc: Document, files: seq<Info>)
    requires EntriesOf(infos, doc.files) && forall e :: e in doc.files ==> ValidEntry(e)
    requires forall i :: i in files ==> FirstEntry(doc.files, i)
    requires forall e :: e in doc.files ==> Range(e) in FilesOf(files)
    ensures FilesOf(files) == FilesOf(infos) && forall i :: i in files ==> i in infos
    ensures Distinct(infos) ==> forall i :: i in infos ==> i in files
  {
    forall i | i in files ensures i in infos {
      assert FirstEntry(doc.files, i);
      assert ToEntry(i) in doc.files;
    }
    forall i | i in infos
      ensures i.file in FilesOf(files) && (Distinct(infos) ==> i in files)
    {
      assert ToEntry(i) in doc.files && Range(ToEntry(i)) == i.file;
      var x :| x in files && x.file == i.file;
      assert x in infos;
    }
  }

  /** entries are the infos, entry by entry. */
  ghost predicate EntriesOf(infos: seq<Info>, entries: seq<Entry>) {
    && (forall i :: i in infos <==> ToEntry(i) in entries)
    && forall e :: e in entries ==> exists i :: i in infos && e == ToEntry(i)
  }

  lemma EncodedEntries(infos: seq<Info>, doc: Document)
    requires IsEncoding(infos, doc)
    ensures EntriesOf(infos, doc.files)
  {
    forall e ensures e in doc.files <==> e in ToEntries(infos) {
      assert e in doc.files <==> e in multiset(doc.files);
      assert e in ToEntries(infos) <==> e in multiset(ToEntries(infos));
    }
    forall i | i in infos ensures ToEntry(i) in doc.files {
      var k :| 0 <= k < |infos| && infos[k] == i;
      assert ToEntries(infos)[k] == ToEntry(i);
    }
    forall e | e in doc.files ensures exists i :: i in infos && e == ToEntry(i) {
      var k :| 0 <= k < |infos| && ToEntries(infos)[k] == e;
      assert infos[k] in infos && e == ToEntry(infos[k]);
    }
  }
}
