/** The object store (an S3 bucket behind a shared helper) and the local
    file system, each a map from key or path to stored value. A read of a key
    that holds a value of another kind is treated as a miss. */
module Storage {
  import opened Wrappers
  import opened Frames
  import opened Artifacts
  import Strings

  class LocalDisk {
    var files: map<string, Blob>

    constructor(initial: map<string, Blob>)
      ensures files == initial
    {
      files := initial;
    }
  }

  function JsonAt(objects: map<string, Blob>, key: string): Option<Json> {
    if key in objects && objects[key].JsonDoc? then Some(objects[key].json) else None
  }

  /** A missing table reads as the empty DataFrame. */
  function TableAt(objects: map<string, Blob>, key: string): (t: Table)
    ensures key !in objects ==> t == EmptyTable
  {
    if key in objects && objects[key].TableFile? then objects[key].table else EmptyTable
  }

  /** `None` stands for the empty DataFrame a missing pickle reads as. */
  function PickleAt(objects: map<string, Blob>, key: string): Option<Pickled> {
    if key in objects && objects[key].Pickle? then Some(objects[key].obj) else None
  }

  /** The key an object under folder `src` gets when the folder is copied to `dst`. */
  function Moved(k: string, src: string, dst: string): string
    requires Strings.StartsWith(k, src + "/")
  {
    dst + "/" + k[|src| + 1..]
  }

  lemma MovedInDst(k: string, src: string, dst: string)
    requires Strings.StartsWith(k, src + "/")
    ensures Strings.StartsWith(Moved(k, src, dst), dst + "/")
  {
    assert Moved(k, src, dst)[..|dst| + 1] == dst + "/";
  }

  lemma MovedInjective(k1: string, k2: string, src: string, dst: string)
    requires Strings.StartsWith(k1, src + "/") && Strings.StartsWith(k2, src + "/")
    requires Moved(k1, src, dst) == Moved(k2, src, dst)
    ensures k1 == k2
  {
    assert k1[|src| + 1..] == Moved(k1, src, dst)[|dst| + 1..];
    assert k2[|src| + 1..] == Moved(k2, src, dst)[|dst| + 1..];
    assert k1 == k1[..|src| + 1] + k1[|src| + 1..];
    assert k2 == k2[..|src| + 1] + k2[|src| + 1..];
  }

  predicate InFolder(objects: map<string, Blob>, k: string, folder: string) {
    k in objects && Strings.StartsWith(k, folder + "/")
  }

  /** The store after every object under `src/` is copied to the same relative
      key under `dst/`; nothing is deleted. */
  function CopiedFolder(objects: map<string, Blob>, src: string, dst: string): (r: map<string, Blob>)
    ensures forall k :: k in objects && Strings.StartsWith(k, src + "/") ==>
      Moved(k, src, dst) in r && r[Moved(k, src, dst)] == objects[k]
    ensures forall k :: k in objects ==> k in r
    ensures forall k :: k in objects && !Strings.StartsWith(k, dst + "/") ==> r[k] == objects[k]
    ensures forall k :: k in r ==> k in objects || Strings.StartsWith(k, dst + "/")
  {
    objects + Copies(objects, src, dst)
  }

  /** The copies alone: each object under `src/` at its key moved under `dst/`. */
  function Copies(objects: map<string, Blob>, src: string, dst: string): (c: map<string, Blob>)
    ensures forall k :: InFolder(objects, k, src) ==> Moved(k, src, dst) in c && c[Moved(k, src, dst)] == objects[k]
    ensures forall k :: k in c ==> Strings.StartsWith(k, dst + "/")
  {
    forall k | InFolder(objects, k, src)
      ensures Strings.StartsWith(Moved(k, src, dst), dst + "/")
    {
      MovedInDst(k, src, dst);
    }
    assert forall k1, k2 :: InFolder(objects, k1, src) && InFolder(objects, k2, src) ==>
      (Moved(k1, src, dst) == Moved(k2, src, dst) ==> k1 == k2) by {
      forall k1, k2 | InFolder(objects, k1, src) && InFolder(objects, k2, src) && Moved(k1, src, dst) == Moved(k2, src, dst)
        ensures k1 == k2
      {
        MovedInjective(k1, k2, src, dst);
      }
    }
    map k | k in objects && Strings.StartsWith(k, src + "/") :: Moved(k, src, dst) := objects[k]
  }

  class S3Store {
    var objects: map<string, Blob>

    constructor(initial: map<string, Blob>)
      ensures objects == initial
    {
      objects := initial;
    }

    method SaveJson(data: Json, key: string)
      modifies this
      ensures objects == old(objects)[key := JsonDoc(data)]
    {
      objects := objects[key := JsonDoc(data)];
    }

    /** `None` when the key is missing. */
    method LoadJson(key: string) returns (r: Option<Json>)
      ensures r == JsonAt(objects, key)
      ensures key !in objects ==> r == None
    {
      r := JsonAt(objects, key);
    }

    method SaveParquet(t: Table, key: string)
      modifies this
      ensures objects == old(objects)[key := TableFile(t)]
    {
      objects := objects[key := TableFile(t)];
    }

    /** The empty table when the key is missing. */
    method LoadParquet(key: string) returns (t: Table)
      ensures t == TableAt(objects, key)
      ensures key !in objects ==> t == EmptyTable
    {
      t := TableAt(objects, key);
    }

    method SavePkl(p: Pickled, key: string)
      modifies this
      ensures objects == old(objects)[key := Pickle(p)]
    {
      objects := objects[key := Pickle(p)];
    }

    method LoadPkl(key: string) returns (p: Option<Pickled>)
      ensures p == PickleAt(objects, key)
      ensures key !in objects ==> p == None
    {
      p := PickleAt(objects, key);
    }

    /** Upload a local file, then delete it when asked; `false` when the local
        file does not exist (the upload raises). */
    method Upload(disk: LocalDisk, path: string, key: string, deleteLocal: bool) returns (ok: bool)
      modifies this, disk
      ensures ok <==> path in old(disk.files)
      ensures ok ==> objects == old(objects)[key := old(disk.files)[path]]
      ensures ok ==> disk.files == if deleteLocal then old(disk.files) - {path} else old(disk.files)
      ensures !ok ==> objects == old(objects) && disk.files == old(disk.files)
    {
      ok := path in disk.files;
      if ok {
        objects := objects[key := disk.files[path]];
        if deleteLocal {
          disk.files := disk.files - {path};
        }
      }
    }

    /** Download an object to a local path; `false` when the key is missing. */
    method DownloadFile(key: string, disk: LocalDisk, path: string) returns (found: bool)
      modifies disk
      ensures found <==> key in objects
      ensures disk.files == if found then old(disk.files)[path := objects[key]] else old(disk.files)
    {
      found := key in objects;
      if found {
        disk.files := disk.files[path := objects[key]];
      }
    }

    /** Copy every object under folder `src` to folder `dst`. */
    method CopyFolder(src: string, dst: string)
      modifies this
      ensures objects == CopiedFolder(old(objects), src, dst)
    {
      objects := CopiedFolder(objects, src, dst);
    }
  }
}
