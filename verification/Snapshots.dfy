/** Shipping a snapshot directory to the bucket, copying it into a base, and fetching it back. */
module Snapshots {
  import opened Bytes
  import opened Records
  import opened Keys
  import opened Bucket
  import Sparse

  const BASES := "bases/"

  function Get(objects: map<string, seq<byte>>, k: string): Option<seq<byte>> {
    if k in objects then Some(objects[k]) else None
  }

  // ---- upload ----

  datatype Entry = Directory | File(file: Sparse.SparseFile)

  /** A local directory: names hold no slash and are not empty. */
  ghost predicate Listable(dir: map<string, Entry>) {
    forall name <- dir :: name != "" && '/' !in name && (dir[name].File? ==> Sparse.Valid(dir[name].file))
  }

  predicate IsFile(dir: map<string, Entry>, name: string) {
    name in dir && dir[name].File?
  }

  /** The name under which a key holds a file of the directory `p`, if any. */
  function Below(p: string, k: string): string {
    if p + "/" <= k then k[|p| + 1..] else ""
  }

  /** The bucket after an upload, key by key. */
  ghost function Uploaded(objects: map<string, seq<byte>>, dir: map<string, Entry>, p: string,
                          k: string): Option<seq<byte>>
    requires Listable(dir)
  {
    if IsFile(dir, Below(p, k)) then Some(Sparse.Object(dir[Below(p, k)].file)) else Get(objects, k)
  }

  lemma {:induction false} BelowIs(p: string, name: string)
    ensures Below(p, p + "/" + name) == name
  {
    assert (p + "/" + name)[|p| + 1..] == name;
  }

  lemma {:induction false} BelowBack(p: string, k: string)
    requires Below(p, k) != ""
    ensures k == p + "/" + Below(p, k)
  {
    assert k == k[..|p| + 1] + k[|p| + 1..];
  }

  method UploadDir(b: Bucket, dir: map<string, Entry>, prefix: string)
    requires Listable(dir)
    modifies b
    ensures forall k :: Get(b.objects, k) == Uploaded(old(b.objects), dir, TrimSlash(prefix), k)
  {
    var p := TrimSlash(prefix);
    var left := dir.Keys;
    while left != {}
      invariant left <= dir.Keys
      invariant forall k ::
          Get(b.objects, k) ==
          if Below(p, k) in left then Get(old(b.objects), k) else Uploaded(old(b.objects), dir, p, k)
      decreases |left|
    {
      ghost var least := LeastExists(left);
      var name :| name in left && forall j <- left :: j == name || Less(name, j);
      BelowIs(p, name);
      left := left - {name};
      if dir[name].Directory? {
        continue;
      }
      var out, _, _ := Sparse.Write(dir[name].file);
      ghost var before := b.objects;
      b.objects := b.objects[p + "/" + name := out];
      forall k
        ensures Get(b.objects, k) ==
          if Below(p, k) in left then Get(old(b.objects), k) else Uploaded(old(b.objects), dir, p, k)
      {
        if Below(p, k) == name {
          BelowBack(p, k);
        }
      }
    }
  }

  // ---- promote ----

  /** Copies in order; a later key of the same name overwrites an earlier one. */
  function CopyAll(objects: map<string, seq<byte>>, keys: seq<string>, dst: string): (r: map<string, seq<byte>>)
    requires forall k <- keys :: k in objects
    ensures objects.Keys <= r.Keys
  {
    if keys == [] then objects
    else
      var n := |keys| - 1;
      var rest := CopyAll(objects, keys[..n], dst);
      assert keys[n] in keys;
      rest[dst + "/" + Name(keys[n]) := rest[keys[n]]]
  }

  datatype Promoted = Promoted(uri: string, count: nat)

  function BaseOf(id: string, src: string): string {
    BASES + id + "/" + Name(src)
  }

  method Promote(b: Bucket, id: string, srcPrefix: string) returns (r: Option<Promoted>, ghost keys: seq<string>)
    requires b.pageSize >= 1
    modifies b
    ensures var src := TrimSlash(srcPrefix);
      && (src != "" ==> Lists(old(b.objects), src + "/", keys))
      && (r.None? <==> src == "" || Matching(old(b.objects), src + "/") == {})
      && (r.None? ==> b.objects == old(b.objects))
      && (r.Some? ==>
            && r.value == Promoted(BaseOf(id, src), |keys|)
            && r.value.uri == "bases/" + id + "/" + Name(src)
            && b.objects == CopyAll(old(b.objects), keys, BaseOf(id, src)))
  {
    keys := [];
    var src := TrimSlash(srcPrefix);
    if src == "" {
      return None, keys;
    }
    var dst := BaseOf(id, src);
    var listed := b.ListKeys(src + "/");
    keys := listed;
    if |listed| == 0 {
      assert Matching(b.objects, src + "/") == {};
      return None, keys;
    }
    assert listed[0] in listed && listed[0] in Matching(b.objects, src + "/");
    for i := 0 to |listed|
      invariant forall k <- listed :: k in old(b.objects) && k in b.objects
      invariant b.objects == CopyAll(old(b.objects), listed[..i], dst)
    {
      assert listed[..i + 1][..i] == listed[..i] && listed[i] in listed;
      b.objects := b.objects[dst + "/" + Name(listed[i]) := b.objects[listed[i]]];
    }
    assert listed[..|listed|] == listed;
    return Some(Promoted(dst, |listed|)), keys;
  }

  /** The copies of a flat source into a destination apart from it, key by key. */
  lemma {:induction false} CopiedFlat(objects: map<string, seq<byte>>, keys: seq<string>, p: string, dst: string,
                                      k: string)
    requires forall key <- keys :: key in objects && Below(p, key) != "" && '/' !in Below(p, key)
    requires forall key <- keys :: Below(dst, key) == ""
    ensures Get(CopyAll(objects, keys, dst), k)
         == if Below(dst, k) != "" && p + "/" + Below(dst, k) in keys then Some(objects[p + "/" + Below(dst, k)])
            else Get(objects, k)
  {
    if keys != [] {
      var n := |keys| - 1;
      var key := keys[n];
      var rest := CopyAll(objects, keys[..n], dst);
      assert keys == keys[..n] + [key];
      CopiedFlat(objects, keys[..n], p, dst, k);
      CopiedFlat(objects, keys[..n], p, dst, key);
      BelowBack(p, key);
      NameAfterSlash(p, Below(p, key));
      BelowIs(dst, Name(key));
      if Below(dst, k) != "" {
        BelowBack(dst, k);
        BelowIs(p, Below(dst, k));
      }
    }
  }

  // ---- reclaim ----

  /** Removes the base's own objects and no others, or some of them when a call fails. */
  method Reclaim(b: Bucket, id: string) returns (ok: bool)
    requires b.pageSize >= 1
    modifies b
    ensures var own := Matching(old(b.objects), "bases/" + id + "/");
      if ok then b.objects == old(b.objects) - own else Shrunk(old(b.objects), b.objects, own)
    ensures old(b.faults) == [] ==> ok
  {
    ok := b.Call();
    if !ok {
      return;
    }
    var keys := b.ListKeys(BASES + id + "/");
    ok := b.DeleteAll(keys);
  }

  /** A copy changes only the destination. */
  lemma {:induction false} CopiesLandInside(objects: map<string, seq<byte>>, keys: seq<string>, dst: string, k: string)
    requires (forall key <- keys :: key in objects) && !(dst + "/" <= k)
    ensures Get(CopyAll(objects, keys, dst), k) == Get(objects, k)
  {
    if keys != [] {
      var n := |keys| - 1;
      assert keys[n] in keys;
      CopiesLandInside(objects, keys[..n], dst, k);
      assert dst + "/" <= dst + "/" + Name(keys[n]);
    }
  }

  /** Reclaiming a base undoes its promotion: what is left is what was there before, apart from the base itself. */
  lemma {:induction false} ReclaimUndoesPromote(objects: map<string, seq<byte>>, keys: seq<string>, id: string,
                                                src: string)
    requires forall key <- keys :: key in objects
    ensures var promoted, own := CopyAll(objects, keys, BaseOf(id, src)), "bases/" + id + "/";
      promoted - Matching(promoted, own) == objects - Matching(objects, own)
  {
    var promoted, own, dst := CopyAll(objects, keys, BaseOf(id, src)), "bases/" + id + "/", BaseOf(id, src);
    forall k | !(own <= k) ensures Get(promoted, k) == Get(objects, k) {
      assert own <= dst + "/";
      CopiesLandInside(objects, keys, dst, k);
    }
    forall k ensures k in promoted - Matching(promoted, own) <==> k in objects - Matching(objects, own) {
      assert Get(promoted, k) == Get(objects, k) || own <= k;
    }
    forall k <- promoted - Matching(promoted, own) ensures promoted[k] == objects[k] {
      assert Get(promoted, k) == Get(objects, k);
    }
  }

  /** Reclaiming one base leaves every other base whole. */
  lemma {:induction false} ReclaimSparesOtherBases(objects: map<string, seq<byte>>, id: string, other: string)
    requires '/' !in id && '/' !in other && id != other
    ensures Matching(objects, BASES + id + "/") !! Matching(objects, BASES + other + "/")
  {
    forall k | k in Matching(objects, BASES + id + "/") && k in Matching(objects, BASES + other + "/") ensures false {
      DirectoriesDisjoint(BASES, id, other, k);
    }
  }

  // ---- download ----

  /** Fetching one object through its temporary name. */
  function FetchOne(files: map<string, seq<byte>>, name: string, body: seq<byte>): Option<map<string, seq<byte>>> {
    var r := Sparse.DecodeObject(body);
    if name == "" || r.Err? then None else Some((files - {name + ".dl"})[name := r.image])
  }

  function Fetch(files: map<string, seq<byte>>, objects: map<string, seq<byte>>,
                 keys: seq<string>): Option<map<string, seq<byte>>>
    requires forall k <- keys :: k in objects
  {
    if keys == [] then Some(files)
    else
      var n := |keys| - 1;
      assert keys[n] in keys;
      var rest := Fetch(files, objects, keys[..n]);
      if rest.None? then None else FetchOne(rest.value, Name(keys[n]), objects[keys[n]])
  }

  lemma {:induction false} FetchConcat(files: map<string, seq<byte>>, objects: map<string, seq<byte>>, a: seq<string>,
                                       b: seq<string>)
    requires forall k <- a + b :: k in objects
    ensures Fetch(files, objects, a + b)
         == var m := Fetch(files, objects, a); if m.None? then None else Fetch(m.value, objects, b)
  {
    if b == [] {
      assert a + b == a;
    } else {
      var n := |b| - 1;
      assert (a + b)[..|a + b| - 1] == a + b[..n] && (a + b)[|a + b| - 1] == b[n];
      forall k <- a + b[..n] ensures k in objects {
        assert k in a + b;
      }
      FetchConcat(files, objects, a, b[..n]);
    }
  }

  /** Downloading succeeded exactly when fetching the whole listing in order does, and with that outcome. */
  ghost predicate Fetched(before: map<string, seq<byte>>, objects: map<string, seq<byte>>, p: string, ok: bool,
                          files: map<string, seq<byte>>) {
    forall keys | Lists(objects, p, keys) ::
      var r := Fetch(before, objects, keys); (ok <==> r.Some?) && (ok ==> r.value == files)
  }

  lemma {:induction false} FetchEnds(before: map<string, seq<byte>>, objects: map<string, seq<byte>>, p: string,
                                     done: seq<string>,
                                     truncated: bool, ok: bool, files: map<string, seq<byte>>)
    requires if truncated then done != [] && ListedTo(Matching(objects, p), done, Some(done[|done| - 1]))
             else Lists(objects, p, done)
    requires (forall k <- done :: k in objects) && (!ok || !truncated)
    requires Fetch(before, objects, done) == if ok then Some(files) else None
    ensures Fetched(before, objects, p, ok, files)
  {
    forall keys | Lists(objects, p, keys)
      ensures var r := Fetch(before, objects, keys); (ok <==> r.Some?) && (ok ==> r.value == files)
    {
      ListingStartsWith(Matching(objects, p), done, truncated, keys);
      assert keys == done + keys[|done|..];
      FetchConcat(before, objects, done, keys[|done|..]);
    }
  }

  class Local {
    var files: map<string, seq<byte>>

    method DownloadOne(body: seq<byte>, key: string) returns (ok: bool)
      modifies this
      ensures match FetchOne(old(files), Name(key), body)
        case Some(m) => ok && files == m
        case None => !ok
      ensures ok <==> Name(key) != "" && Sparse.DecodeObject(body).Ok?
      ensures ok ==> Name(key) in files && files[Name(key)] == Sparse.DecodeObject(body).image
      ensures forall name <- old(files) | name != Name(key) && name != Name(key) + ".dl" ::
        name in files && files[name] == old(files)[name]
    {
      var name := Name(key);
      if name == "" {
        return false;
      }
      var tmp := name + ".dl";
      assert |tmp| > |name|;
      files := files[tmp := body];
      if !Sparse.HasMagic(body) {
        files := (files - {tmp})[name := body];
        assert files == (old(files) - {tmp})[name := body];
        return true;
      }
      var r := Sparse.DecodeObject(body);
      files := files - {tmp};
      assert files == old(files) - {tmp};
      if r.Err? {
        files := files - {name};
        return false;
      }
      files := files[name := r.image];
      return true;
    }

    method DownloadKeys(b: Bucket, keys: seq<string>) returns (ok: bool)
      requires forall k <- keys :: k in b.objects
      modifies this
      ensures match Fetch(old(files), b.objects, keys)
        case Some(m) => ok && files == m
        case None => !ok
    {
      for i := 0 to |keys|
        invariant b.objects == old(b.objects)
        invariant Fetch(old(files), b.objects, keys[..i]) == Some(files)
      {
        assert keys[..i + 1][..i] == keys[..i] && keys[i] in keys;
        ok := DownloadOne(b.objects[keys[i]], keys[i]);
        if !ok {
          FetchConcat(old(files), b.objects, keys[..i + 1], keys[i + 1..]);
          assert keys[..i + 1] + keys[i + 1..] == keys;
          return;
        }
      }
      assert keys[..|keys|] == keys;
      return true;
    }

    /** Walks every page under the prefix: the same as fetching the whole listing in order. */
    method DownloadPrefix(b: Bucket, prefix: string) returns (ok: bool)
      requires b.pageSize >= 1
      modifies this
      ensures Fetched(old(files), b.objects, TrimSlash(prefix) + "/", ok, files)
    {
      var p := TrimSlash(prefix) + "/";
      ghost var done: seq<string> := [];
      var token: Option<string> := None;
      while true
        invariant b.objects == old(b.objects) && ListedTo(Matching(b.objects, p), done, token)
        invariant Fetch(old(files), b.objects, done) == Some(files)
        decreases |Pending(Matching(b.objects, p), token)|
      {
        var page, truncated := b.ListPage(p, token);
        Listed(Matching(b.objects, p), done, token, page, truncated);
        FetchConcat(old(files), b.objects, done, page);
        ok := DownloadKeys(b, page);
        done := done + page;
        if !ok || !truncated {
          FetchEnds(old(files), b.objects, p, done, truncated, ok, files);
          return;
        }
        PendingShrinks(Matching(b.objects, p), token, page);
        token := Some(page[|page| - 1]);
      }
    }
  }

  predicate InListing(keys: seq<string>, p: string, name: string) {
    name != "" && p + "/" + name in keys
  }

  /** One decoded file for every key, and no other file. */
  ghost predicate Holds(files: map<string, seq<byte>>, objects: map<string, seq<byte>>, keys: seq<string>, p: string)
    requires forall k <- keys :: k in objects
  {
    && (forall name :: name in files <==> InListing(keys, p, name))
    && (forall name <- files :: var r := Sparse.DecodeObject(objects[p + "/" + name]); r.Ok? && files[name] == r.image)
  }

  lemma {:induction false} ListingNext(keys: seq<string>, p: string, name: string, other: string)
    requires name != ""
    ensures InListing(keys + [p + "/" + name], p, other) <==> other == name || InListing(keys, p, other)
  {
    BelowIs(p, name);
    BelowIs(p, other);
  }

  lemma {:induction false} HoldsNext(files: map<string, seq<byte>>, objects: map<string, seq<byte>>,
                                     front: seq<string>, p: string,
                                     name: string, key: string)
    requires name != "" && '/' !in name && key == p + "/" + name && key in objects
    requires (forall k <- front :: k in objects) && Holds(files, objects, front, p)
    requires name + ".dl" !in files && Sparse.DecodeObject(objects[key]).Ok?
    ensures forall k <- front + [key] :: k in objects
    ensures var r := FetchOne(files, name, objects[key]); r.Some? && Holds(r.value, objects, front + [key], p)
  {
    var r := FetchOne(files, name, objects[key]).value;
    assert files - {name + ".dl"} == files;
    forall other ensures other in r <==> InListing(front + [key], p, other) {
      ListingNext(front, p, name, other);
    }
  }

  /** No temporary name hits a file already fetched, because a key comes before its own extensions. */
  lemma {:induction false} TemporaryIsFree(front: seq<string>, key: string, p: string, name: string)
    requires (forall k <- front :: Less(k, key)) && key == p + "/" + name
    ensures !InListing(front, p, name + ".dl")
  {
    var temp := p + "/" + (name + ".dl");
    if temp in front {
      assert temp == key + ".dl";
      LessExtension(key, ".dl");
      LessTransitive(key, temp, key);
      LessIrreflexive(key);
    }
  }

  /** A key holding an encoded or dense file, directly under `p`. */
  ghost predicate FlatFile(objects: map<string, seq<byte>>, p: string, key: string) {
    key in objects && Below(p, key) != "" && '/' !in Below(p, key) && Sparse.DecodeObject(objects[key]).Ok?
  }

  lemma {:induction false} FetchNext(objects: map<string, seq<byte>>, front: seq<string>, key: string, p: string,
                                     files: map<string, seq<byte>>)
    requires FlatFile(objects, p, key) && forall k <- front :: k in objects && Less(k, key)
    requires Holds(files, objects, front, p)
    ensures forall k <- front + [key] :: k in objects
    ensures var r := FetchOne(files, Name(key), objects[key]); r.Some? && Holds(r.value, objects, front + [key], p)
  {
    var name := Below(p, key);
    BelowBack(p, key);
    NameAfterSlash(p, name);
    TemporaryIsFree(front, key, p, name);
    HoldsNext(files, objects, front, p, name, key);
  }

  /** Fetching a flat listing into an empty directory. */
  lemma {:induction false} FetchedFlat(objects: map<string, seq<byte>>, keys: seq<string>, p: string)
    requires Increasing(keys) && forall k <- keys :: FlatFile(objects, p, k)
    ensures forall k <- keys :: k in objects
    ensures var r := Fetch(map[], objects, keys); r.Some? && Holds(r.value, objects, keys, p)
  {
    if keys != [] {
      var n := |keys| - 1;
      assert keys == keys[..n] + [keys[n]];
      FetchedFlat(objects, keys[..n], p);
      FetchNext(objects, keys[..n], keys[n], p, Fetch(map[], objects, keys[..n]).value);
    }
  }

  /** The files of a local directory, as the restore sees them. */
  ghost function Contents(dir: map<string, Entry>): map<string, seq<byte>> {
    map name | name in dir && dir[name].File? :: dir[name].file.data
  }

  /** The keys of a promoted upload, and what they hold. */
  lemma {:induction false} PromotedHolds(
      start: map<string, seq<byte>>, dir: map<string, Entry>, p: string, uploaded: map<string, seq<byte>>,
      keys: seq<string>, dst: string, k: string)
    requires Listable(dir) && Matching(start, p + "/") == {}
    requires forall j :: Get(uploaded, j) == Uploaded(start, dir, p, j)
    requires Lists(uploaded, p + "/", keys) && Matching(uploaded, dst + "/") == {}
    requires dst + "/" <= k
    ensures Get(CopyAll(uploaded, keys, dst), k)
         == if IsFile(dir, Below(dst, k)) then Some(Sparse.Object(dir[Below(dst, k)].file)) else None
  {
    forall key <- keys ensures IsFile(dir, Below(p, key)) && Below(dst, key) == "" {
      assert Get(uploaded, key) == Uploaded(start, dir, p, key);
      assert key !in Matching(start, p + "/") && key !in Matching(uploaded, dst + "/");
    }
    CopiedFlat(uploaded, keys, p, dst, k);
    assert k !in Matching(uploaded, dst + "/");
    var name := Below(dst, k);
    BelowIs(p, name);
    assert Get(uploaded, p + "/" + name) == Uploaded(start, dir, p, p + "/" + name);
    assert p + "/" + name !in Matching(start, p + "/");
  }

  /** The objects under a prefix are exactly the directory's files, encoded. */
  ghost predicate Encodes(objects: map<string, seq<byte>>, p: string, dir: map<string, Entry>)
    requires Listable(dir)
  {
    forall k | p + "/" <= k ::
      Get(objects, k) == if IsFile(dir, Below(p, k)) then Some(Sparse.Object(dir[Below(p, k)].file)) else None
  }

  lemma {:induction false} Decodes(objects: map<string, seq<byte>>, p: string, dir: map<string, Entry>,
                                   keys: seq<string>, k: string)
    requires Listable(dir) && Encodes(objects, p, dir) && Lists(objects, p + "/", keys) && k in keys
    ensures k in objects && IsFile(dir, Below(p, k))
    ensures Sparse.DecodeObject(objects[k]) == Sparse.Ok(dir[Below(p, k)].file.data, [])
  {
    assert Get(objects, k).Some?;
    Sparse.ObjectRoundTrip(dir[Below(p, k)].file);
  }

  lemma {:induction false} ListedExactly(objects: map<string, seq<byte>>, p: string, dir: map<string, Entry>,
                                         keys: seq<string>, name: string)
    requires Listable(dir) && Encodes(objects, p, dir) && Lists(objects, p + "/", keys)
    ensures InListing(keys, p, name) <==> IsFile(dir, name)
  {
    BelowIs(p, name);
    var k := p + "/" + name;
    assert p + "/" <= k;
    assert Get(objects, k).Some? <==> k in keys;
  }

  lemma {:induction false} HeldAreContents(objects: map<string, seq<byte>>, p: string, dir: map<string, Entry>,
                                           keys: seq<string>,
                                           files: map<string, seq<byte>>)
    requires Listable(dir) && Encodes(objects, p, dir) && Lists(objects, p + "/", keys)
    requires Holds(files, objects, keys, p)
    ensures files == Contents(dir)
  {
    forall name ensures name in files <==> name in Contents(dir) {
      ListedExactly(objects, p, dir, keys, name);
    }
    forall name <- files ensures files[name] == Contents(dir)[name] {
      assert InListing(keys, p, name);
      BelowIs(p, name);
      Decodes(objects, p, dir, keys, p + "/" + name);
    }
  }

  /** A download of encoded files gives the files. */
  lemma {:induction false} DownloadsFiles(objects: map<string, seq<byte>>, p: string, dir: map<string, Entry>,
                                          keys: seq<string>)
    requires Listable(dir) && Encodes(objects, p, dir) && Lists(objects, p + "/", keys)
    ensures Fetch(map[], objects, keys) == Some(Contents(dir))
  {
    forall k <- keys ensures FlatFile(objects, p, k) {
      Decodes(objects, p, dir, keys, k);
    }
    FetchedFlat(objects, keys, p);
    HeldAreContents(objects, p, dir, keys, Fetch(map[], objects, keys).value);
  }

  /** Uploading a directory, promoting it and downloading the base gives the directory's files back, whatever the page
      size, as long as nothing else was under the two prefixes. */
  lemma {:induction false} SnapshotRoundTrip(
      start: map<string, seq<byte>>, dir: map<string, Entry>, p: string, uploaded: map<string, seq<byte>>,
      keys: seq<string>, dst: string, base: seq<string>)
    requires Listable(dir) && Matching(start, p + "/") == {}
    requires forall k :: Get(uploaded, k) == Uploaded(start, dir, p, k)
    requires Lists(uploaded, p + "/", keys) && Matching(uploaded, dst + "/") == {}
    requires Lists(CopyAll(uploaded, keys, dst), dst + "/", base)
    ensures Fetch(map[], CopyAll(uploaded, keys, dst), base) == Some(Contents(dir))
  {
    var promoted := CopyAll(uploaded, keys, dst);
    forall k | dst + "/" <= k
      ensures Get(promoted, k) ==
        if IsFile(dir, Below(dst, k)) then Some(Sparse.Object(dir[Below(dst, k)].file)) else None
    {
      PromotedHolds(start, dir, p, uploaded, keys, dst, k);
    }
    DownloadsFiles(promoted, dst, dir, base);
  }

  /** An upload puts nothing under a prefix that does not lie above it. */
  lemma {:induction false} UploadMissesBase(dir: map<string, Entry>, p: string, dst: string, k: string)
    requires Listable(dir) && IsFile(dir, Below(p, k)) && dst + "/" <= k
    ensures dst + "/" <= p + "/"
  {
    var name := Below(p, k);
    BelowBack(p, k);
    assert k[|dst|] == (dst + "/")[|dst|] == '/';
    assert dst + "/" == k[..|dst| + 1] && p + "/" == k[..|p| + 1];
  }

  /** Suspending to the bucket, promoting to a base and restoring a fork from it, end to end. */
  method ShipAndRestore(b: Bucket, dir: map<string, Entry>, prefix: string, id: string) returns (ok: bool, local: Local)
    requires b.pageSize >= 1 && Listable(dir) && (exists name <- dir :: IsFile(dir, name))
    requires var p := TrimSlash(prefix);
      && p != "" && p[|p| - 1] != '/' && !(BaseOf(id, p) + "/" <= p + "/")
      && Matching(b.objects, p + "/") == {} && Matching(b.objects, BaseOf(id, p) + "/") == {}
    modifies b
    ensures ok && local.files == Contents(dir)
  {
    ghost var start := b.objects;
    var p := TrimSlash(prefix);
    UploadDir(b, dir, prefix);
    ghost var uploaded := b.objects;
    assert Matching(uploaded, BaseOf(id, p) + "/") == {} by {
      forall k | k in Matching(uploaded, BaseOf(id, p) + "/") ensures false {
        assert Get(uploaded, k) == Uploaded(start, dir, p, k);
        assert k !in Matching(start, BaseOf(id, p) + "/");
        UploadMissesBase(dir, p, BaseOf(id, p), k);
      }
    }
    assert TrimSlash(p) == p && TrimSlash(BaseOf(id, p)) == BaseOf(id, p);
    var promoted, keys := Promote(b, id, p);
    ghost var name :| IsFile(dir, name);
    BelowIs(p, name);
    assert Get(uploaded, p + "/" + name) == Uploaded(start, dir, p, p + "/" + name);
    assert p + "/" + name in Matching(uploaded, p + "/");
    local := new Local;
    local.files := map[];
    ok := local.DownloadPrefix(b, promoted.value.uri);
    ghost var base := ListingExists(b.objects, BaseOf(id, p) + "/");
    SnapshotRoundTrip(start, dir, p, uploaded, keys, BaseOf(id, p), base);
  }
}
