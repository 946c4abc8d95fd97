/** Reconstructing a complete memory image from a base and the pages faulted in since it. */
module Merge {
  import opened Bytes
  import opened Sparse

  const BUFFER: nat := 0x10_0000

  /** The delta's bytes where it has data, the base's elsewhere. */
  function Overlay(base: seq<byte>, delta: SparseFile): (r: seq<byte>)
    requires |delta.populated| == |delta.data| == |base|
    ensures |r| == |base|
  {
    seq(|base|, i requires 0 <= i < |base| => if delta.populated[i] then delta.data[i] else base[i])
  }

  /** `cur` is the overlay up to `off`, and still `base` from there on. */
  ghost predicate OverlaidTo(cur: seq<byte>, base: seq<byte>, delta: SparseFile, off: nat) {
    && |delta.populated| == |delta.data| == |base| == |cur| && off <= |base|
    && cur[..off] == Overlay(base, delta)[..off]
    && cur[off..] == base[off..]
  }

  /** One buffered read and write. */
  method CopyChunk(src: seq<byte>, dst: array<byte>, at: nat, n: nat)
    requires at + n <= |src| == dst.Length
    modifies dst
    ensures dst[..] == Overwrite(old(dst[..]), at, src[at..at + n])
  {
    ghost var before := dst[..];
    for i := 0 to n
      invariant forall k | 0 <= k < dst.Length :: dst[k] == if at <= k < at + i then src[k] else before[k]
    {
      dst[at + i] := src[at + i];
    }
  }

  /** A region, one buffer at a time. */
  method CopyRegion(src: seq<byte>, dst: array<byte>, ds: nat, de: nat) returns (copied: nat)
    requires ds <= de <= |src| == dst.Length
    modifies dst
    ensures dst[..] == Overwrite(old(dst[..]), ds, src[ds..de]) && copied == de - ds
  {
    ghost var before := dst[..];
    var remaining := de - ds;
    copied := 0;
    assert dst[..] == Overwrite(before, ds, src[ds..ds]);
    while remaining > 0
      invariant copied + remaining == de - ds && remaining >= 0
      invariant dst[..] == Overwrite(before, ds, src[ds..ds + copied])
    {
      var n := if BUFFER > remaining then remaining else BUFFER;
      CopyChunk(src, dst, ds + copied, n);
      assert Overwrite(Overwrite(before, ds, src[ds..ds + copied]), ds + copied, src[ds + copied..ds + copied + n])
          == Overwrite(before, ds, src[ds..ds + copied + n]);
      copied := copied + n;
      remaining := remaining - n;
    }
  }

  lemma {:induction false} RegionOverlaid(cur: seq<byte>, base: seq<byte>, delta: SparseFile, off: nat, ds: nat,
                                          de: nat)
    requires OverlaidTo(cur, base, delta, off) && off <= ds <= de <= |base|
    requires UniformTo(delta.populated, off, ds, false) && UniformTo(delta.populated, ds, de, true)
    ensures OverlaidTo(Overwrite(cur, ds, delta.data[ds..de]), base, delta, de)
  {
    var next, whole := Overwrite(cur, ds, delta.data[ds..de]), Overlay(base, delta);
    forall i | 0 <= i < de ensures next[i] == whole[i] {
      if i < off {
        assert cur[..off][i] == whole[..off][i];
      } else if i < ds {
        assert cur[off..][i - off] == base[off..][i - off];
      }
    }
    forall i | de <= i < |base| ensures next[i] == base[i] {
      assert cur[off..][i - off] == base[off..][i - off];
    }
  }

  /** copySparseRegions: every populated region of the source lands in place, and nothing else changes. */
  method CopySparseRegions(src: SparseFile, dst: array<byte>) returns (copied: nat)
    requires |src.populated| == |src.data| == dst.Length
    modifies dst
    ensures dst[..] == Overlay(old(dst[..]), src)
    ensures copied == Count(src.populated, 0, |src.data|, true)
  {
    ghost var base := dst[..];
    var size := |src.data|;
    copied := 0;
    var off := 0;
    while off < size
      invariant 0 <= off <= size
      invariant OverlaidTo(dst[..], base, src, off)
      invariant copied == Count(src.populated, 0, off, true)
      decreases size - off
    {
      var ds := Seek(src.populated, off, true);
      CountUniform(src.populated, 0, off, ds, false);
      if ds == size {
        RegionOverlaid(dst[..], base, src, off, ds, ds);
        assert Overwrite(dst[..], ds, src.data[ds..ds]) == dst[..];
        off := size;
        break;
      }
      var de := Seek(src.populated, ds, false);
      CountUniform(src.populated, 0, ds, de, true);
      RegionOverlaid(dst[..], base, src, off, ds, de);
      var n := CopyRegion(src.data, dst, ds, de);
      copied := copied + n;
      off := de;
    }
    assert dst[..] == dst[..][..size] + dst[..][size..];
    assert Overlay(base, src)[..size] == Overlay(base, src);
  }

  // ---- files ----

  /** `cp --sparse=always`: the same bytes, with zero bytes as holes. */
  function SparseCopy(f: SparseFile): (r: SparseFile)
    ensures r.data == f.data && |r.populated| == |r.data|
    ensures forall i | 0 <= i < |r.data| :: !r.populated[i] ==> r.data[i] == 0
  {
    SparseFile(f.data, seq(|f.data|, i requires 0 <= i < |f.data| => f.data[i] != 0))
  }

  ghost predicate FileOk(f: SparseFile) {
    |f.populated| == |f.data|
  }

  class Disk {
    var files: map<string, SparseFile>

    ghost predicate Ok()
      reads this
    {
      forall name <- files :: FileOk(files[name])
    }

    /** Opens `name` for writing and overlays the regions of `src` on it. */
    method OverlayInto(src: SparseFile, name: string)
      requires Ok() && FileOk(src) && name in files && |files[name].data| == |src.data|
      modifies this
      ensures Ok() && files.Keys == old(files.Keys)
      ensures files[name].data == Overlay(old(files)[name].data, src)
      ensures forall other <- files :: other != name ==> files[other] == old(files)[other]
    {
      var f := files[name];
      var content := new byte[|f.data|](i requires 0 <= i < |f.data| => f.data[i]);
      assert content[..] == f.data;
      var copied := CopySparseRegions(src, content);
      var populated := seq(|f.data|, i requires 0 <= i < |f.data| => f.populated[i] || src.populated[i]);
      files := files[name := SparseFile(content[..], populated)];
    }

    method Rename(from: string, to: string)
      requires Ok() && from in files
      modifies this
      ensures Ok() && files == (old(files) - {from})[to := old(files)[from]]
    {
      var f := files[from];
      files := (files - {from})[to := f];
    }

    /** The copying merge. Every way to fail leaves both inputs as they were. */
    method MergeSparseOverlay(base: string, delta: string, out: string) returns (ok: bool)
      requires Ok() && out + ".merge.tmp" != base && out + ".merge.tmp" != delta
      modifies this
      ensures Ok()
      ensures ok <==> base in old(files) && delta in old(files) && |old(files)[base].data| == |old(files)[delta].data|
      ensures ok ==> out in files && files[out].data == Overlay(old(files)[base].data, old(files)[delta])
      ensures forall name <- old(files) | name != out && name != out + ".merge.tmp" ::
        name in files && files[name] == old(files)[name]
      ensures !ok && out in old(files) ==> out in files && files[out] == old(files)[out]
    {
      if base !in files {
        return false;
      }
      var tmp := out + ".merge.tmp";
      assert |tmp| > |out|;
      files := files - {tmp};
      files := files[tmp := SparseCopy(files[base])];
      if delta !in files {
        return false;
      }
      if |files[delta].data| != |files[base].data| {
        return false;
      }
      OverlayInto(files[delta], tmp);
      files := files - {out};
      Rename(tmp, out);
      return true;
    }

    /** The renaming merge: the base becomes the result. Across a mount boundary it falls back to the copying form, and
        either way the bytes left at the delta's path are the same. */
    method MergeDeltaIntoBase(base: string, delta: string, crossDevice: bool) returns (ok: bool)
      requires Ok() && base != delta && base != delta + ".merged.tmp" && base != delta + ".merge.tmp"
      modifies this
      ensures Ok()
      ensures ok <==> base in old(files) && delta in old(files) && |old(files)[base].data| == |old(files)[delta].data|
      ensures ok ==> delta in files && files[delta].data == Overlay(old(files)[base].data, old(files)[delta])
      ensures ok && !crossDevice ==> base !in files
      ensures ok && crossDevice ==> base in files && files[base] == old(files)[base]
      ensures forall name <- old(files) |
        name != base && name != delta && name != delta + ".merged.tmp" && name != delta + ".merge.tmp" ::
        name in files && files[name] == old(files)[name]
      ensures !ok ==> files == old(files)
    {
      if base !in files || delta !in files || |files[delta].data| != |files[base].data| {
        return false;
      }
      var merged := delta + ".merged.tmp";
      assert |merged| > |delta|;
      files := files - {merged};
      if crossDevice {
        assert |delta + ".merge.tmp"| > |delta|;
        ok := MergeSparseOverlay(base, delta, delta);
        return;
      }
      Rename(base, merged);
      OverlayInto(files[delta], merged);
      files := files - {delta};
      Rename(merged, delta);
      return true;
    }
  }

  // ---- a chain of suspends ----

  /** The delta holds the guest's current byte wherever it has data, and has data wherever memory changed. */
  ghost predicate Captures(before: seq<byte>, now: seq<byte>, delta: SparseFile) {
    && |before| == |now| == |delta.data| == |delta.populated|
    && (forall i | 0 <= i < |now| :: delta.populated[i] ==> delta.data[i] == now[i])
    && (forall i | 0 <= i < |now| :: now[i] != before[i] ==> delta.populated[i])
  }

  /** `images[k]` is guest memory at the k-th snapshot, `deltas[k]` what was written between k and k + 1. */
  ghost predicate Chain(images: seq<seq<byte>>, deltas: seq<SparseFile>) {
    && |images| == |deltas| + 1
    && forall k | 0 <= k < |deltas| :: Captures(images[k], images[k + 1], deltas[k])
  }

  ghost predicate Fits(base: seq<byte>, deltas: seq<SparseFile>) {
    forall d <- deltas :: |d.populated| == |d.data| == |base|
  }

  /** Merging each delta onto the result of the last. */
  ghost function MergeAll(base: seq<byte>, deltas: seq<SparseFile>): seq<byte>
    requires Fits(base, deltas)
    decreases |deltas|
  {
    if deltas == [] then base else MergeAll(Overlay(base, deltas[0]), deltas[1..])
  }

  /** A chain of merges of any length reproduces guest memory. */
  lemma {:induction false} ChainReproducesMemory(images: seq<seq<byte>>, deltas: seq<SparseFile>)
    requires Chain(images, deltas)
    ensures Fits(images[0], deltas) && MergeAll(images[0], deltas) == images[|deltas|]
    decreases |deltas|
  {
    if deltas != [] {
      assert Captures(images[0], images[1], deltas[0]);
      assert Overlay(images[0], deltas[0]) == images[1];
      assert Chain(images[1..], deltas[1..]) by {
        forall k | 0 <= k < |deltas| - 1 ensures Captures(images[1..][k], images[1..][k + 1], deltas[1..][k]) {
          assert Captures(images[k + 1], images[k + 2], deltas[k + 1]);
        }
      }
      ChainReproducesMemory(images[1..], deltas[1..]);
      forall d | d in deltas ensures |d.populated| == |d.data| == |images[0]| {
        assert d == deltas[0] || d in deltas[1..];
      }
    }
  }
}
