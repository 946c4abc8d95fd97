/** The sparse object codec: only the populated extents of a file travel. */
module Sparse {
  import opened Bytes

  const MAGIC: seq<byte> := [0x53, 0x42, 0x58, 0x44, 0x53, 0x50, 0x52, 0x53]
  const VERSION: nat := 1
  const END_OFFSET := -1

  /** A file with its allocation map; holes read as zero. Sizes are int64. */
  datatype SparseFile = SparseFile(data: seq<byte>, populated: seq<bool>)

  ghost predicate Valid(f: SparseFile) {
    && |f.populated| == |f.data| < TWO63
    && forall i | 0 <= i < |f.data| :: !f.populated[i] ==> f.data[i] == 0
  }

  // ---- lseek ----

  predicate UniformTo(populated: seq<bool>, lo: nat, hi: nat, value: bool)
    requires lo <= hi <= |populated|
  {
    forall i | lo <= i < hi :: populated[i] == value
  }

  /** SEEK_DATA (value true) and SEEK_HOLE (value false): the first such byte at or after `off`, else the end. */
  method Seek(populated: seq<bool>, off: nat, value: bool) returns (at: nat)
    requires off <= |populated|
    ensures off <= at <= |populated|
    ensures UniformTo(populated, off, at, !value)
    ensures at < |populated| ==> populated[at] == value
  {
    at := off;
    while at < |populated| && populated[at] != value
      invariant off <= at <= |populated|
      invariant UniformTo(populated, off, at, !value)
    {
      at := at + 1;
    }
  }

  function SeekTo(populated: seq<bool>, off: nat, value: bool): (at: nat)
    requires off <= |populated|
    ensures off <= at <= |populated|
    ensures UniformTo(populated, off, at, !value)
    ensures at < |populated| ==> populated[at] == value
    decreases |populated| - off
  {
    if off == |populated| || populated[off] == value then off else SeekTo(populated, off + 1, value)
  }

  lemma {:induction false} SeekIsUnique(populated: seq<bool>, off: nat, value: bool, a: nat, b: nat)
    requires off <= a <= |populated| && off <= b <= |populated|
    requires UniformTo(populated, off, a, !value) && (a < |populated| ==> populated[a] == value)
    requires UniformTo(populated, off, b, !value) && (b < |populated| ==> populated[b] == value)
    ensures a == b
  {
  }

  // ---- the encoded form ----

  /** The frames from `off` on, ending with the sentinel. */
  function Frames(f: SparseFile, off: nat): (s: seq<byte>)
    requires |f.populated| == |f.data| < TWO63 && off <= |f.data|
    decreases |f.data| - off
  {
    var ds := SeekTo(f.populated, off, true);
    if ds == |f.data| then Le64(END_OFFSET)
    else
      var de := SeekTo(f.populated, ds, false);
      assert de > ds;
      Le64(ds) + Le64(de - ds) + f.data[ds..de] + Frames(f, de)
  }

  function Payload(f: SparseFile): seq<byte>
    requires |f.populated| == |f.data| < TWO63
  {
    Le64(|f.data|) + Frames(f, 0)
  }

  function Object(f: SparseFile): seq<byte>
    requires |f.populated| == |f.data| < TWO63
  {
    MAGIC + Le(VERSION, 4) + Payload(f)
  }

  // ---- decoding ----

  datatype Result = Ok(image: seq<byte>, rest: seq<byte>) | Err

  /** Replays frames onto `img`; each must lie inside it and be complete. */
  function Replay(img: seq<byte>, s: seq<byte>): (r: Result)
    ensures r.Ok? ==> |r.image| == |img| && |r.rest| < |s|
    decreases |s|
  {
    if |s| < 8 then Err
    else
      var off := FromLe64(s[..8]);
      if off == END_OFFSET then Ok(img, s[8..])
      else if |s| < 16 then Err
      else
        var length := FromLe64(s[8..16]);
        if off < 0 || length < 0 || off > |img| || length > |img| - off then Err
        else if |s| - 16 < length then Err
        else Replay(Overwrite(img, off, s[16..16 + length]), s[16 + length..])
  }

  /** A payload: the logical size, then frames over a zero-filled image of that size. */
  function Decode(s: seq<byte>): (r: Result)
    ensures r.Ok? ==> |s| >= 8 && 0 <= FromLe64(s[..8]) == |r.image|
  {
    if |s| < 8 || FromLe64(s[..8]) < 0 then Err else Replay(Zeros(FromLe64(s[..8])), s[8..])
  }

  predicate HasMagic(s: seq<byte>) {
    |s| >= |MAGIC| && s[..|MAGIC|] == MAGIC
  }

  /** An object is decoded if it carries the magic, and is otherwise the file itself. */
  function DecodeObject(s: seq<byte>): (r: Result)
    ensures !HasMagic(s) ==> r == Ok(s, [])
  {
    if !HasMagic(s) then Ok(s, [])
    else if |s| < 12 || FromLe(s[8..12]) != VERSION then Err
    else Decode(s[12..])
  }

  // ---- round trip ----

  /** `img` is the file up to `off` and zero from there on. */
  ghost predicate DoneTo(f: SparseFile, img: seq<byte>, off: nat) {
    && |img| == |f.data| && off <= |f.data|
    && (forall i | 0 <= i < off :: img[i] == f.data[i])
    && (forall i | off <= i < |img| :: img[i] == 0)
  }

  /** How the reader takes one well-formed frame off the front. */
  lemma {:induction false} ReplayFrame(img: seq<byte>, off: nat, data: seq<byte>, tail: seq<byte>)
    requires off + |data| <= |img| < TWO63
    ensures Replay(img, Le64(off) + Le64(|data|) + data + tail) == Replay(Overwrite(img, off, data), tail)
  {
    var s := Le64(off) + Le64(|data|) + data + tail;
    assert s[..8] == Le64(off) && s[8..16] == Le64(|data|);
    Le64RoundTrip(off);
    Le64RoundTrip(|data|);
    assert s[16..16 + |data|] == data && s[16 + |data|..] == tail;
  }

  lemma {:induction false} ReplayEnd(img: seq<byte>, tail: seq<byte>)
    ensures Replay(img, Le64(END_OFFSET) + tail) == Ok(img, tail)
  {
    var s := Le64(END_OFFSET) + tail;
    assert s[..8] == Le64(END_OFFSET) && s[8..] == tail;
    Le64RoundTrip(END_OFFSET);
  }

  /** Skipping a hole and writing the extent after it extends the finished part. */
  lemma {:induction false} ExtentDone(f: SparseFile, img: seq<byte>, off: nat, ds: nat, de: nat)
    requires Valid(f) && DoneTo(f, img, off) && off <= ds <= de <= |f.data|
    requires UniformTo(f.populated, off, ds, false)
    ensures DoneTo(f, Overwrite(img, ds, f.data[ds..de]), de)
  {
  }

  lemma {:induction false} FramesStart(f: SparseFile, off: nat, ds: nat, de: nat)
    requires |f.populated| == |f.data| < TWO63 && off <= |f.data|
    requires ds == SeekTo(f.populated, off, true) < |f.data| && de == SeekTo(f.populated, ds, false)
    ensures ds < de && Frames(f, off) == Le64(ds) + Le64(|f.data[ds..de]|) + f.data[ds..de] + Frames(f, de)
  {
  }

  lemma {:induction false} ReplayFrames(f: SparseFile, img: seq<byte>, off: nat)
    requires Valid(f) && DoneTo(f, img, off)
    ensures Replay(img, Frames(f, off)) == Ok(f.data, [])
    decreases |f.data| - off
  {
    var ds := SeekTo(f.populated, off, true);
    if ds == |f.data| {
      ExtentDone(f, img, off, ds, ds);
      assert f.data[ds..ds] == [] && Overwrite(img, ds, []) == img == f.data;
      ReplayEnd(img, []);
      assert Le64(END_OFFSET) + [] == Le64(END_OFFSET);
    } else {
      var de := SeekTo(f.populated, ds, false);
      FramesStart(f, off, ds, de);
      ReplayFrame(img, ds, f.data[ds..de], Frames(f, de));
      ExtentDone(f, img, off, ds, de);
      ReplayFrames(f, Overwrite(img, ds, f.data[ds..de]), de);
    }
  }

  /** Decoding the encoding of any file, under any allocation map whose holes read as zero, is that file. */
  lemma {:induction false} RoundTrip(f: SparseFile)
    requires Valid(f)
    ensures Decode(Payload(f)) == Ok(f.data, [])
  {
    var s := Payload(f);
    assert s[..8] == Le64(|f.data|) && s[8..] == Frames(f, 0);
    Le64RoundTrip(|f.data|);
    ReplayFrames(f, Zeros(|f.data|), 0);
  }

  /** Every encoded object is dispatched to the reader, whatever the file starts with, and comes back whole. */
  lemma {:induction false} ObjectRoundTrip(f: SparseFile)
    requires Valid(f)
    ensures HasMagic(Object(f)) && DecodeObject(Object(f)) == Ok(f.data, [])
  {
    var s := Object(f);
    assert s[..8] == MAGIC && s[8..12] == Le(VERSION, 4) && s[12..] == Payload(f);
    assert VERSION < Pow256(4) by {
      assert Pow256(4) == 256 * (256 * (256 * (256 * Pow256(0))));
    }
    LeRoundTrip(VERSION, 4);
    RoundTrip(f);
  }

  lemma {:induction false} ObjectParts(f: SparseFile)
    requires Valid(f)
    ensures var s := Object(f);
      && |s| >= 20 && s[..8] == MAGIC && s[8..12] == Le(VERSION, 4) && s[12..20] == Le64(|f.data|)
      && s[20..] == Frames(f, 0)
  {
  }

  /** The object's layout: the eight letters SBXDSPRS, version 1 in four bytes, the file's size in eight, the frames,
      and -1 in eight bytes. */
  lemma {:induction false} ObjectLayout(f: SparseFile)
    requires Valid(f)
    ensures var s := Object(f);
      && |s| >= 28 && s[..8] == [83, 66, 88, 68, 83, 80, 82, 83] && s[8..12] == [1, 0, 0, 0]
      && FromLe64(s[12..20]) == |f.data| && FromLe64(s[|s| - 8..]) == -1
  {
    ObjectParts(f);
    VersionBytes();
    Le64RoundTrip(|f.data|);
    FramesEnd(f, 0);
    LastEight(Object(f), Frames(f, 0));
  }

  lemma {:induction false} LastEight(s: seq<byte>, rest: seq<byte>)
    requires |s| >= 20 && s[20..] == rest && |rest| >= 8
    ensures s[|s| - 8..] == rest[|rest| - 8..]
  {
  }

  lemma {:induction false} VersionBytes()
    ensures Le(VERSION, 4) == [1, 0, 0, 0]
  {
    assert Pow256(1) == 256 && Pow256(2) == 65536 && Pow256(3) == 16777216;
  }

  lemma {:induction false} FramesEnd(f: SparseFile, off: nat)
    requires |f.populated| == |f.data| < TWO63 && off <= |f.data|
    ensures var s := Frames(f, off); |s| >= 8 && FromLe64(s[|s| - 8..]) == -1
    decreases |f.data| - off
  {
    var ds := SeekTo(f.populated, off, true);
    var s := Frames(f, off);
    if ds == |f.data| {
      Le64RoundTrip(END_OFFSET);
      assert s[|s| - 8..] == s;
    } else {
      var de := SeekTo(f.populated, ds, false);
      FramesEnd(f, de);
      var rest := Frames(f, de);
      assert s[|s| - 8..] == rest[|rest| - 8..];
    }
  }

  lemma {:induction false} OneIsOne(s: seq<byte>)
    requires |s| == 4 && FromLe(s) == 1
    ensures s == [1, 0, 0, 0]
  {
    assert FromLe(s) == s[0] + 256 * FromLe(s[1..]);
    assert FromLe(s[1..]) == s[1] + 256 * FromLe(s[1..][1..]);
    assert FromLe(s[1..][1..]) == s[2] + 256 * FromLe(s[1..][1..][1..]);
    assert FromLe(s[1..][1..][1..]) == s[3];
  }

  /** An object with the magic but not version 1 is refused. */
  lemma {:induction false} UnknownVersionRefused(s: seq<byte>)
    requires |s| >= 8 && s[..8] == [83, 66, 88, 68, 83, 80, 82, 83]
    requires |s| < 12 || s[8..12] != [1, 0, 0, 0]
    ensures DecodeObject(s).Err?
  {
    if |s| >= 12 && FromLe(s[8..12]) == 1 {
      OneIsOne(s[8..12]);
    }
  }

  // ---- truncation ----

  /** A stream that replays to its very end has no proper prefix that replays at all. */
  lemma {:induction false} ReplayPrefixFails(img: seq<byte>, s: seq<byte>, k: nat)
    requires k < |s| && Replay(img, s).Ok? && Replay(img, s).rest == []
    ensures Replay(img, s[..k]).Err?
    decreases |s|
  {
    if k >= 8 {
      assert s[..k][..8] == s[..8];
      var off := FromLe64(s[..8]);
      if off != END_OFFSET && k >= 16 {
        assert s[..k][8..16] == s[8..16];
        var length := FromLe64(s[8..16]);
        if k - 16 >= length {
          assert s[..k][16..16 + length] == s[16..16 + length];
          assert s[..k][16 + length..] == s[16 + length..][..k - 16 - length];
          ReplayPrefixFails(Overwrite(img, off, s[16..16 + length]), s[16 + length..], k - 16 - length);
        }
      }
    }
  }

  /** Every proper prefix of an encoded file is rejected. */
  lemma {:induction false} PrefixRejected(f: SparseFile, k: nat)
    requires Valid(f) && k < |Payload(f)|
    ensures Decode(Payload(f)[..k]).Err?
  {
    var s := Payload(f);
    RoundTrip(f);
    assert s[8..] == Frames(f, 0);
    if k >= 8 {
      assert s[..k][..8] == s[..8] && s[..k][8..] == s[8..][..k - 8];
      ReplayPrefixFails(Zeros(FromLe64(s[..8])), s[8..], k - 8);
    }
  }

  /** A whole object cut short anywhere behind its magic is rejected too. */
  lemma {:induction false} ObjectPrefixRejected(f: SparseFile, k: nat)
    requires Valid(f) && 8 <= k < |Object(f)|
    ensures DecodeObject(Object(f)[..k]).Err?
  {
    var s := Object(f);
    assert s[..k][..8] == s[..8] == MAGIC;
    if k >= 12 {
      assert s[..k][12..] == Payload(f)[..k - 12];
      PrefixRejected(f, k - 12);
    }
  }

  // ---- the writer ----

  function Count(populated: seq<bool>, lo: nat, hi: nat, value: bool): (n: nat)
    requires lo <= hi <= |populated|
    ensures n <= hi - lo
  {
    if lo == hi then 0 else Count(populated, lo, hi - 1, value) + if populated[hi - 1] == value then 1 else 0
  }

  lemma {:induction false} CountUniform(populated: seq<bool>, lo: nat, mid: nat, hi: nat, value: bool)
    requires lo <= mid <= hi <= |populated| && UniformTo(populated, mid, hi, value)
    ensures Count(populated, lo, hi, true) == Count(populated, lo, mid, true) + if value then hi - mid else 0
    decreases hi
  {
    if mid < hi {
      CountUniform(populated, lo, mid, hi - 1, value);
    }
  }

  lemma {:induction false} CountSplits(populated: seq<bool>, hi: nat)
    requires hi <= |populated|
    ensures Count(populated, 0, hi, true) + Count(populated, 0, hi, false) == hi
  {
    if hi > 0 {
      CountSplits(populated, hi - 1);
    }
  }

  lemma {:induction false} Regroup(a: seq<byte>, b: seq<byte>, c: seq<byte>, d: seq<byte>, e: seq<byte>)
    ensures a + (b + c + d + e) == (a + b + c + d) + e
  {
  }

  /** Walks the extents and emits them. The walk ends, and the bytes it reads are exactly the populated ones. */
  method Write(f: SparseFile) returns (out: seq<byte>, logical: int, dataBytes: int)
    requires Valid(f)
    ensures out == Object(f)
    ensures logical == |f.data|
    ensures dataBytes == Count(f.populated, 0, |f.data|, true)
    ensures dataBytes + Count(f.populated, 0, |f.data|, false) == logical
  {
    var size := |f.data|;
    out := MAGIC + Le(VERSION, 4) + Le64(size);
    logical, dataBytes := size, 0;
    var off := 0;
    assert out + Frames(f, 0) == Object(f);
    while off < size
      invariant 0 <= off <= size
      invariant out + Frames(f, off) == Object(f)
      invariant dataBytes == Count(f.populated, 0, off, true)
      decreases size - off
    {
      var ds := Seek(f.populated, off, true);
      SeekIsUnique(f.populated, off, true, ds, SeekTo(f.populated, off, true));
      CountUniform(f.populated, 0, off, ds, false);
      if ds == size {
        off := size;
        break;
      }
      var de := Seek(f.populated, ds, false);
      SeekIsUnique(f.populated, ds, false, de, SeekTo(f.populated, ds, false));
      CountUniform(f.populated, 0, ds, de, true);
      var extent := f.data[ds..de];
      FramesStart(f, off, ds, de);
      Regroup(out, Le64(ds), Le64(|extent|), extent, Frames(f, de));
      out := out + Le64(ds) + Le64(|extent|) + extent;
      dataBytes := dataBytes + |extent|;
      off := de;
    }
    out := out + Le64(END_OFFSET);
    CountSplits(f.populated, size);
  }

  // ---- the reader ----

  /** io.CopyN of `length` bytes at `off`, in place; false when the stream is too short. */
  method CopyAt(dst: array<byte>, off: nat, s: seq<byte>, pos: nat, length: nat) returns (ok: bool)
    requires off + length <= dst.Length && pos <= |s|
    modifies dst
    ensures ok == (|s| - pos >= length)
    ensures ok ==> dst[..] == Overwrite(old(dst[..]), off, s[pos..pos + length])
  {
    if |s| - pos < length {
      return false;
    }
    ghost var before := dst[..];
    for i := 0 to length
      invariant forall k | 0 <= k < dst.Length :: dst[k] == if off <= k < off + i then s[pos + k - off] else before[k]
    {
      dst[off + i] := s[pos + i];
    }
    return true;
  }

  /** Replay of the stream from `pos`, one frame unfolded, without slicing a slice. */
  function ReplayAt(img: seq<byte>, s: seq<byte>, pos: nat): Result
    requires pos <= |s|
  {
    if |s| - pos < 8 then Err
    else
      var off := FromLe64(s[pos..pos + 8]);
      if off == END_OFFSET then Ok(img, s[pos + 8..])
      else if |s| - pos < 16 then Err
      else
        var length := FromLe64(s[pos + 8..pos + 16]);
        if off < 0 || length < 0 || off > |img| || length > |img| - off then Err
        else if |s| - pos - 16 < length then Err
        else Replay(Overwrite(img, off, s[pos + 16..pos + 16 + length]), s[pos + 16 + length..])
  }

  lemma {:induction false} ReplayFrom(img: seq<byte>, s: seq<byte>, pos: nat)
    requires pos <= |s|
    ensures Replay(img, s[pos..]) == ReplayAt(img, s, pos)
  {
    var rest := s[pos..];
    if |rest| >= 8 {
      assert rest[..8] == s[pos..pos + 8] && rest[8..] == s[pos + 8..];
      if |rest| >= 16 {
        assert rest[8..16] == s[pos + 8..pos + 16];
        var length := FromLe64(rest[8..16]);
        if 0 <= length <= |rest| - 16 {
          assert rest[16..16 + length] == s[pos + 16..pos + 16 + length];
          assert rest[16 + length..] == s[pos + 16 + length..];
        }
      }
    }
  }

  lemma {:induction false} FrameReplayed(img: seq<byte>, s: seq<byte>, pos: nat, off: nat, body: nat, next: nat)
    requires body == pos + 16 <= next <= |s| && off + (next - body) <= |img| && off != END_OFFSET
    requires off == FromLe64(s[pos..pos + 8]) && next - body == FromLe64(s[pos + 8..body])
    ensures Replay(img, s[pos..]) == Replay(Overwrite(img, off, s[body..next]), s[next..])
  {
    ReplayFrom(img, s, pos);
    assert pos + 16 == body && pos + 16 + FromLe64(s[pos + 8..pos + 16]) == next;
  }

  datatype FrameOutcome = Bad | End | Wrote(next: nat)

  /** One turn of the reader's loop. A frame is written only if it lies inside the file, and then the sum of its offset
      and length is an int64. */
  method ReadFrame(dst: array<byte>, s: seq<byte>, pos: nat) returns (outcome: FrameOutcome)
    requires pos <= |s| && dst.Length < TWO63
    modifies dst
    ensures match outcome
      case Bad => Replay(old(dst[..]), s[pos..]).Err?
      case End => Replay(old(dst[..]), s[pos..]).Ok? && Replay(old(dst[..]), s[pos..]).image == dst[..]
      case Wrote(next) => pos < next <= |s| && Replay(old(dst[..]), s[pos..]) == Replay(dst[..], s[next..])
  {
    ghost var img := dst[..];
    ReplayFrom(img, s, pos);
    if |s| - pos < 8 {
      return Bad;
    }
    var off := FromLe64(s[pos..pos + 8]);
    if off == END_OFFSET {
      return End;
    }
    if |s| - pos < 16 {
      return Bad;
    }
    var length := FromLe64(s[pos + 8..pos + 16]);
    if off < 0 || length < 0 || off > dst.Length || length > dst.Length - off {
      return Bad;
    }
    assert IsInt64(off + length);
    var body := pos + 16;
    var next := body + length;
    var copied := CopyAt(dst, off, s, body, length);
    if !copied {
      return Bad;
    }
    assert dst[..] == Overwrite(img, off, s[body..next]);
    FrameReplayed(img, s, pos, off, body, next);
    return Wrote(next);
  }

  /** Reads any payload: it either fails, or leaves a file of exactly the declared size. */
  method Read(s: seq<byte>) returns (ok: bool, dst: array<byte>)
    ensures ok == Decode(s).Ok?
    ensures ok ==> dst[..] == Decode(s).image && dst.Length == FromLe64(s[..8])
    ensures fresh(dst)
  {
    if |s| < 8 || FromLe64(s[..8]) < 0 {
      dst := new byte[0];
      return false, dst;
    }
    var size := FromLe64(s[..8]);
    dst := new byte[size](_ => 0);
    assert dst[..] == Zeros(size);
    var pos := 8;
    while true
      invariant 8 <= pos <= |s|
      invariant dst.Length == size && fresh(dst)
      invariant Decode(s) == Replay(dst[..], s[pos..])
      decreases |s| - pos
    {
      var outcome := ReadFrame(dst, s, pos);
      match outcome
      case Bad => return false, dst;
      case End => return true, dst;
      case Wrote(next) => pos := next;
    }
  }
}
