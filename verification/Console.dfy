/** Relaying a workload's console as sanitised, byte-capped lines. */
module Console {
  import opened Bytes

  const NEWLINE: byte := 10

  predicate Printable(c: byte) {
    (c >= 0x20 || c == 9 || c == 13) && c != 0x7f
  }

  function Sanitized(b: seq<byte>): (r: seq<byte>)
    ensures |r| <= |b|
  {
    if b == [] then []
    else Sanitized(b[..|b| - 1]) + if Printable(b[|b| - 1]) then [b[|b| - 1]] else []
  }

  /** DEL, and every control byte but tab and carriage return. */
  ghost predicate Control(c: byte) {
    c == 127 || (c < 32 && c != 9 && c != 13)
  }

  lemma {:induction false} Reassociate<T>(a: seq<T>, b: seq<T>, c: seq<T>)
    ensures (a + b) + c == a + (b + c)
  {
  }

  lemma {:induction false} SanitizedPrintable(b: seq<byte>)
    ensures forall c <- Sanitized(b) :: !Control(c)
  {
    if b != [] {
      SanitizedPrintable(b[..|b| - 1]);
    }
  }

  /** Sanitising works byte by byte and keeps the order: a control byte goes, any other stays. */
  lemma {:induction false} SanitizedBytewise(a: seq<byte>, c: byte, b: seq<byte>)
    ensures Sanitized(a + b) == Sanitized(a) + Sanitized(b)
    ensures Sanitized([c]) == if Control(c) then [] else [c]
  {
    if b == [] {
      assert a + b == a && Sanitized(b) == [];
    } else {
      var n := |b| - 1;
      assert (a + b)[..|a| + n] == a + b[..n];
      SanitizedBytewise(a, c, b[..n]);
      Reassociate(Sanitized(a), Sanitized(b[..n]), if Printable(b[n]) then [b[n]] else []);
    }
    assert [c][..0] == [];
  }

  /** A line without control bytes is relayed as it is, and no other is. */
  lemma {:induction false} SanitizedKeeps(b: seq<byte>)
    ensures (forall c <- b :: !Control(c)) <==> Sanitized(b) == b
  {
    if b != [] {
      var n := |b| - 1;
      SanitizedKeeps(b[..n]);
      SanitizedPrintable(b);
      assert b == b[..n] + [b[n]] && b[n] in b && forall c <- b[..n] :: c in b;
    }
  }

  method SanitizeConsole(b: seq<byte>) returns (out: seq<byte>)
    ensures out == Sanitized(b)
  {
    out := [];
    for i := 0 to |b|
      invariant out == Sanitized(b[..i])
    {
      assert b[..i + 1][..i] == b[..i];
      var c := b[i];
      if c < 0x20 && c != 9 && c != 13 {
        continue;
      }
      if c == 0x7f {
        continue;
      }
      out := out + [c];
    }
    assert b[..|b|] == b;
  }

  // ---- what a stream of bytes should print ----

  /** The position of the first newline, or the length when there is none. */
  function LineEnd(s: seq<byte>, from: nat): (i: nat)
    requires from <= |s|
    ensures from <= i <= |s|
    decreases |s| - from
  {
    if from == |s| || s[from] == NEWLINE then from else LineEnd(s, from + 1)
  }

  lemma {:induction false} LineEndIsFirst(s: seq<byte>, from: nat)
    requires from <= |s|
    ensures var i := LineEnd(s, from); (i < |s| ==> s[i] == NEWLINE) && forall k | from <= k < i :: s[k] != NEWLINE
    decreases |s| - from
  {
    if from < |s| && s[from] != NEWLINE {
      LineEndIsFirst(s, from + 1);
    }
  }

  /** The complete lines of a stream, without their newlines. */
  function Lines(s: seq<byte>): seq<seq<byte>>
    decreases |s|
  {
    var i := LineEnd(s, 0);
    if i == |s| then [] else [s[..i]] + Lines(s[i + 1..])
  }

  /** What follows the last newline. */
  function Partial(s: seq<byte>): (r: seq<byte>)
    ensures |r| <= |s|
    decreases |s|
  {
    var i := LineEnd(s, 0);
    if i == |s| then s else Partial(s[i + 1..])
  }

  function Unlines(lines: seq<seq<byte>>): seq<byte> {
    if lines == [] then [] else lines[0] + [NEWLINE] + Unlines(lines[1..])
  }

  /** Splitting loses nothing: the lines, newlines restored, and the partial line are the stream. */
  lemma {:induction false} SplittingIsExact(s: seq<byte>)
    ensures Unlines(Lines(s)) + Partial(s) == s
    decreases |s|
  {
    var i := LineEnd(s, 0);
    LineEndIsFirst(s, 0);
    if i < |s| {
      var tail := s[i + 1..];
      SplittingIsExact(tail);
      var head := s[..i] + [NEWLINE];
      assert s == head + tail;
      assert Lines(s) == [s[..i]] + Lines(tail) && ([s[..i]] + Lines(tail))[1..] == Lines(tail);
      assert Unlines(Lines(s)) == head + Unlines(Lines(tail)) && Partial(s) == Partial(tail);
      Reassociate(head, Unlines(Lines(tail)), Partial(tail));
    }
  }

  lemma {:induction false} NoNewlineInside(s: seq<byte>)
    ensures NEWLINE !in Partial(s) && forall line <- Lines(s) :: NEWLINE !in line
    decreases |s|
  {
    var i := LineEnd(s, 0);
    LineEndIsFirst(s, 0);
    if i < |s| {
      NoNewlineInside(s[i + 1..]);
      assert Lines(s) == [s[..i]] + Lines(s[i + 1..]);
    }
  }

  datatype Output = Text(line: seq<byte>) | Truncated

  function Cleaned(lines: seq<seq<byte>>): seq<Output> {
    seq(|lines|, i requires 0 <= i < |lines| => Text(Sanitized(lines[i])))
  }

  /** Bytes of the sanitised lines, prefixes and newlines apart. */
  function Total(lines: seq<seq<byte>>): nat {
    if lines == [] then 0 else Total(lines[..|lines| - 1]) + |Sanitized(lines[|lines| - 1])|
  }

  predicate Overflows(lines: seq<seq<byte>>, cap: int) {
    lines != [] && Total(lines) > cap
  }

  /** The lines that fit under the cap, then one note when a line did not. */
  function Relayed(lines: seq<seq<byte>>, cap: int): seq<Output> {
    if lines == [] then []
    else
      var front, last := lines[..|lines| - 1], lines[|lines| - 1];
      if Overflows(front, cap) then Relayed(front, cap)
      else Relayed(front, cap) + [if Total(lines) > cap then Truncated else Text(Sanitized(last))]
  }

  lemma {:induction false} OneMoreLine(lines: seq<seq<byte>>, line: seq<byte>, cap: int)
    ensures Total(lines + [line]) == Total(lines) + |Sanitized(line)|
    ensures Relayed(lines + [line], cap)
         == if Overflows(lines, cap) then Relayed(lines, cap)
            else Relayed(lines, cap) + [if Total(lines + [line]) > cap then Truncated else Text(Sanitized(line))]
  {
    assert (lines + [line])[..|lines|] == lines;
  }

  lemma {:induction false} AllLinesFit(lines: seq<seq<byte>>, cap: int)
    requires !Overflows(lines, cap)
    ensures Relayed(lines, cap) == Cleaned(lines)
  {
    if lines != [] {
      var n := |lines| - 1;
      assert lines == lines[..n] + [lines[n]];
      OneMoreLine(lines[..n], lines[n], cap);
      AllLinesFit(lines[..n], cap);
      assert Cleaned(lines) == Cleaned(lines[..n]) + [Text(Sanitized(lines[n]))];
    }
  }

  lemma {:induction false} SomeLinesFit(lines: seq<seq<byte>>, cap: int) returns (k: nat)
    requires Overflows(lines, cap)
    ensures k < |lines| && Relayed(lines, cap) == Cleaned(lines[..k]) + [Truncated]
    ensures !Overflows(lines[..k], cap) && Overflows(lines[..k + 1], cap)
  {
    var n := |lines| - 1;
    var front := lines[..n];
    assert lines == front + [lines[n]];
    OneMoreLine(front, lines[n], cap);
    if Overflows(front, cap) {
      k := SomeLinesFit(front, cap);
      assert front[..k] == lines[..k] && front[..k + 1] == lines[..k + 1];
    } else {
      AllLinesFit(front, cap);
      k := n;
      assert lines[..n + 1] == lines;
    }
  }

  /** The output is the longest run of complete lines under the cap, with the note exactly when a line was dropped. */
  lemma {:induction false} RelaysTheLinesThatFit(lines: seq<seq<byte>>, cap: int) returns (k: nat)
    ensures k <= |lines|
    ensures Relayed(lines, cap) == Cleaned(lines[..k]) + if k < |lines| then [Truncated] else []
    ensures k > 0 ==> Total(lines[..k]) <= cap
    ensures k < |lines| ==> Total(lines[..k + 1]) > cap
  {
    if Overflows(lines, cap) {
      k := SomeLinesFit(lines, cap);
    } else {
      AllLinesFit(lines, cap);
      k := |lines|;
      assert lines[..k] == lines;
    }
  }

  /** No control byte reaches the log. */
  lemma {:induction false} RelaysOnlyPrintable(lines: seq<seq<byte>>, cap: int)
    ensures forall o <- Relayed(lines, cap) | o.Text? :: forall c <- o.line :: !Control(c)
  {
    var k := RelaysTheLinesThatFit(lines, cap);
    forall o <- Relayed(lines, cap) | o.Text? ensures forall c <- o.line :: !Control(c) {
      assert o in Cleaned(lines[..k]);
      var i :| 0 <= i < k && o == Text(Sanitized(lines[..k][i]));
      SanitizedPrintable(lines[..k][i]);
    }
  }

  // ---- a stream read piece by piece ----

  lemma {:induction false} LineEndConcat(s: seq<byte>, t: seq<byte>, from: nat)
    requires from <= |s|
    ensures LineEnd(s, from) < |s| ==> LineEnd(s + t, from) == LineEnd(s, from)
    decreases |s| - from
  {
    if from < |s| && s[from] != NEWLINE {
      LineEndConcat(s, t, from + 1);
    }
  }

  /** The first line of a stream stays the first line of a longer one. */
  lemma {:induction false} FirstLineConcat(s: seq<byte>, t: seq<byte>)
    requires LineEnd(s, 0) < |s|
    ensures var i := LineEnd(s, 0);
      && Lines(s) == [s[..i]] + Lines(s[i + 1..]) && Partial(s) == Partial(s[i + 1..])
      && Lines(s + t) == [s[..i]] + Lines(s[i + 1..] + t) && Partial(s + t) == Partial(s[i + 1..] + t)
  {
    var i := LineEnd(s, 0);
    LineEndConcat(s, t, 0);
    assert (s + t)[i + 1..] == s[i + 1..] + t && (s + t)[..i] == s[..i];
  }

  /** Splitting a longer stream picks up from the partial line. */
  lemma {:induction false} LinesConcat(s: seq<byte>, t: seq<byte>)
    ensures Lines(s + t) == Lines(s) + Lines(Partial(s) + t)
    ensures Partial(s + t) == Partial(Partial(s) + t)
    decreases |s|
  {
    var i := LineEnd(s, 0);
    if i < |s| {
      FirstLineConcat(s, t);
      LinesConcat(s[i + 1..], t);
      Reassociate([s[..i]], Lines(s[i + 1..]), Lines(Partial(s) + t));
    }
  }

  /** Past the cap, further lines add nothing. */
  lemma {:induction false} NothingMore(lines: seq<seq<byte>>, more: seq<seq<byte>>, cap: int)
    requires Overflows(lines, cap)
    ensures Relayed(lines + more, cap) == Relayed(lines, cap) && Overflows(lines + more, cap)
  {
    if more == [] {
      assert lines + more == lines;
    } else {
      var n := |more| - 1;
      assert lines + more == (lines + more[..n]) + [more[n]];
      NothingMore(lines, more[..n], cap);
      OneMoreLine(lines + more[..n], more[n], cap);
    }
  }

  /** Cuts the next complete line off the buffer. */
  method NextLine(buf: seq<byte>) returns (found: bool, line: seq<byte>, rest: seq<byte>)
    ensures found ==> Lines(buf) == [line] + Lines(rest) && Partial(buf) == Partial(rest) && |rest| < |buf|
    ensures !found ==> Lines(buf) == [] && Partial(buf) == buf
  {
    var i := LineEnd(buf, 0);
    if i == |buf| {
      return false, [], buf;
    }
    return true, buf[..i], buf[i + 1..];
  }

  /** What has been printed once the bytes `seen` are in. */
  ghost predicate Printed(seen: seq<byte>, cap: int, out: seq<Output>, buf: seq<byte>, relayed: nat, truncated: bool) {
    && out == Relayed(Lines(seen), cap) && (truncated <==> Overflows(Lines(seen), cap))
    && (truncated || (buf == Partial(seen) && relayed == Total(Lines(seen))))
  }

  /** Mid-drain: `taken` are the lines so far, the buffer holds the rest of the stream. */
  ghost predicate Draining(seen: seq<byte>, cap: int, taken: seq<seq<byte>>, out: seq<Output>, buf: seq<byte>,
                           relayed: nat) {
    && Lines(seen) == taken + Lines(buf) && Partial(seen) == Partial(buf)
    && out == Relayed(taken, cap) && relayed == Total(taken) && !Overflows(taken, cap)
  }

  lemma {:induction false} DrainStarts(seen: seq<byte>, data: seq<byte>, cap: int, out: seq<Output>, buf: seq<byte>,
                                       relayed: nat)
    requires Printed(seen, cap, out, buf, relayed, false)
    ensures Draining(seen + data, cap, Lines(seen), out, buf + data, relayed)
  {
    LinesConcat(seen, data);
  }

  /** One line out of the buffer: printed, or the cap reached. */
  lemma {:induction false} DrainNext(seen: seq<byte>, cap: int, taken: seq<seq<byte>>, out: seq<Output>,
                                     buf: seq<byte>, relayed: nat,
                                     line: seq<byte>, rest: seq<byte>)
    requires Draining(seen, cap, taken, out, buf, relayed)
    requires Lines(buf) == [line] + Lines(rest) && Partial(buf) == Partial(rest)
    ensures var n := relayed + |Sanitized(line)|;
      if n > cap then Printed(seen, cap, out + [Truncated], rest, relayed, true)
      else Draining(seen, cap, taken + [line], out + [Text(Sanitized(line))], rest, n)
  {
    Reassociate(taken, [line], Lines(rest));
    OneMoreLine(taken, line, cap);
    if relayed + |Sanitized(line)| > cap {
      NothingMore(taken + [line], Lines(rest), cap);
    }
  }

  lemma {:induction false} DrainEnds(seen: seq<byte>, cap: int, taken: seq<seq<byte>>, out: seq<Output>,
                                     buf: seq<byte>, relayed: nat)
    requires Draining(seen, cap, taken, out, buf, relayed) && Lines(buf) == [] && Partial(buf) == buf
    ensures Printed(seen, cap, out, buf, relayed, false)
  {
    assert taken + [] == taken;
  }

  /** Emits every complete line the buffer now holds; shared by both relays. */
  method Drain(ghost seen: seq<byte>, data: seq<byte>, cap: int, printed: seq<Output>, held: seq<byte>, used: nat)
    returns (out: seq<Output>, buf: seq<byte>, relayed: nat, truncated: bool)
    requires Printed(seen, cap, printed, held, used, false)
    ensures Printed(seen + data, cap, out, buf, relayed, truncated)
  {
    out, buf, relayed, truncated := printed, held + data, used, false;
    ghost var taken := Lines(seen);
    DrainStarts(seen, data, cap, out, held, relayed);
    while true
      invariant Draining(seen + data, cap, taken, out, buf, relayed) && !truncated
      decreases |buf|
    {
      var found, line, rest := NextLine(buf);
      if !found {
        DrainEnds(seen + data, cap, taken, out, buf, relayed);
        return;
      }
      DrainNext(seen + data, cap, taken, out, buf, relayed, line, rest);
      var clean := SanitizeConsole(line);
      buf := rest;
      if relayed + |clean| > cap {
        truncated := true;
        out := out + [Truncated];
        return;
      }
      relayed := relayed + |clean|;
      out := out + [Text(clean)];
      taken := taken + [line];
    }
  }

  /** One read: the bytes, how it ended, and whether the console file was gone when next looked for. */
  datatype Read = Read(data: seq<byte>, eof: bool, failed: bool, gone: bool)

  datatype Relay = Pump | Tail

  predicate Stops(relay: Relay, r: Read) {
    match relay
    case Pump => r.eof || r.failed
    case Tail => if r.eof || r.data == [] then r.gone else r.failed
  }

  /** All bytes a relay takes in from its i-th read until it stops. */
  function Consumed(relay: Relay, pieces: seq<Read>, i: nat): seq<byte>
    requires i <= |pieces|
    decreases |pieces| - i
  {
    if i == |pieces| then []
    else pieces[i].data + if Stops(relay, pieces[i]) then [] else Consumed(relay, pieces, i + 1)
  }

  /** The bytes of the first `n` reads. */
  function Joined(pieces: seq<Read>, n: nat): seq<byte>
    requires n <= |pieces|
  {
    if n == 0 then [] else Joined(pieces, n - 1) + pieces[n - 1].data
  }

  /** The pump ends at the end of the stream or an error; the tail at an error with data, or once the file is gone when
      there was nothing to read. */
  ghost predicate EndsAt(relay: Relay, r: Read) {
    || (relay.Pump? && (r.eof || r.failed))
    || (relay.Tail? && (r.eof || r.data == []) && r.gone)
    || (relay.Tail? && !r.eof && r.data != [] && r.failed)
  }

  /** A relay takes in all bytes of its reads up to and including the first at which it ends. */
  lemma {:induction false} TakesInUpToItsEnd(relay: Relay, pieces: seq<Read>, i: nat, n: nat)
    requires i <= n <= |pieces| && (forall k | i <= k < n - 1 :: !EndsAt(relay, pieces[k]))
    requires n == |pieces| || (i < n && EndsAt(relay, pieces[n - 1]))
    ensures Joined(pieces, i) + Consumed(relay, pieces, i) == Joined(pieces, n)
    decreases |pieces| - i
  {
    if i < |pieces| {
      var next := i + 1;
      if Stops(relay, pieces[i]) {
        assert EndsAt(relay, pieces[i]);
        assert Joined(pieces, next) == Joined(pieces, i) + pieces[i].data;
        assert pieces[i].data + [] == pieces[i].data;
      } else {
        TakesInUpToItsEnd(relay, pieces, next, n);
        Reassociate(Joined(pieces, i), pieces[i].data, Consumed(relay, pieces, next));
      }
    }
  }

  /** `seen` is what the reads before the i-th brought. */
  ghost predicate SoFar(relay: Relay, pieces: seq<Read>, i: nat, seen: seq<byte>)
    requires i <= |pieces|
  {
    Consumed(relay, pieces, 0) == seen + Consumed(relay, pieces, i)
  }

  lemma {:induction false} SoFarNext(relay: Relay, pieces: seq<Read>, i: nat, seen: seq<byte>)
    requires i < |pieces| && SoFar(relay, pieces, i, seen)
    ensures Stops(relay, pieces[i]) ==> Consumed(relay, pieces, 0) == seen + pieces[i].data
    ensures !Stops(relay, pieces[i]) ==> SoFar(relay, pieces, i + 1, seen + pieces[i].data)
    ensures seen + pieces[i].data <= Consumed(relay, pieces, 0)
  {
    if Stops(relay, pieces[i]) {
      assert pieces[i].data + [] == pieces[i].data;
    } else {
      Reassociate(seen, pieces[i].data, Consumed(relay, pieces, i + 1));
    }
  }

  /** Past the cap nothing more is printed. */
  lemma {:induction false} PrintedStays(seen: seq<byte>, whole: seq<byte>, cap: int, out: seq<Output>, buf: seq<byte>,
                                        relayed: nat)
    requires Printed(seen, cap, out, buf, relayed, true) && seen <= whole
    ensures Printed(whole, cap, out, buf, relayed, true)
  {
    var data := whole[|seen|..];
    assert whole == seen + data;
    LinesConcat(seen, data);
    NothingMore(Lines(seen), Lines(Partial(seen) + data), cap);
  }

  /** However its input is cut, the relay of a micro-VM's stream prints what the whole stream prints. */
  method PumpStream(pieces: seq<Read>, cap: int) returns (out: seq<Output>)
    ensures out == Relayed(Lines(Consumed(Pump, pieces, 0)), cap)
  {
    ghost var seen: seq<byte> := [];
    var buf: seq<byte>, relayed: nat, truncated := [], 0, false;
    out := [];
    for i := 0 to |pieces|
      invariant Printed(seen, cap, out, buf, relayed, truncated) && !truncated && SoFar(Pump, pieces, i, seen)
    {
      var r := pieces[i];
      SoFarNext(Pump, pieces, i, seen);
      if |r.data| > 0 {
        out, buf, relayed, truncated := Drain(seen, r.data, cap, out, buf, relayed);
        if truncated {
          PrintedStays(seen + r.data, Consumed(Pump, pieces, 0), cap, out, buf, relayed);
          return;
        }
      } else {
        assert seen + r.data == seen;
      }
      seen := seen + r.data;
      if r.eof || r.failed {
        return;
      }
    }
    assert seen + [] == seen;
  }

  /** The relay of a console file prints the same, though it keeps polling after the cap. */
  method TailConsole(pieces: seq<Read>, cap: int) returns (out: seq<Output>)
    ensures out == Relayed(Lines(Consumed(Tail, pieces, 0)), cap)
  {
    ghost var seen: seq<byte> := [];
    var buf: seq<byte>, relayed: nat, truncated := [], 0, false;
    out := [];
    for i := 0 to |pieces|
      invariant Printed(seen, cap, out, buf, relayed, truncated) && SoFar(Tail, pieces, i, seen)
    {
      var r := pieces[i];
      SoFarNext(Tail, pieces, i, seen);
      if truncated {
        PrintedStays(seen, seen + r.data, cap, out, buf, relayed);
      } else if |r.data| > 0 {
        out, buf, relayed, truncated := Drain(seen, r.data, cap, out, buf, relayed);
      } else {
        assert seen + r.data == seen;
      }
      seen := seen + r.data;
      if r.eof || |r.data| == 0 {
        if r.gone {
          return;
        }
        continue;
      }
      if r.failed {
        return;
      }
    }
    assert seen + [] == seen;
  }
}
