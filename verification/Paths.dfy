/** Archive paths: their spelling in a tar header, how a header's name is cleaned, and the order of a walk. */
module Paths {
  import opened Keys

  /** The components below the archive's root. */
  type Path = seq<string>

  predicate Proper(c: string) {
    c != "" && c != "." && c != ".." && '/' !in c
  }

  predicate ProperPath(p: Path) {
    p != [] && forall c <- p :: Proper(c)
  }

  function Render(p: Path): string {
    if p == [] then ""
    else if |p| == 1 then p[0]
    else Render(p[..|p| - 1]) + "/" + p[|p| - 1]
  }

  // ---- cleaning a name ----

  /** The pieces between slashes, empty ones included. */
  function Split(s: string): (r: seq<string>)
    ensures r != []
  {
    if s == "" then [""]
    else
      var r := Split(s[..|s| - 1]);
      if s[|s| - 1] == '/' then r + [""] else r[|r| - 1 := r[|r| - 1] + [s[|s| - 1]]]
  }

  /** One piece of a name against what the pieces before it came to. */
  function CleanNext(done: Path, c: string, rooted: bool): Path {
    if c == "" || c == "." then done
    else if c != ".." then done + [c]
    else if done != [] && done[|done| - 1] != ".." then done[..|done| - 1]
    else if rooted then done
    else done + [".."]
  }

  function Clean(pieces: seq<string>, rooted: bool): Path {
    if pieces == [] then [] else CleanNext(Clean(pieces[..|pieces| - 1], rooted), pieces[|pieces| - 1], rooted)
  }

  datatype Cleaned = Skip | Refused | Local(path: Path)

  function CleanTarName(name: string): Cleaned {
    if name == "" then Skip
    else
      var p := Clean(Split(name), name[0] == '/');
      if p == [] then Skip else if p[0] == ".." then Refused else Local(p)
  }

  lemma {:induction false} SplitHasNoSlash(s: string)
    ensures forall c <- Split(s) :: '/' !in c
  {
    if s != "" {
      SplitHasNoSlash(s[..|s| - 1]);
    }
  }

  /** Climbing components come first, and only in a name that is not rooted. */
  ghost predicate ClimbsFirst(p: Path, rooted: bool) {
    && (forall c <- p :: c == ".." || Proper(c))
    && (rooted ==> ".." !in p)
    && forall i, j | 0 <= i < j < |p| :: p[j] == ".." ==> p[i] == ".."
  }

  lemma {:induction false} CleanClimbsFirst(pieces: seq<string>, rooted: bool)
    requires forall c <- pieces :: '/' !in c
    ensures ClimbsFirst(Clean(pieces, rooted), rooted)
  {
    if pieces != [] {
      CleanClimbsFirst(pieces[..|pieces| - 1], rooted);
    }
  }

  /** Whatever the archive says, an accepted name stays inside the destination. */
  lemma {:induction false} CleanedStaysInside(name: string)
    ensures CleanTarName(name).Local? ==> ProperPath(CleanTarName(name).path)
  {
    if name != "" {
      SplitHasNoSlash(name);
      CleanClimbsFirst(Split(name), name[0] == '/');
    }
  }

  /** How deep a name has come below its start: a proper piece leads down, two dots lead up. */
  function Depth(pieces: seq<string>): int {
    if pieces == [] then 0
    else
      var c := pieces[|pieces| - 1];
      Depth(pieces[..|pieces| - 1]) + if c == "" || c == "." then 0 else if c == ".." then -1 else 1
  }

  /** Some way into the name it lies above where it began. */
  ghost predicate Escapes(pieces: seq<string>) {
    exists n | 0 <= n <= |pieces| :: Depth(pieces[..n]) < 0
  }

  lemma {:induction false} EscapesNext(pieces: seq<string>, c: string)
    ensures Escapes(pieces + [c]) <==> Escapes(pieces) || Depth(pieces + [c]) < 0
  {
    var all := pieces + [c];
    forall n | 0 <= n <= |pieces| ensures all[..n] == pieces[..n] {
    }
    assert all[..|all|] == all;
    if Escapes(pieces) {
      var n :| 0 <= n <= |pieces| && Depth(pieces[..n]) < 0;
      assert Depth(all[..n]) < 0;
    }
  }

  /** While a name has not escaped, what it comes to is as deep as its pieces lead. */
  lemma {:induction false} CleanDepth(pieces: seq<string>)
    requires forall c <- pieces :: '/' !in c
    ensures var p := Clean(pieces, false);
      if Escapes(pieces) then p != [] && p[0] == ".." else |p| == Depth(pieces) && ".." !in p
  {
    if pieces == [] {
      assert pieces[..0] == [];
    } else {
      var n := |pieces| - 1;
      assert pieces == pieces[..n] + [pieces[n]];
      EscapesNext(pieces[..n], pieces[n]);
      CleanDepth(pieces[..n]);
      CleanClimbsFirst(pieces[..n], false);
    }
  }

  /** A name is refused exactly when it is not rooted and leads, some way in, above where it began. */
  lemma {:induction false} RefusedExactlyWhenEscaping(name: string)
    ensures CleanTarName(name).Refused? <==> name != "" && name[0] != '/' && Escapes(Split(name))
  {
    if name != "" {
      SplitHasNoSlash(name);
      CleanDepth(Split(name));
      CleanClimbsFirst(Split(name), true);
    }
  }

  /** Two dots undo the proper piece before them, one dot and nothing add nothing, and a root has nothing above it. */
  lemma {:induction false} CleanSteps(pieces: seq<string>, c: string, rooted: bool)
    ensures Proper(c) ==> Clean(pieces + [c], rooted) == Clean(pieces, rooted) + [c]
    ensures Proper(c) ==> Clean(pieces + [c] + [".."], rooted) == Clean(pieces, rooted)
    ensures Clean(pieces + [""], rooted) == Clean(pieces + ["."], rooted) == Clean(pieces, rooted)
    ensures Clean(pieces, true) == [] ==> Clean(pieces + [".."], true) == []
  {
    forall d: string ensures (pieces + [d])[..|pieces|] == pieces {
    }
    assert (pieces + [c] + [".."])[..|pieces| + 1] == pieces + [c];
  }

  lemma {:induction false} SplitPiece(s: string, c: string)
    requires '/' !in c
    ensures Split(s + "/" + c) == Split(s) + [c]
  {
    var t := s + "/" + c;
    if c == "" {
      assert t[..|t| - 1] == s;
    } else {
      var d := c[..|c| - 1];
      assert t[..|t| - 1] == s + "/" + d;
      SplitPiece(s, d);
      assert c == d + [c[|c| - 1]];
    }
  }

  lemma {:induction false} SplitOne(c: string)
    requires '/' !in c
    ensures Split(c) == [c]
  {
    if c != "" {
      SplitOne(c[..|c| - 1]);
      assert c == c[..|c| - 1] + [c[|c| - 1]];
    }
  }

  lemma {:induction false} SplitRendered(p: Path)
    requires ProperPath(p)
    ensures Split(Render(p)) == p
  {
    var n := |p| - 1;
    assert p[n] in p;
    if n == 0 {
      SplitOne(p[0]);
    } else {
      SplitRendered(p[..n]);
      SplitPiece(Render(p[..n]), p[n]);
    }
  }

  lemma {:induction false} CleanProper(p: Path, rooted: bool)
    requires forall c <- p :: Proper(c)
    ensures Clean(p, rooted) == p
  {
    if p != [] {
      var n := |p| - 1;
      assert p[n] in p && p == p[..n] + [p[n]];
      CleanProper(p[..n], rooted);
    }
  }

  lemma {:induction false} RenderNotEmpty(p: Path)
    requires ProperPath(p)
    ensures Render(p) != ""
  {
    assert p[0] in p;
  }

  /** A written name, with or without a directory's trailing slash, is read back as the path. */
  lemma {:induction false} NameRoundTrip(p: Path)
    requires ProperPath(p)
    ensures CleanTarName(Render(p)) == Local(p) && CleanTarName(Render(p) + "/") == Local(p)
  {
    var s := Render(p);
    assert p[0] in p;
    RenderNotEmpty(p);
    SplitRendered(p);
    CleanProper(p, s[0] == '/');
    SplitPiece(s, "");
    assert s + "/" + "" == s + "/" && (p + [""])[..|p|] == p;
    assert Clean(p + [""], s[0] == '/') == CleanNext(p, "", s[0] == '/');
  }

  /** A path is spelled longer than any path above it. */
  lemma {:induction false} DeeperIsLonger(q: Path, p: Path)
    requires ProperPath(q) && ProperPath(p) && q < p
    ensures |Render(q)| < |Render(p)|
  {
    var n := |p| - 1;
    if |q| < n {
      DeeperIsLonger(q, p[..n]);
    } else {
      assert q == p[..n];
    }
  }

  // ---- the order of a walk ----

  predicate Before(a: Path, b: Path) {
    b != [] && (a == [] || Less(a[0], b[0]) || (a[0] == b[0] && Before(a[1..], b[1..])))
  }

  lemma {:induction false} BeforeIrreflexive(a: Path)
    ensures !Before(a, a)
  {
    if a != [] {
      LessIrreflexive(a[0]);
      BeforeIrreflexive(a[1..]);
    }
  }

  lemma {:induction false} BeforeTransitive(a: Path, b: Path, c: Path)
    requires Before(a, b) && Before(b, c)
    ensures Before(a, c)
  {
    if a != [] {
      if Less(a[0], b[0]) && Less(b[0], c[0]) {
        LessTransitive(a[0], b[0], c[0]);
      } else if a[0] == b[0] == c[0] && !Less(a[0], c[0]) {
        BeforeTransitive(a[1..], b[1..], c[1..]);
      }
    }
  }

  lemma {:induction false} BeforeTotal(a: Path, b: Path)
    ensures a == b || Before(a, b) || Before(b, a)
  {
    if a != [] && b != [] {
      LessTotal(a[0], b[0]);
      BeforeTotal(a[1..], b[1..]);
      assert a == [a[0]] + a[1..] && b == [b[0]] + b[1..];
    }
  }

  /** A walk enters a directory before what it holds. */
  lemma {:induction false} ParentsFirst(q: Path, p: Path)
    requires q < p
    ensures Before(q, p)
  {
    if q != [] {
      assert q[0] == p[0] && q[1..] < p[1..];
      ParentsFirst(q[1..], p[1..]);
    }
  }

  /** A walk takes siblings, and all below them, in the order of their names. */
  lemma {:induction false} SiblingsInOrder(p: Path, x: string, a: Path, y: string, b: Path)
    requires x != y
    ensures Before(p + [x] + a, p + [y] + b) <==> Less(x, y)
  {
    if p == [] {
      assert (p + [x] + a)[0] == x && (p + [y] + b)[0] == y;
    } else {
      assert (p + [x] + a)[1..] == p[1..] + [x] + a && (p + [y] + b)[1..] == p[1..] + [y] + b;
      LessIrreflexive(p[0]);
      SiblingsInOrder(p[1..], x, a, y, b);
    }
  }

  ghost predicate First(p: Path, paths: set<Path>) {
    p in paths && forall q <- paths :: q == p || Before(p, q)
  }

  lemma {:induction false} FirstExists(paths: set<Path>) returns (p: Path)
    requires paths != {}
    ensures First(p, paths)
    decreases |paths|
  {
    p :| p in paths;
    var rest := paths - {p};
    if rest != {} {
      var q := FirstExists(rest);
      BeforeTotal(q, p);
      if Before(q, p) {
        p := q;
      } else {
        forall r <- paths ensures r == p || Before(p, r) {
          if r != p && r != q {
            BeforeTransitive(p, q, r);
          }
        }
      }
    }
  }
}
