/** Writing a directory tree as a sequence of tar entries. */
module Archive {
  import opened Bytes
  import opened Records
  import opened Paths

  datatype Kind =
    | Regular(contents: seq<byte>)
    | Dir
    | Symlink(target: string)
    | Fifo
    | Char(major: int, minor: int)
    | Block(major: int, minor: int)
    | Socket

  /** The mode holds the permission bits, sticky (0x200), setgid (0x400) and setuid (0x800). */
  datatype Meta = Meta(uid: int, gid: int, mode: bv12, mtime: int, xattrs: map<string, string>)

  datatype Inode = Inode(kind: Kind, meta: Meta, nlink: nat)

  /** A directory tree: the names below its root, and the inodes they lead to. */
  datatype Tree = Tree(names: map<Path, nat>, inodes: map<nat, Inode>)

  function At(t: Tree, p: Path): Inode
    requires p in t.names && t.names[p] in t.inodes
  {
    t.inodes[t.names[p]]
  }

  function Parent(p: Path): Path
    requires p != []
  {
    p[..|p| - 1]
  }

  ghost predicate ValidTree(t: Tree) {
    && (forall p <- t.names :: ProperPath(p) && t.names[p] in t.inodes)
    && (forall p <- t.names | |p| > 1 :: Parent(p) in t.names && At(t, Parent(p)).kind.Dir?)
    && (forall p <- t.names, q <- t.names | p != q && t.names[p] == t.names[q] ::
          !At(t, p).kind.Dir? && At(t, p).nlink > 1)
  }

  // ---- headers ----

  datatype Body =
    | TypeReg(contents: seq<byte>)
    | TypeDir
    | TypeSymlink(target: string)
    | TypeFifo
    | TypeChar(major: int, minor: int)
    | TypeBlock(major: int, minor: int)
    | TypeLink(linkname: string)

  datatype Header = Header(name: string, body: Body, uid: int, gid: int, mode: bv12, mtime: int,
                           xattrs: map<string, string>)

  /** Archived times are rounded to the second, half a second up. */
  function ArchiveTime(t: int): int {
    (t + SECOND / 2) - (t + SECOND / 2) % SECOND
  }

  predicate Carried(attr: string) {
    "user." <= attr || "trusted.overlay." <= attr
  }

  /** The attributes an archive carries. */
  function CarriedOf(xattrs: map<string, string>): map<string, string> {
    map k | k in xattrs && Carried(k) :: xattrs[k]
  }

  /** Filtering again on extraction loses nothing more. */
  lemma {:induction false} CarriedTwice(xattrs: map<string, string>)
    ensures CarriedOf(CarriedOf(xattrs)) == CarriedOf(xattrs)
  {
  }

  function BodyOf(kind: Kind): Body
    requires !kind.Socket?
  {
    match kind
    case Regular(contents) => TypeReg(contents)
    case Dir => TypeDir
    case Symlink(target) => TypeSymlink(target)
    case Fifo => TypeFifo
    case Char(major, minor) => TypeChar(major, minor)
    case Block(major, minor) => TypeBlock(major, minor)
  }

  /** The entry of a path; `link` is the name an earlier link to the same file was archived under. */
  function HeaderFor(node: Inode, p: Path, link: Option<Path>): Header
    requires !node.kind.Socket?
  {
    var m := node.meta;
    Header(
      if node.kind.Dir? then Render(p) + "/" else Render(p),
      if link.Some? then TypeLink(Render(link.value)) else BodyOf(node.kind),
      m.uid, m.gid, m.mode, ArchiveTime(m.mtime),
      if node.kind.Symlink? then map[] else CarriedOf(m.xattrs))
  }

  // ---- what is archived ----

  /** Neither the path nor a directory above it is skipped. */
  ghost predicate Visited(t: Tree, skip: set<Path>, p: Path) {
    p in t.names && forall q | q != [] && q <= p :: q !in skip
  }

  ghost predicate Archived(t: Tree, skip: set<Path>, p: Path)
    requires ValidTree(t)
  {
    Visited(t, skip, p) && !At(t, p).kind.Socket?
  }

  predicate SameFile(t: Tree, p: Path, q: Path)
    requires p in t.names && t.names[p] in t.inodes && q in t.names
  {
    p == q || (At(t, p).kind.Regular? && t.names[p] == t.names[q])
  }

  /** The first of the paths that is the same regular file as `p`. */
  function LinkTarget(t: Tree, ps: seq<Path>, p: Path): (r: Option<Path>)
    requires p in t.names && t.names[p] in t.inodes && forall q <- ps :: q in t.names
    ensures r.Some? ==> r.value in ps && At(t, p).kind.Regular? && t.names[r.value] == t.names[p]
    ensures r.None? && At(t, p).kind.Regular? ==> forall q <- ps :: t.names[q] != t.names[p]
  {
    if ps == [] then None
    else
      var r := LinkTarget(t, ps[..|ps| - 1], p);
      var last := ps[|ps| - 1];
      assert last in ps;
      if r.Some? then r
      else if At(t, p).kind.Regular? && t.names[last] == t.names[p] then Some(last)
      else None
  }

  /** The entries of `ps`, in order, each file's contents once. */
  ghost predicate Entries(t: Tree, ps: seq<Path>, entries: seq<Header>)
    requires forall p <- ps :: p in t.names && t.names[p] in t.inodes && !At(t, p).kind.Socket?
  {
    && |entries| == |ps|
    && forall i | 0 <= i < |ps| ::
         assert ps[i] in ps;
         entries[i] == HeaderFor(At(t, ps[i]), ps[i], LinkTarget(t, ps[..i], ps[i]))
  }

  ghost predicate WalkOrder(ps: seq<Path>) {
    forall i, j | 0 <= i < j < |ps| :: Before(ps[i], ps[j])
  }

  /** `ps` are the archived paths, in the order of the walk. */
  ghost predicate Walk(t: Tree, skip: set<Path>, ps: seq<Path>)
    requires ValidTree(t)
  {
    WalkOrder(ps) && forall p :: p in ps <==> Archived(t, skip, p)
  }

  /** The entries of the archived paths, in walk order. */
  ghost predicate IsArchive(t: Tree, skip: set<Path>, entries: seq<Header>)
    requires ValidTree(t)
  {
    exists ps :: Walk(t, skip, ps) && Entries(t, ps, entries)
  }

  // ---- the walk ----

  /** Mid-walk: `left` is still to come, `done` was archived or is a socket. */
  ghost predicate Walking(t: Tree, skip: set<Path>, left: set<Path>, done: set<Path>) {
    && left <= t.names.Keys && left !! done
    && (forall p <- done :: Visited(t, skip, p))
    && (forall p | Visited(t, skip, p) :: p in left || p in done)
    && (forall p <- left, q | q != [] && q < p :: q in left || q in done)
    && (forall p <- left, q <- done :: Before(q, p))
  }

  /** Everything above the next path has been done. */
  lemma {:induction false} AncestorsDone(t: Tree, skip: set<Path>, left: set<Path>, done: set<Path>, p: Path, q: Path)
    requires Walking(t, skip, left, done) && First(p, left) && q != [] && q < p
    ensures q in done
  {
    if q in left {
      ParentsFirst(q, p);
      BeforeTransitive(p, q, p);
      BeforeIrreflexive(p);
    }
  }

  lemma {:induction false} NextIsVisited(t: Tree, skip: set<Path>, left: set<Path>, done: set<Path>, p: Path)
    requires Walking(t, skip, left, done) && First(p, left) && ValidTree(t)
    ensures Visited(t, skip, p) <==> p !in skip
  {
    assert p != [] && p <= p;
    if p !in skip {
      forall q | q != [] && q <= p ensures q !in skip {
        if q < p {
          AncestorsDone(t, skip, left, done, p, q);
          assert Visited(t, skip, q) && q <= q;
        } else {
          assert q == p;
        }
      }
    }
  }

  /** What a skipped path takes with it. */
  function Pruned(t: Tree, left: set<Path>, p: Path): set<Path>
    requires p in t.names && t.names[p] in t.inodes
  {
    if At(t, p).kind.Dir? then set q | q in left && !(p <= q) else left - {p}
  }

  lemma {:induction false} OnlyDirectoriesHold(t: Tree, p: Path, q: Path)
    requires ValidTree(t) && p in t.names && q in t.names && p < q
    ensures At(t, p).kind.Dir?
    decreases |q|
  {
    var parent := Parent(q);
    if p != parent {
      assert p < parent;
      OnlyDirectoriesHold(t, p, parent);
    }
  }

  lemma {:induction false} WalkOn(t: Tree, skip: set<Path>, left: set<Path>, done: set<Path>, p: Path)
    requires Walking(t, skip, left, done) && First(p, left) && ValidTree(t) && p !in skip
    ensures Walking(t, skip, left - {p}, done + {p})
  {
    NextIsVisited(t, skip, left, done, p);
  }

  lemma {:induction false} WalkSkips(t: Tree, skip: set<Path>, left: set<Path>, done: set<Path>, p: Path)
    requires Walking(t, skip, left, done) && First(p, left) && ValidTree(t) && p in skip
    ensures Walking(t, skip, Pruned(t, left, p), done)
  {
    var rest := Pruned(t, left, p);
    forall q <- left ensures q in rest <==> !(p <= q) {
      if p < q {
        OnlyDirectoriesHold(t, p, q);
      } else if p <= q {
        assert p == q;
      }
    }
    forall q | Visited(t, skip, q) ensures q in rest || q in done {
      assert p <= q ==> p !in skip;
    }
    forall q <- rest, r | r != [] && r < q ensures r in rest || r in done {
      assert p <= r ==> p <= q;
    }
  }

  // ---- hard links ----

  /** The links remembered are those of the paths written. */
  ghost predicate Remembers(t: Tree, ps: seq<Path>, linked: map<nat, Path>)
    requires ValidTree(t) && forall q <- ps :: q in t.names
  {
    forall p <- t.names | At(t, p).kind.Regular? && At(t, p).nlink > 1 ::
      LinkTarget(t, ps, p) == if t.names[p] in linked then Some(linked[t.names[p]]) else None
  }

  lemma {:induction false} LinkTargetNext(t: Tree, ps: seq<Path>, p: Path, q: Path)
    requires ValidTree(t) && p in t.names && q in t.names && forall x <- ps :: x in t.names
    ensures forall x <- ps + [p] :: x in t.names
    ensures LinkTarget(t, ps + [p], q)
         == if LinkTarget(t, ps, q).Some? then LinkTarget(t, ps, q)
            else if At(t, q).kind.Regular? && t.names[p] == t.names[q] then Some(p) else None
  {
    assert (ps + [p])[..|ps|] == ps;
  }

  lemma {:induction false} RemembersNext(t: Tree, ps: seq<Path>, linked: map<nat, Path>, p: Path)
    requires ValidTree(t) && p in t.names && (forall q <- ps :: q in t.names) && Remembers(t, ps, linked)
    ensures forall q <- ps + [p] :: q in t.names
    ensures var ino := t.names[p];
      if At(t, p).kind.Regular? && At(t, p).nlink > 1 && ino !in linked then Remembers(t, ps + [p], linked[ino := p])
      else Remembers(t, ps + [p], linked)
  {
    forall q <- t.names ensures forall x <- ps + [p] :: x in t.names {
      LinkTargetNext(t, ps, p, q);
    }
    forall q <- t.names
      ensures LinkTarget(t, ps + [p], q)
           == if LinkTarget(t, ps, q).Some? then LinkTarget(t, ps, q)
              else if At(t, q).kind.Regular? && t.names[p] == t.names[q] then Some(p) else None
    {
      LinkTargetNext(t, ps, p, q);
    }
  }

  /** A file with one link has no earlier one. */
  lemma {:induction false} SingleLink(t: Tree, ps: seq<Path>, p: Path)
    requires ValidTree(t) && p in t.names && p !in ps && forall q <- ps :: q in t.names
    requires !At(t, p).kind.Regular? || At(t, p).nlink <= 1
    ensures LinkTarget(t, ps, p).None?
  {
  }

  lemma {:induction false} EntriesNext(t: Tree, ps: seq<Path>, entries: seq<Header>, p: Path)
    requires ValidTree(t) && p in t.names && !At(t, p).kind.Socket?
    requires (forall q <- ps :: q in t.names && !At(t, q).kind.Socket?) && Entries(t, ps, entries)
    ensures forall q <- ps + [p] :: q in t.names && t.names[q] in t.inodes && !At(t, q).kind.Socket?
    ensures Entries(t, ps + [p], entries + [HeaderFor(At(t, p), p, LinkTarget(t, ps, p))])
  {
    var ps', entries' := ps + [p], entries + [HeaderFor(At(t, p), p, LinkTarget(t, ps, p))];
    forall q <- ps' ensures q in t.names && t.names[q] in t.inodes && !At(t, q).kind.Socket? {
    }
    forall i | 0 <= i < |ps'|
      ensures ps'[i] in ps' && entries'[i] == HeaderFor(At(t, ps'[i]), ps'[i], LinkTarget(t, ps'[..i], ps'[i]))
    {
      assert ps'[i] in ps' && ps'[..i] == ps[..i];
      if i < |ps| {
        assert ps[i] in ps;
      } else {
        assert ps[..i] == ps;
      }
    }
  }

  /** Looks a file's earlier link up, and remembers this one if it is the first. */
  method Link(t: Tree, ghost ps: seq<Path>, linked: map<nat, Path>,
              p: Path) returns (link: Option<Path>, linked': map<nat, Path>)
    requires ValidTree(t) && p in t.names && p !in ps && (forall q <- ps :: q in t.names) && Remembers(t, ps, linked)
    ensures (forall q <- ps + [p] :: q in t.names) && Remembers(t, ps + [p], linked')
    ensures link == LinkTarget(t, ps, p)
  {
    link, linked' := None, linked;
    RemembersNext(t, ps, linked, p);
    var node, ino := At(t, p), t.names[p];
    if node.kind.Regular? && node.nlink > 1 {
      if ino in linked {
        link := Some(linked[ino]);
      } else {
        linked' := linked[ino := p];
      }
    } else {
      SingleLink(t, ps, p);
    }
  }

  /** The paths done that are not sockets have been written, in order. */
  ghost predicate Written(t: Tree, done: set<Path>, ps: seq<Path>, entries: seq<Header>)
    requires ValidTree(t)
  {
    && WalkOrder(ps)
    && (forall p :: p in ps <==> p in done && p in t.names && !At(t, p).kind.Socket?)
    && Entries(t, ps, entries)
  }

  lemma {:induction false} WrittenNext(t: Tree, done: set<Path>, ps: seq<Path>, entries: seq<Header>, p: Path)
    requires ValidTree(t) && Written(t, done, ps, entries)
    requires p in t.names && !At(t, p).kind.Socket? && forall q <- done :: Before(q, p)
    ensures Written(t, done + {p}, ps + [p], entries + [HeaderFor(At(t, p), p, LinkTarget(t, ps, p))])
  {
    EntriesNext(t, ps, entries, p);
    var ps' := ps + [p];
    forall i, j | 0 <= i < j < |ps'| ensures Before(ps'[i], ps'[j]) {
      assert ps[i] in ps;
    }
  }

  lemma {:induction false} SocketLeftOut(t: Tree, done: set<Path>, ps: seq<Path>, entries: seq<Header>, p: Path)
    requires ValidTree(t) && Written(t, done, ps, entries) && p in t.names && At(t, p).kind.Socket?
    ensures Written(t, done + {p}, ps, entries)
  {
  }

  /** Writes one entry per unskipped path, in walk order; sockets are left out, and a file's later links point at its
      first. */
  method WriteTree(t: Tree, skip: set<Path>) returns (entries: seq<Header>)
    requires ValidTree(t)
    ensures IsArchive(t, skip, entries)
  {
    entries := [];
    ghost var ps: seq<Path> := [];
    var linked: map<nat, Path> := map[];
    var left := t.names.Keys;
    ghost var done: set<Path> := {};
    StartWalking(t, skip);
    while left != {}
      invariant Walking(t, skip, left, done) && Written(t, done, ps, entries)
      invariant (forall q <- ps :: q in t.names) && Remembers(t, ps, linked)
      decreases |left|
    {
      ghost var first := FirstExists(left);
      var p :| p in left && forall q <- left :: q == p || Before(p, q);
      if p in skip {
        WalkSkips(t, skip, left, done, p);
        SmallerPaths(Pruned(t, left, p), left, p);
        left := Pruned(t, left, p);
        continue;
      }
      WalkOn(t, skip, left, done, p);
      if At(t, p).kind.Socket? {
        SocketLeftOut(t, done, ps, entries, p);
      } else {
        WrittenNext(t, done, ps, entries, p);
        var link: Option<Path>;
        link, linked := Link(t, ps, linked, p);
        entries := entries + [HeaderFor(At(t, p), p, link)];
        ps := ps + [p];
      }
      left := left - {p};
      done := done + {p};
    }
    assert Walk(t, skip, ps) && Entries(t, ps, entries);
  }

  lemma {:induction false} StartWalking(t: Tree, skip: set<Path>)
    requires ValidTree(t)
    ensures Walking(t, skip, t.names.Keys, {})
  {
    forall p <- t.names, q | q != [] && q < p ensures q in t.names {
      AncestorsNamed(t, p, q);
    }
  }

  lemma {:induction false} AncestorsNamed(t: Tree, p: Path, q: Path)
    requires ValidTree(t) && p in t.names && q != [] && q < p
    ensures q in t.names
    decreases |p|
  {
    if q != Parent(p) {
      assert q < Parent(p);
      AncestorsNamed(t, Parent(p), q);
    }
  }

  lemma {:induction false} SmallerPaths(a: set<Path>, b: set<Path>, p: Path)
    requires a <= b && p in b && p !in a
    ensures |a| < |b|
  {
    assert b == a + (b - a) && p in b - a;
  }
}
