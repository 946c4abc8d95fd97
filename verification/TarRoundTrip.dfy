/** Archiving a tree and extracting it into an empty directory reproduces it. */
module TarRoundTrip {
  import opened Records
  import opened Paths
  import opened Archive
  import opened Extract
  import opened Collections

  /** The attributes in the two namespaces an archive carries, and no others. */
  ghost predicate SameAttributes(made: map<string, string>, src: map<string, string>) {
    && (forall k :: k in made <==> k in src && ("user." <= k || "trusted.overlay." <= k))
    && forall k <- made :: made[k] == src[k]
  }

  /** The whole second nearest to the source's time, half a second rounding up; the zero time is not restored. */
  ghost predicate SameTime(made: int, src: int) {
    ZERO_TIME <= src + SECOND / 2 < ZERO_TIME + SECOND ||
    (made % SECOND == 0 && made <= src + SECOND / 2 < made + SECOND)
  }

  lemma {:induction false} ArchivedTimeIsNear(t: int)
    ensures var a := ArchiveTime(t);
      && a % SECOND == 0 && a <= t + SECOND / 2 < a + SECOND
      && (a == ZERO_TIME <==> ZERO_TIME <= t + SECOND / 2 < ZERO_TIME + SECOND)
  {
  }

  /** Owner, mode, attributes and time, at the precision of an archive. */
  ghost predicate SameMeta(made: Meta, src: Meta) {
    && made.uid == src.uid && made.gid == src.gid && made.mode == src.mode
    && made.xattrs == CarriedOf(src.xattrs)
    && (ArchiveTime(src.mtime) != ZERO_TIME ==> made.mtime == ArchiveTime(src.mtime))
  }

  /** The node stands for its source; a directory's own metadata is still to come. */
  ghost predicate Made(made: Inode, src: Inode) {
    && made.kind == src.kind
    && match src.kind
       case Dir => made.meta.mode & WX_OWNER == WX_OWNER && made.meta.xattrs == map[]
       case Symlink(_) => made.meta.uid == src.meta.uid && made.meta.gid == src.meta.gid
       case _ => SameMeta(made.meta, src.meta)
  }

  ghost predicate Same(made: Inode, src: Inode) {
    if src.kind.Dir? then made.kind.Dir? && SameMeta(made.meta, src.meta) else Made(made, src)
  }

  /** The tree `r` holds exactly the paths `done` of `t`, two paths being one file exactly when they are in `t`. */
  ghost predicate SameShape(t: Tree, done: set<Path>, r: Tree)
    requires ValidTree(t) && done <= t.names.Keys
  {
    && r.names.Keys == done
    && (forall p <- done :: r.names[p] in r.inodes)
    && forall p <- done, q <- done :: r.names[p] == r.names[q] <==> SameFile(t, p, q)
  }

  ghost predicate AllMade(t: Tree, done: set<Path>, r: Tree)
    requires ValidTree(t) && done <= t.names.Keys && SameShape(t, done, r)
  {
    forall p <- done :: Made(At(r, p), At(t, p))
  }

  ghost predicate DirsOf(t: Tree, done: set<Path>, dirs: map<Path, Header>)
    requires ValidTree(t) && done <= t.names.Keys
  {
    && (forall p :: p in dirs <==> p in done && At(t, p).kind.Dir?)
    && forall p <- dirs :: dirs[p] == HeaderFor(At(t, p), p, None)
  }

  ghost predicate Fresh(r: Tree, next: nat) {
    forall ino <- r.inodes :: ino < next
  }

  /** Mid-extraction: everything in `done` has been made. */
  ghost predicate Extracting(t: Tree, done: set<Path>, s: State)
    requires ValidTree(t)
  {
    && done <= t.names.Keys && SameShape(t, done, s.tree) && AllMade(t, done, s.tree)
    && DirsOf(t, done, s.dirs) && Fresh(s.tree, s.next)
  }

  ghost predicate MadeWell(t: Tree, done: set<Path>, r: Option<State>)
    requires ValidTree(t)
  {
    r.Some? && Extracting(t, done, r.value)
  }

  ghost predicate ClosedAbove(t: Tree, done: set<Path>, p: Path)
    requires ValidTree(t)
  {
    forall i | 1 <= i < |p| :: p[..i] in done && p[..i] in t.names && At(t, p[..i]).kind.Dir?
  }

  lemma {:induction false} IsReachable(t: Tree, done: set<Path>, r: Tree, p: Path)
    requires ValidTree(t) && done <= t.names.Keys && SameShape(t, done, r) && AllMade(t, done, r)
    requires ClosedAbove(t, done, p)
    ensures Reachable(r, p)
  {
    forall i | 1 <= i < |p| ensures IsDir(r, p[..i]) && At(r, p[..i]).meta.mode & WX_OWNER == WX_OWNER {
      assert Made(At(r, p[..i]), At(t, p[..i]));
    }
  }

  /** Adding a name changes nothing about the nodes already made but a directory's time. */
  lemma {:induction false} GrownKeeps(t: Tree, done: set<Path>, r: Tree, p: Path, ino: nat, node: Inode, now: int,
                                      q: Path)
    requires ValidTree(t) && done <= t.names.Keys && SameShape(t, done, r) && AllMade(t, done, r)
    requires p != [] && p !in done && q in done && (ino == r.names[q] ==> Made(node, At(t, q)))
    ensures var g := Grown(r, p, ino, node, now);
      q in g.names && g.names[q] == r.names[q] && g.names[q] in g.inodes && Made(At(g, q), At(t, q))
  {
    assert Made(At(r, q), At(t, q));
    if IsDir(r, Parent(p)) {
      assert Made(At(r, Parent(p)), At(t, Parent(p)));
      assert r.names[q] == r.names[Parent(p)] <==> SameFile(t, q, Parent(p));
    }
  }

  /** A new inode is a file of its own. */
  lemma {:induction false} GrownNew(t: Tree, done: set<Path>, s: State, p: Path, node: Inode, now: int)
    requires ValidTree(t) && Extracting(t, done, s) && p in t.names && p !in done
    requires Made(node, At(t, p)) && (At(t, p).kind.Regular? ==> forall q <- done :: t.names[q] != t.names[p])
    ensures var g := Grown(s.tree, p, s.next, node, now);
      done + {p} <= t.names.Keys && SameShape(t, done + {p}, g) && AllMade(t, done + {p}, g) && Fresh(g, s.next + 1)
  {
    var r := s.tree;
    var g := Grown(r, p, s.next, node, now);
    forall q <- done
      ensures r.names[q] < s.next
      ensures q in g.names && g.names[q] == r.names[q] && g.names[q] in g.inodes && Made(At(g, q), At(t, q))
    {
      GrownKeeps(t, done, r, p, s.next, node, now, q);
    }
    forall x <- done + {p}, y <- done + {p} ensures g.names[x] == g.names[y] <==> SameFile(t, x, y) {
    }
  }

  lemma {:induction false} LinkKeeps(t: Tree, done: set<Path>, r: Tree, p: Path, target: Path, now: int, q: Path)
    requires ValidTree(t) && done <= t.names.Keys && SameShape(t, done, r) && AllMade(t, done, r)
    requires p in t.names && p !in done && target in done && q in done
    requires At(t, p).kind.Regular? && t.names[target] == t.names[p]
    ensures var g := Joined(r, p, target, now);
      q in g.names && g.names[q] == r.names[q] && g.names[q] in g.inodes && Made(At(g, q), At(t, q))
  {
    var node := At(r, target).(nlink := At(r, target).nlink + 1);
    assert Made(At(r, target), At(t, target)) && Made(node, At(t, p));
    assert r.names[target] == r.names[q] <==> SameFile(t, target, q);
    GrownKeeps(t, done, r, p, r.names[target], node, now, q);
  }

  lemma {:induction false} LinkShares(t: Tree, done: set<Path>, r: Tree, p: Path, target: Path, now: int, x: Path,
                                      y: Path)
    requires ValidTree(t) && done <= t.names.Keys && SameShape(t, done, r)
    requires p in t.names && p !in done && target in done && x in done + {p} && y in done + {p}
    requires At(t, p).kind.Regular? && t.names[target] == t.names[p]
    ensures var g := Joined(r, p, target, now); g.names[x] == g.names[y] <==> SameFile(t, x, y)
  {
    var ino := r.names[target];
    assert x in done ==> (r.names[x] == ino <==> SameFile(t, x, target));
    assert y in done ==> (r.names[y] == ino <==> SameFile(t, y, target));
  }

  /** A link is the file of its target. */
  lemma {:induction false} GrownLink(t: Tree, done: set<Path>, s: State, p: Path, target: Path, now: int)
    requires ValidTree(t) && Extracting(t, done, s) && p in t.names && p !in done && target in done
    requires At(t, p).kind.Regular? && t.names[target] == t.names[p]
    ensures var g := Joined(s.tree, p, target, now);
      done + {p} <= t.names.Keys && SameShape(t, done + {p}, g) && AllMade(t, done + {p}, g) && Fresh(g, s.next)
  {
    var r, g := s.tree, Joined(s.tree, p, target, now);
    assert Made(At(r, target), At(t, target));
    forall q <- done
      ensures q in g.names && g.names[q] == r.names[q] && g.names[q] in g.inodes && Made(At(g, q), At(t, q))
    {
      LinkKeeps(t, done, r, p, target, now, q);
    }
    forall x <- done + {p}, y <- done + {p} ensures g.names[x] == g.names[y] <==> SameFile(t, x, y) {
      LinkShares(t, done, r, p, target, now, x, y);
    }
  }

  lemma {:induction false} OwnerMayEnter(mode: bv12)
    ensures ((mode & PERM) | RWX_OWNER) & WX_OWNER == WX_OWNER
  {
  }

  /** Owner, mode, attributes and time, restored on a new node, are the source's. */
  lemma {:induction false} RestoredIsSame(src: Inode, p: Path, mode: bv12, now: int)
    requires !src.kind.Socket? && !src.kind.Symlink?
    ensures SameMeta(Restored(Meta(0, 0, mode, now, map[]), HeaderFor(src, p, None)), src.meta)
    ensures var m := Restored(Meta(0, 0, mode, now, map[]), HeaderFor(src, p, None));
      && m.uid == src.meta.uid && m.gid == src.meta.gid && m.mode == src.meta.mode
      && SameAttributes(m.xattrs, src.meta.xattrs) && SameTime(m.mtime, src.meta.mtime)
  {
    ArchivedTimeIsNear(src.meta.mtime);
    CarriedTwice(src.meta.xattrs);
    var none: map<string, string> := map[];
    assert none + CarriedOf(src.meta.xattrs) == CarriedOf(src.meta.xattrs);
  }

  /** Setting the metadata of a node just made is making it with that metadata. */
  lemma {:induction false} GrownThenMeta(r: Tree, p: Path, ino: nat, node: Inode, now: int, m: Meta)
    requires p != []
    ensures var g := Grown(r, p, ino, node, now);
      && p in g.names && g.names[p] in g.inodes && At(g, p) == node
      && WithMeta(g, p, m) == Grown(r, p, ino, node.(meta := m), now)
  {
    var g := Grown(r, p, ino, node, now);
    assert WithMeta(g, p, m).inodes == Touched(r, p, now)[ino := node.(meta := m)];
  }

  /** Reaching a path does not depend on the path itself. */
  lemma {:induction false} GrownReachable(t: Tree, done: set<Path>, r: Tree, p: Path, ino: nat, node: Inode, now: int)
    requires ValidTree(t) && done <= t.names.Keys && SameShape(t, done, r) && AllMade(t, done, r)
    requires ClosedAbove(t, done, p)
    requires p != [] && p !in done && ino !in r.inodes
    ensures Reachable(Grown(r, p, ino, node, now), p)
  {
    var g := Grown(r, p, ino, node, now);
    forall i | 1 <= i < |p| ensures IsDir(g, p[..i]) && At(g, p[..i]).meta.mode & WX_OWNER == WX_OWNER {
      GrownKeeps(t, done, r, p, ino, node, now, p[..i]);
    }
  }

  /** The entry of a path that is not a further link. */
  ghost predicate NextNew(t: Tree, done: set<Path>, s: State, p: Path)
    requires ValidTree(t)
  {
    && Extracting(t, done, s) && p in t.names && p !in done && ClosedAbove(t, done, p) && !At(t, p).kind.Socket?
    && (At(t, p).kind.Regular? ==> forall q <- done :: t.names[q] != t.names[p])
  }

  lemma {:induction false} DirMade(t: Tree, done: set<Path>, s: State, p: Path, now: int)
    requires ValidTree(t) && NextNew(t, done, s, p) && At(t, p).kind.Dir?
    ensures var r := MakeDir(s, HeaderFor(At(t, p), p, None), p, now); MadeWell(t, done + {p}, r)
  {
    var h := HeaderFor(At(t, p), p, None);
    IsReachable(t, done, s.tree, p);
    OwnerMayEnter(h.mode);
    GrownNew(t, done, s, p, NewNode(TypeDir, (h.mode & PERM) | RWX_OWNER, now), now);
  }

  lemma {:induction false} SymlinkMade(t: Tree, done: set<Path>, s: State, p: Path, now: int)
    requires ValidTree(t) && NextNew(t, done, s, p) && At(t, p).kind.Symlink?
    ensures var r := MakeSymlink(s, HeaderFor(At(t, p), p, None), p, now); MadeWell(t, done + {p}, r)
  {
    var h := HeaderFor(At(t, p), p, None);
    IsReachable(t, done, s.tree, p);
    var node := NewNode(h.body, h.mode & PERM, now);
    var owned := Chown(node.meta, h.uid, h.gid);
    GrownThenMeta(s.tree, p, s.next, node, now, owned);
    GrownNew(t, done, s, p, node.(meta := owned), now);
  }

  lemma {:induction false} MakeFileIs(s: State, h: Header, p: Path, now: int)
    requires p != [] && !h.body.TypeLink? && Reachable(s.tree, p) && p !in s.tree.names
    requires Reachable(Grown(s.tree, p, s.next, NewNode(h.body, h.mode & PERM, now), now), p)
    ensures var node := NewNode(h.body, h.mode & PERM, now);
      MakeFile(s, h, p, now)
      == Some(State(Grown(s.tree, p, s.next, node.(meta := Restored(node.meta, h)), now), s.next + 1, s.dirs))
  {
    var node := NewNode(h.body, h.mode & PERM, now);
    GrownThenMeta(s.tree, p, s.next, node, now, Restored(node.meta, h));
  }

  lemma {:induction false} FileMade(t: Tree, done: set<Path>, s: State, p: Path, now: int)
    requires ValidTree(t) && NextNew(t, done, s, p) && !At(t, p).kind.Dir? && !At(t, p).kind.Symlink?
    ensures var r := MakeFile(s, HeaderFor(At(t, p), p, None), p, now); MadeWell(t, done + {p}, r)
  {
    var h := HeaderFor(At(t, p), p, None);
    IsReachable(t, done, s.tree, p);
    var node := NewNode(h.body, h.mode & PERM, now);
    GrownReachable(t, done, s.tree, p, s.next, node, now);
    MakeFileIs(s, h, p, now);
    RestoredIsSame(At(t, p), p, h.mode & PERM, now);
    GrownNew(t, done, s, p, node.(meta := Restored(node.meta, h)), now);
  }

  lemma {:induction false} LinkMade(t: Tree, done: set<Path>, s: State, p: Path, target: Path, now: int)
    requires ValidTree(t) && Extracting(t, done, s) && p in t.names && p !in done && ClosedAbove(t, done, p)
    requires target in done && ClosedAbove(t, done, target) && At(t, p).kind.Regular? && t.names[target] == t.names[p]
    ensures var r := MakeLink(s, Render(target), p, now); MadeWell(t, done + {p}, r)
  {
    NameRoundTrip(target);
    IsReachable(t, done, s.tree, p);
    IsReachable(t, done, s.tree, target);
    assert Made(At(s.tree, target), At(t, target));
    GrownLink(t, done, s, p, target, now);
  }

  // ---- entry by entry ----

  /** Nothing is in the way of a path not yet made. */
  lemma {:induction false} EntryIs(s: State, h: Header, p: Path, now: int)
    requires p != [] && p !in s.tree.names
    ensures h.body.TypeDir? ==> ExtractEntry(s, h, p, now) == MakeDir(s, h, p, now)
    ensures h.body.TypeSymlink? ==> ExtractEntry(s, h, p, now) == MakeSymlink(s, h, p, now)
    ensures h.body.TypeLink? ==> ExtractEntry(s, h, p, now) == MakeLink(s, h.body.linkname, p, now)
    ensures !h.body.TypeDir? && !h.body.TypeSymlink? && !h.body.TypeLink? ==>
      ExtractEntry(s, h, p, now) == MakeFile(s, h, p, now)
  {
    assert s.(tree := Removed(s.tree, p, now)) == s;
  }

  lemma {:induction false} NewEntryMade(t: Tree, done: set<Path>, s: State, p: Path, now: int)
    requires ValidTree(t) && NextNew(t, done, s, p)
    ensures MadeWell(t, done + {p}, ExtractEntry(s, HeaderFor(At(t, p), p, None), p, now))
  {
    EntryIs(s, HeaderFor(At(t, p), p, None), p, now);
    if At(t, p).kind.Dir? {
      DirMade(t, done, s, p, now);
    } else if At(t, p).kind.Symlink? {
      SymlinkMade(t, done, s, p, now);
    } else {
      FileMade(t, done, s, p, now);
    }
  }

  lemma {:induction false} LinkEntryMade(t: Tree, done: set<Path>, s: State, p: Path, target: Path, now: int)
    requires ValidTree(t) && Extracting(t, done, s) && p in t.names && p !in done && ClosedAbove(t, done, p)
    requires target in done && ClosedAbove(t, done, target) && At(t, p).kind.Regular? && t.names[target] == t.names[p]
    ensures MadeWell(t, done + {p}, ExtractEntry(s, HeaderFor(At(t, p), p, Some(target)), p, now))
  {
    EntryIs(s, HeaderFor(At(t, p), p, Some(target)), p, now);
    LinkMade(t, done, s, p, target, now);
  }

  /** A path above an archived one was archived, earlier. */
  lemma {:induction false} AboveIsEarlier(t: Tree, skip: set<Path>, ps: seq<Path>, i: nat, k: nat)
    requires ValidTree(t) && Walk(t, skip, ps) && i < |ps| && 1 <= k < |ps[i]|
    ensures var q := ps[i][..k]; q in Elements(ps[..i]) && q in t.names && At(t, q).kind.Dir?
  {
    var p := ps[i];
    var q := p[..k];
    assert p in ps && q < p;
    AncestorsNamed(t, p, q);
    OnlyDirectoriesHold(t, q, p);
    forall x | x != [] && x <= q ensures x !in skip {
      assert x <= p;
    }
    assert Archived(t, skip, q);
    var j :| 0 <= j < |ps| && ps[j] == q;
    ParentsFirst(q, p);
    if i < j {
      BeforeTransitive(p, q, p);
      BeforeIrreflexive(p);
    } else if i == j {
      BeforeIrreflexive(p);
    }
    assert ps[..i][j] == q;
  }

  lemma {:induction false} WalkIsClosed(t: Tree, skip: set<Path>, ps: seq<Path>, i: nat, n: nat)
    requires ValidTree(t) && Walk(t, skip, ps) && i < |ps| && i <= n <= |ps|
    ensures ClosedAbove(t, Elements(ps[..n]), ps[i])
  {
    forall k | 1 <= k < |ps[i]|
      ensures var q := ps[i][..k]; q in Elements(ps[..n]) && q in t.names && At(t, q).kind.Dir?
    {
      AboveIsEarlier(t, skip, ps, i, k);
      assert forall x <- ps[..i] :: x in ps[..n];
    }
  }

  lemma {:induction false} WalkIsDistinct(ps: seq<Path>, i: nat)
    requires WalkOrder(ps) && i < |ps|
    ensures ps[i] !in Elements(ps[..i])
  {
    if ps[i] in ps[..i] {
      BeforeIrreflexive(ps[i]);
    }
  }

  /** The entry's name is read back as the path. */
  lemma {:induction false} NamedIs(node: Inode, p: Path, link: Option<Path>, s: State, now: int)
    requires !node.kind.Socket? && ProperPath(p)
    ensures ExtractNamed(s, HeaderFor(node, p, link), now) == ExtractEntry(s, HeaderFor(node, p, link), p, now)
  {
    NameRoundTrip(p);
  }

  /** What the entry of `p` may rely on once `done` has been made. */
  ghost predicate Ready(t: Tree, done: set<Path>, p: Path, link: Option<Path>)
    requires ValidTree(t)
  {
    && done <= t.names.Keys && p in t.names && p !in done && ClosedAbove(t, done, p) && !At(t, p).kind.Socket?
    && (link.Some? ==>
        && link.value in done && ClosedAbove(t, done, link.value) && At(t, p).kind.Regular?
        && t.names[link.value] == t.names[p])
    && (link.None? && At(t, p).kind.Regular? ==> forall q <- done :: t.names[q] != t.names[p])
  }

  lemma {:induction false} WalkIsReady(t: Tree, skip: set<Path>, ps: seq<Path>, i: nat)
    requires ValidTree(t) && Walk(t, skip, ps) && i < |ps|
    ensures forall q <- ps :: q in t.names && t.names[q] in t.inodes && !At(t, q).kind.Socket?
    ensures (forall q <- ps[..i] :: q in t.names) && ps[i] in t.names
    ensures Ready(t, Elements(ps[..i]), ps[i], LinkTarget(t, ps[..i], ps[i]))
  {
    var p := ps[i];
    assert p in ps && forall q <- ps[..i] :: q in ps;
    WalkIsClosed(t, skip, ps, i, i);
    WalkIsDistinct(ps, i);
    var link := LinkTarget(t, ps[..i], p);
    if link.Some? {
      var j :| 0 <= j < i && ps[j] == link.value;
      WalkIsClosed(t, skip, ps, j, i);
    }
  }

  lemma {:induction false} EntryMade(t: Tree, done: set<Path>, s: State, p: Path, link: Option<Path>, now: int)
    requires ValidTree(t) && Extracting(t, done, s) && Ready(t, done, p, link)
    ensures MadeWell(t, done + {p}, ExtractNamed(s, HeaderFor(At(t, p), p, link), now))
  {
    NamedIs(At(t, p), p, link, s, now);
    if link.Some? {
      LinkEntryMade(t, done, s, p, link.value, now);
    } else {
      NewEntryMade(t, done, s, p, now);
    }
  }

  /** The i-th entry of an archive makes the i-th path. */
  lemma {:induction false} NextEntryMade(t: Tree, skip: set<Path>, ps: seq<Path>, entries: seq<Header>, i: nat,
                                         s: State, now: int)
    requires ValidTree(t) && Walk(t, skip, ps) && Entries(t, ps, entries) && i < |ps|
    requires Extracting(t, Elements(ps[..i]), s)
    ensures MadeWell(t, Elements(ps[..i + 1]), ExtractNamed(s, entries[i], now))
  {
    WalkIsReady(t, skip, ps, i);
    EntryMade(t, Elements(ps[..i]), s, ps[i], LinkTarget(t, ps[..i], ps[i]), now);
    assert Elements(ps[..i + 1]) == Elements(ps[..i]) + {ps[i]};
  }

  const EMPTY := Tree(map[], map[])

  lemma {:induction false} NothingMade(t: Tree, ps: seq<Path>, next: nat)
    requires ValidTree(t)
    ensures Extracting(t, Elements(ps[..0]), State(EMPTY, next, map[]))
  {
    assert Elements(ps[..0]) == {};
  }

  lemma {:induction false} ExtractNext(s: State, entries: seq<Header>, n: nat, now: int)
    requires n < |entries| && ExtractAll(s, entries, n, now).Some?
    ensures ExtractAll(s, entries, n + 1, now) == ExtractNamed(ExtractAll(s, entries, n, now).value, entries[n], now)
  {
  }

  lemma {:induction false} AllEntriesMade(t: Tree, skip: set<Path>, ps: seq<Path>, entries: seq<Header>, n: nat,
                                          next: nat, now: int)
    requires ValidTree(t) && Walk(t, skip, ps) && Entries(t, ps, entries) && n <= |ps|
    ensures MadeWell(t, Elements(ps[..n]), ExtractAll(State(EMPTY, next, map[]), entries, n, now))
  {
    var start := State(EMPTY, next, map[]);
    if n == 0 {
      NothingMade(t, ps, next);
    } else {
      AllEntriesMade(t, skip, ps, entries, n - 1, next, now);
      ExtractNext(start, entries, n - 1, now);
      NextEntryMade(t, skip, ps, entries, n - 1, ExtractAll(start, entries, n - 1, now).value, now);
    }
  }

  // ---- the directories' own metadata ----

  /** Mid-restore: the first `n` of `names` have their metadata, the other directories can still be entered. */
  ghost predicate Restoring(t: Tree, all: set<Path>, names: seq<Path>, n: nat, r: Tree)
    requires ValidTree(t) && n <= |names|
  {
    && all <= t.names.Keys && SameShape(t, all, r)
    && (forall p <- all :: if p in names[..n] then Same(At(r, p), At(t, p)) else Made(At(r, p), At(t, p)))
  }

  /** Longest first, a directory comes before every directory above it. */
  lemma {:induction false} AboveIsLater(names: seq<Path>, dirs: set<Path>, n: nat, k: nat)
    requires LargestFirst(names, dirs, Spelled) && n < |names| && 1 <= k < |names[n]| && ProperPath(names[n])
    ensures names[n][..k] !in names[..n]
  {
    var p := names[n];
    var q := p[..k];
    assert ProperPath(q) && q < p;
    DeeperIsLonger(q, p);
  }

  lemma {:induction false} StillReachable(t: Tree, all: set<Path>, names: seq<Path>, dirs: set<Path>, n: nat, r: Tree)
    requires ValidTree(t) && LargestFirst(names, dirs, Spelled) && n < |names| && Restoring(t, all, names, n, r)
    requires names[n] in t.names && ClosedAbove(t, all, names[n])
    ensures Reachable(r, names[n])
  {
    var p := names[n];
    forall k | 1 <= k < |p| ensures IsDir(r, p[..k]) && At(r, p[..k]).meta.mode & WX_OWNER == WX_OWNER {
      AboveIsLater(names, dirs, n, k);
      assert Made(At(r, p[..k]), At(t, p[..k]));
    }
  }

  /** A directory's metadata is its own. */
  lemma {:induction false} MetaElsewhere(t: Tree, all: set<Path>, r: Tree, p: Path, m: Meta)
    requires ValidTree(t) && all <= t.names.Keys && SameShape(t, all, r) && p in all && At(t, p).kind.Dir?
    ensures var r' := WithMeta(r, p, m);
      && SameShape(t, all, r') && At(r', p) == At(r, p).(meta := m)
      && forall q <- all :: q != p ==> At(r', q) == At(r, q)
  {
    var r' := WithMeta(r, p, m);
    forall q <- all ensures r'.names[q] in r'.inodes && (q != p ==> At(r', q) == At(r, q)) {
      assert r.names[q] == r.names[p] <==> SameFile(t, q, p);
    }
  }

  /** Restoring one directory leaves every other node alone. */
  lemma {:induction false} RestoresOne(t: Tree, all: set<Path>, names: seq<Path>, n: nat, r: Tree, m: Meta)
    requires ValidTree(t) && n < |names| && Restoring(t, all, names, n, r)
    requires names[n] in all && At(t, names[n]).kind.Dir? && names[n] !in names[..n]
    requires SameMeta(m, At(t, names[n]).meta)
    ensures Restoring(t, all, names, n + 1, WithMeta(r, names[n], m))
  {
    var p := names[n];
    var r' := WithMeta(r, p, m);
    assert Made(At(r, p), At(t, p));
    MetaElsewhere(t, all, r, p, m);
    forall q <- all ensures if q in names[..n + 1] then Same(At(r', q), At(t, q)) else Made(At(r', q), At(t, q)) {
      assert q in names[..n + 1] <==> q in names[..n] || q == p;
    }
  }

  lemma {:induction false} DirRestored(m: Meta, src: Inode, p: Path)
    requires src.kind.Dir? && m.xattrs == map[]
    ensures SameMeta(Restored(m, HeaderFor(src, p, None)), src.meta)
  {
    CarriedTwice(src.meta.xattrs);
    var none: map<string, string> := map[];
    assert none + CarriedOf(src.meta.xattrs) == CarriedOf(src.meta.xattrs);
  }

  lemma {:induction false} RestoreNext(t: Tree, dirs: map<Path, Header>, names: seq<Path>, n: nat)
    requires n < |names| && names[n] in dirs && RestoreAll(t, dirs, names, n).Some?
    ensures RestoreAll(t, dirs, names, n + 1) ==
            RestoreMeta(RestoreAll(t, dirs, names, n).value, names[n], dirs[names[n]])
  {
  }

  ghost predicate RestoredWell(t: Tree, all: set<Path>, names: seq<Path>, n: nat, r: Option<Tree>)
    requires ValidTree(t) && n <= |names|
  {
    r.Some? && Restoring(t, all, names, n, r.value)
  }

  lemma {:induction false} RestoreStep(t: Tree, all: set<Path>, s: State, names: seq<Path>, n: nat, r: Tree)
    requires ValidTree(t) && all <= t.names.Keys && DirsOf(t, all, s.dirs)
    requires LargestFirst(names, s.dirs.Keys, Spelled) && n < |names|
    requires Restoring(t, all, names, n, r) && forall p <- all :: ClosedAbove(t, all, p)
    ensures names[n] in s.dirs && RestoredWell(t, all, names, n + 1, RestoreMeta(r, names[n], s.dirs[names[n]]))
  {
    var p := names[n];
    assert p in names;
    StillReachable(t, all, names, s.dirs.Keys, n, r);
    assert p !in names[..n] && Made(At(r, p), At(t, p));
    DirRestored(At(r, p).meta, At(t, p), p);
    RestoresOne(t, all, names, n, r, Restored(At(r, p).meta, s.dirs[p]));
  }

  lemma {:induction false} NothingRestored(t: Tree, all: set<Path>, s: State, names: seq<Path>)
    requires ValidTree(t) && Extracting(t, all, s)
    ensures RestoredWell(t, all, names, 0, RestoreAll(s.tree, s.dirs, names, 0))
  {
    assert RestoreAll(s.tree, s.dirs, names, 0) == Some(s.tree);
    assert Restoring(t, all, names, 0, s.tree);
  }

  /** What restoring the directories' metadata relies on, whichever step it has come to. */
  ghost predicate Restorable(t: Tree, all: set<Path>, s: State, names: seq<Path>)
    requires ValidTree(t)
  {
    && all <= t.names.Keys && DirsOf(t, all, s.dirs) && LargestFirst(names, s.dirs.Keys, Spelled)
    && forall p <- all :: ClosedAbove(t, all, p)
  }

  ghost predicate RestoredTo(t: Tree, all: set<Path>, s: State, names: seq<Path>, n: nat)
    requires ValidTree(t) && n <= |names|
  {
    RestoredWell(t, all, names, n, RestoreAll(s.tree, s.dirs, names, n))
  }

  lemma {:induction false} OneMoreRestored(t: Tree, all: set<Path>, s: State, names: seq<Path>, n: nat, m: nat)
    requires ValidTree(t) && Restorable(t, all, s, names) && m == n + 1 <= |names|
    requires RestoredTo(t, all, s, names, n)
    ensures RestoredTo(t, all, s, names, m)
  {
    var r := RestoreAll(s.tree, s.dirs, names, n);
    RestoreStep(t, all, s, names, n, r.value);
    RestoreNext(s.tree, s.dirs, names, n);
  }

  lemma {:induction false} MoreRestored(t: Tree, all: set<Path>, s: State, names: seq<Path>, n: nat)
    requires ValidTree(t) && Restorable(t, all, s, names) && n <= |names| && RestoredTo(t, all, s, names, 0)
    ensures RestoredTo(t, all, s, names, n)
  {
    if n > 0 {
      var k: nat := n - 1;
      MoreRestored(t, all, s, names, k);
      OneMoreRestored(t, all, s, names, k, n);
    }
  }

  lemma {:induction false} AllRestored(t: Tree, all: set<Path>, s: State, names: seq<Path>)
    requires ValidTree(t) && Extracting(t, all, s) && LargestFirst(names, s.dirs.Keys, Spelled)
    requires forall p <- all :: ClosedAbove(t, all, p)
    ensures RestoredWell(t, all, names, |names|, RestoreAll(s.tree, s.dirs, names, |names|))
  {
    NothingRestored(t, all, s, names);
    MoreRestored(t, all, s, names, |names|);
  }

  // ---- the round trip ----

  /** The node reproduced: a symbolic link keeps target and owner, everything else also mode, attributes and time. */
  ghost predicate Alike(made: Inode, src: Inode) {
    && made.kind == src.kind && made.meta.uid == src.meta.uid && made.meta.gid == src.meta.gid
    && (!src.kind.Symlink? ==>
          && made.meta.mode == src.meta.mode
          && SameAttributes(made.meta.xattrs, src.meta.xattrs) && SameTime(made.meta.mtime, src.meta.mtime))
  }

  lemma {:induction false} SameIsAlike(made: Inode, src: Inode)
    requires Same(made, src)
    ensures Alike(made, src)
  {
    ArchivedTimeIsNear(src.meta.mtime);
  }

  /** `r` is the archived part of `t`: the same paths, the same kind of node with the same contents or target at each,
      the same metadata, and the same hard links between regular files. */
  ghost predicate Reproduces(t: Tree, skip: set<Path>, r: Tree)
    requires ValidTree(t)
  {
    && (forall p :: p in r.names <==> Archived(t, skip, p))
    && (forall p <- r.names :: r.names[p] in r.inodes && Alike(At(r, p), At(t, p)))
    && forall p <- r.names, q <- r.names :: r.names[p] == r.names[q] <==> SameFile(t, p, q)
  }

  lemma {:induction false} AllReproduced(t: Tree, skip: set<Path>, ps: seq<Path>, s: State, names: seq<Path>, r: Tree)
    requires ValidTree(t) && Walk(t, skip, ps) && Extracting(t, Elements(ps), s)
    requires LargestFirst(names, s.dirs.Keys, Spelled)
    requires Restoring(t, Elements(ps), names, |names|, r)
    ensures Reproduces(t, skip, r)
  {
    assert names[..|names|] == names;
    forall p <- r.names ensures r.names[p] in r.inodes && Alike(At(r, p), At(t, p)) {
      assert p in Elements(ps);
      assert p in names <==> At(t, p).kind.Dir?;
      SameIsAlike(At(r, p), At(t, p));
    }
  }

  lemma {:induction false} RestoredReproduces(t: Tree, skip: set<Path>, ps: seq<Path>, s: State, r: Option<Tree>)
    requires ValidTree(t) && Walk(t, skip, ps) && Extracting(t, Elements(ps), s) && DirsRestored(s.tree, s.dirs, r)
    ensures r.Some? && Reproduces(t, skip, r.value)
  {
    forall p <- Elements(ps) ensures ClosedAbove(t, Elements(ps), p) {
      var i :| 0 <= i < |ps| && ps[i] == p;
      WalkIsClosed(t, skip, ps, i, |ps|);
      assert ps[..|ps|] == ps;
    }
    var names :| LargestFirst(names, s.dirs.Keys, Spelled) && r == RestoreAll(s.tree, s.dirs, names, |names|);
    AllRestored(t, Elements(ps), s, names);
    AllReproduced(t, skip, ps, s, names, r.value);
  }

  /** Extraction got through its entries, and restoring the directories' metadata gives the archived part of `t`. */
  ghost predicate Ends(t: Tree, skip: set<Path>, s: Option<State>)
    requires ValidTree(t)
  {
    && s.Some?
    && forall r | DirsRestored(s.value.tree, s.value.dirs, r) :: r.Some? && Reproduces(t, skip, r.value)
  }

  lemma {:induction false} EndsWell(t: Tree, skip: set<Path>, ps: seq<Path>, s: Option<State>)
    requires ValidTree(t) && Walk(t, skip, ps) && MadeWell(t, Elements(ps), s)
    ensures Ends(t, skip, s)
  {
    forall r | DirsRestored(s.value.tree, s.value.dirs, r) ensures r.Some? && Reproduces(t, skip, r.value) {
      RestoredReproduces(t, skip, ps, s.value, r);
    }
  }

  /** Archiving any tree and extracting it into an empty directory reproduces every unskipped node but the sockets. */
  lemma {:induction false} ArchiveRoundTrip(t: Tree, skip: set<Path>, entries: seq<Header>, next: nat, now: int)
    requires ValidTree(t) && IsArchive(t, skip, entries)
    ensures Ends(t, skip, ExtractAll(State(EMPTY, next, map[]), entries, |entries|, now))
  {
    var ps :| Walk(t, skip, ps) && Entries(t, ps, entries);
    AllEntriesMade(t, skip, ps, entries, |ps|, next, now);
    assert ps[..|ps|] == ps;
    EndsWell(t, skip, ps, ExtractAll(State(EMPTY, next, map[]), entries, |entries|, now));
  }

  /** The two operations together. */
  method ArchiveAndExtract(t: Tree, skip: set<Path>, next: nat, now: int) returns (r: Option<Tree>)
    requires ValidTree(t)
    ensures r.Some? && Reproduces(t, skip, r.value)
  {
    var entries := WriteTree(t, skip);
    ArchiveRoundTrip(t, skip, entries, next, now);
    r := Extract.Extract(EMPTY, next, entries, now);
  }
}
