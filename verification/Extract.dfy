/** Extracting tar entries into a directory, and the round trip with archiving. */
module Extract {
  import opened Records
  import opened Paths
  import opened Archive
  import opened Folds

  const RWX_OWNER: bv12 := 0x1C0
  const WX_OWNER: bv12 := 0x0C0
  const PERM: bv12 := 0x1FF
  const SET_ID: bv12 := 0xC00

  /** The first instant of the year 1, which stands for an unset time. */
  const ZERO_TIME: int := -62_135_596_800 * SECOND

  // ---- the file system ----

  predicate IsDir(t: Tree, q: Path) {
    q in t.names && t.names[q] in t.inodes && At(t, q).kind.Dir?
  }

  /** Every directory above the path is there and may be entered and written by its owner. */
  predicate Reachable(t: Tree, p: Path) {
    forall i | 1 <= i < |p| :: IsDir(t, p[..i]) && At(t, p[..i]).meta.mode & WX_OWNER == WX_OWNER
  }

  /** A change of what a directory holds moves the directory's own time. */
  function Touched(t: Tree, p: Path, now: int): map<nat, Inode>
    requires p != []
  {
    var q := Parent(p);
    if IsDir(t, q) then t.inodes[t.names[q] := At(t, q).(meta := At(t, q).meta.(mtime := now))] else t.inodes
  }

  function Grown(t: Tree, p: Path, ino: nat, node: Inode, now: int): Tree
    requires p != []
  {
    Tree(t.names[p := ino], Touched(t, p, now)[ino := node])
  }

  /** Removes a path and everything below it. */
  function Removed(t: Tree, p: Path, now: int): Tree
    requires p != []
  {
    if p in t.names then Tree(map q | q in t.names && !(p <= q) :: t.names[q], Touched(t, p, now)) else t
  }

  /** Changing a file's owner clears its set-id bits. */
  function Chown(m: Meta, uid: int, gid: int): Meta {
    m.(uid := uid, gid := gid, mode := m.mode & !SET_ID)
  }

  function Chmod(m: Meta, mode: bv12): Meta {
    m.(mode := mode)
  }

  /** Ownership, then mode, then times, then attributes. */
  function Restored(m: Meta, h: Header): Meta {
    var owned := Chown(m, h.uid, h.gid);
    var moded := Chmod(owned, h.mode);
    var timed := if h.mtime == ZERO_TIME then moded else moded.(mtime := h.mtime);
    timed.(xattrs := timed.xattrs + CarriedOf(h.xattrs))
  }

  function WithMeta(t: Tree, p: Path, m: Meta): Tree
    requires p in t.names && t.names[p] in t.inodes
  {
    t.(inodes := t.inodes[t.names[p] := At(t, p).(meta := m)])
  }

  function RestoreMeta(t: Tree, p: Path, h: Header): Option<Tree> {
    if !Reachable(t, p) || p !in t.names || t.names[p] !in t.inodes then None
    else Some(WithMeta(t, p, Restored(At(t, p).meta, h)))
  }

  // ---- entries ----

  datatype State = State(tree: Tree, next: nat, dirs: map<Path, Header>)

  function KindOf(b: Body): Kind
    requires !b.TypeLink?
  {
    match b
    case TypeReg(contents) => Regular(contents)
    case TypeDir => Dir
    case TypeSymlink(target) => Symlink(target)
    case TypeFifo => Fifo
    case TypeChar(major, minor) => Char(major, minor)
    case TypeBlock(major, minor) => Block(major, minor)
  }

  /** A node as it is first made: owned by the extracting process, without attributes. */
  function NewNode(b: Body, mode: bv12, now: int): Inode
    requires !b.TypeLink?
  {
    Inode(KindOf(b), Meta(0, 0, mode, now, map[]), 1)
  }

  function Create(s: State, p: Path, b: Body, mode: bv12, now: int): Option<State>
    requires p != [] && !b.TypeLink?
  {
    if !Reachable(s.tree, p) || p in s.tree.names then None
    else Some(s.(tree := Grown(s.tree, p, s.next, NewNode(b, mode, now), now), next := s.next + 1))
  }

  /** A directory that is there already is kept; either way its metadata waits. */
  function MakeDir(s: State, h: Header, p: Path, now: int): Option<State>
    requires p != []
  {
    var made := if p in s.tree.names then Some(s) else Create(s, p, TypeDir, (h.mode & PERM) | RWX_OWNER, now);
    if made.None? then None else Some(made.value.(dirs := s.dirs[p := h]))
  }

  /** Only the owner applies to a symbolic link itself. */
  function MakeSymlink(s: State, h: Header, p: Path, now: int): Option<State>
    requires p != [] && !h.body.TypeLink?
  {
    var made := Create(s, p, h.body, h.mode & PERM, now);
    if made.None? then None
    else
      var tree := made.value.tree;
      Some(made.value.(tree := WithMeta(tree, p, Chown(At(tree, p).meta, h.uid, h.gid))))
  }

  function MakeFile(s: State, h: Header, p: Path, now: int): Option<State>
    requires p != [] && !h.body.TypeLink?
  {
    MakeWith(s, h, p, h.mode & PERM, now)
  }

  /** Made with the permissions given, then given the metadata of the header. */
  function MakeWith(s: State, h: Header, p: Path, mode: bv12, now: int): Option<State>
    requires p != [] && !h.body.TypeLink?
  {
    var made := Create(s, p, h.body, mode, now);
    if made.None? then None
    else
      var r := RestoreMeta(made.value.tree, p, h);
      if r.None? then None else Some(made.value.(tree := r.value))
  }

  /** One more name for the target's inode. */
  function Joined(t: Tree, p: Path, target: Path, now: int): Tree
    requires p != [] && target in t.names && t.names[target] in t.inodes
  {
    Grown(t, p, t.names[target], At(t, target).(nlink := At(t, target).nlink + 1), now)
  }

  function MakeLink(s: State, linkname: string, p: Path, now: int): Option<State>
    requires p != []
  {
    var target := CleanTarName(linkname);
    if !target.Local? || !Reachable(s.tree, p) || !Reachable(s.tree, target.path) then None
    else if target.path !in s.tree.names || s.tree.names[target.path] !in s.tree.inodes then None
    else if IsDir(s.tree, target.path) then None
    else Some(s.(tree := Joined(s.tree, p, target.path, now)))
  }

  function ExtractEntry(s: State, h: Header, p: Path, now: int): Option<State>
    requires p != []
  {
    var cleared := s.(tree := Removed(s.tree, p, now));
    match h.body
    case TypeDir => MakeDir(s, h, p, now)
    case TypeSymlink(_) => MakeSymlink(cleared, h, p, now)
    case TypeLink(linkname) => MakeLink(cleared, linkname, p, now)
    case _ => MakeFile(cleared, h, p, now)
  }

  /** One archive entry: names that say nothing are skipped, names that lead outside are refused. */
  function ExtractNamed(s: State, h: Header, now: int): Option<State> {
    match CleanTarName(h.name)
    case Skip => Some(s)
    case Refused => None
    case Local(p) => if p == [] then None else ExtractEntry(s, h, p, now)
  }

  /** The first `n` entries. */
  function ExtractAll(s: State, entries: seq<Header>, n: nat, now: int): Option<State>
    requires n <= |entries|
  {
    Fold((st, h) => ExtractNamed(st, h, now), s, entries, n)
  }

  /** The metadata of the first `n` directories. */
  function RestoreAll(t: Tree, dirs: map<Path, Header>, names: seq<Path>, n: nat): Option<Tree>
    requires n <= |names|
  {
    Fold((r, p) => if p in dirs then RestoreMeta(r, p, dirs[p]) else None, t, names, n)
  }

  /** Ownership goes first because changing it afterwards would lose the set-id bits just restored. */
  lemma {:induction false} OwnerLastLosesSetId(m: Meta, uid: int, gid: int, mode: bv12)
    requires mode & SET_ID != 0
    ensures Chown(Chmod(m, mode), uid, gid).mode != mode
  {
    ClearingChanges(mode);
  }

  lemma {:induction false} ClearingChanges(mode: bv12)
    requires mode & SET_ID != 0
    ensures mode & !SET_ID != mode
  {
  }

  lemma {:induction false} RemovedReaches(t: Tree, p: Path, now: int)
    requires p != [] && Reachable(t, p)
    ensures var r := Removed(t, p, now);
      && Reachable(r, p) && p !in r.names && r.inodes.Keys == t.inodes.Keys
      && (forall q <- r.names :: q in t.names && r.names[q] == t.names[q])
      && (forall q <- t.names | !(p <= q) :: q in r.names)
      && (p in t.names ==> forall q <- r.names :: !(p <= q))
  {
    var r := Removed(t, p, now);
    forall i | 1 <= i < |p| ensures IsDir(r, p[..i]) && At(r, p[..i]).meta.mode & WX_OWNER == WX_OWNER {
      assert IsDir(t, p[..i]) && !(p <= p[..i]);
    }
  }

  /** The node is made as asked, and its metadata can be restored. */
  lemma {:induction false} CreatedReaches(s: State, p: Path, b: Body, mode: bv12, now: int, h: Header)
    requires p != [] && !b.TypeLink? && Reachable(s.tree, p) && p !in s.tree.names && s.next !in s.tree.inodes
    ensures var r := Create(s, p, b, mode, now);
      && r.Some? && r.value.tree.names == s.tree.names[p := s.next]
      && s.next in r.value.tree.inodes && At(r.value.tree, p).kind == KindOf(b)
      && RestoreMeta(r.value.tree, p, h) ==
         Some(WithMeta(r.value.tree, p, Restored(At(r.value.tree, p).meta, h)))
  {
    var r := Create(s, p, b, mode, now).value.tree;
    forall i | 1 <= i < |p| ensures IsDir(r, p[..i]) && At(r, p[..i]).meta.mode & WX_OWNER == WX_OWNER {
      assert IsDir(s.tree, p[..i]) && p[..i] != p;
    }
  }

  /** The state holds a node of the kind at `p`, and otherwise the names it had. */
  ghost predicate HasNew(r: Option<State>, names: map<Path, nat>, p: Path, ino: nat, kind: Kind) {
    && r.Some? && r.value.tree.names == names[p := ino] && ino in r.value.tree.inodes
    && r.value.tree.inodes[ino].kind == kind
  }

  lemma {:induction false} MetaKeepsKind(t: Tree, p: Path, m: Meta)
    requires p in t.names && t.names[p] in t.inodes
    ensures var r := WithMeta(t, p, m);
      r.names == t.names && t.names[p] in r.inodes && r.inodes[t.names[p]].kind == At(t, p).kind
  {
  }

  lemma {:induction false} SymlinkCreated(s: State, h: Header, p: Path, now: int)
    requires p != [] && !h.body.TypeLink? && Reachable(s.tree, p) && p !in s.tree.names && s.next !in s.tree.inodes
    ensures HasNew(MakeSymlink(s, h, p, now), s.tree.names, p, s.next, KindOf(h.body))
  {
    CreatedReaches(s, p, h.body, h.mode & PERM, now, h);
    var t := Create(s, p, h.body, h.mode & PERM, now).value.tree;
    MetaKeepsKind(t, p, Chown(At(t, p).meta, h.uid, h.gid));
  }

  lemma {:induction false} CreatedWith(s: State, h: Header, p: Path, mode: bv12, now: int)
    requires p != [] && !h.body.TypeLink? && Reachable(s.tree, p) && p !in s.tree.names && s.next !in s.tree.inodes
    ensures HasNew(MakeWith(s, h, p, mode, now), s.tree.names, p, s.next, KindOf(h.body))
  {
    CreatedReaches(s, p, h.body, mode, now, h);
    var t := Create(s, p, h.body, mode, now).value.tree;
    MetaKeepsKind(t, p, Restored(At(t, p).meta, h));
  }

  lemma {:induction false} FileCreated(s: State, h: Header, p: Path, now: int)
    requires p != [] && !h.body.TypeLink? && Reachable(s.tree, p) && p !in s.tree.names && s.next !in s.tree.inodes
    ensures HasNew(MakeFile(s, h, p, now), s.tree.names, p, s.next, KindOf(h.body))
  {
    CreatedWith(s, h, p, h.mode & PERM, now);
  }

  /** Where its directories are there and open, extracting a file succeeds: it replaces whatever was at its path, with
      all below it, and leaves every other name alone. */
  lemma {:induction false} FileReplaces(s: State, h: Header, p: Path, now: int)
    requires p != [] && !h.body.TypeDir? && !h.body.TypeLink? && Reachable(s.tree, p) && s.next !in s.tree.inodes
    ensures var r := ExtractEntry(s, h, p, now);
      && r.Some? && p in r.value.tree.names && r.value.tree.names[p] in r.value.tree.inodes
      && var t := r.value.tree;
         && At(t, p).kind == KindOf(h.body)
         && (forall q <- t.names | q != p :: q in s.tree.names && t.names[q] == s.tree.names[q])
         && (p in s.tree.names ==> forall q <- t.names :: q == p || !(p <= q))
         && (forall q <- s.tree.names | !(p <= q) :: q in t.names)
  {
    RemovedReaches(s.tree, p, now);
    var cleared := s.(tree := Removed(s.tree, p, now));
    if h.body.TypeSymlink? {
      SymlinkCreated(cleared, h, p, now);
    } else {
      FileCreated(cleared, h, p, now);
    }
  }

  /** A hard link is refused when its target leads outside, is missing, or is a directory. */
  lemma {:induction false} LinkRefused(s: State, linkname: string, p: Path, now: int)
    requires p != [] && MakeLink(s, linkname, p, now).Some?
    ensures var target := CleanTarName(linkname);
      && target.Local? && target.path in s.tree.names && s.tree.names[target.path] in s.tree.inodes
      && !At(s.tree, target.path).kind.Dir?
      && MakeLink(s, linkname, p, now).value.tree.names == s.tree.names[p := s.tree.names[target.path]]
  {
  }

  // ---- extraction ----

  /** Every path once, none before a larger one. */
  ghost predicate LargestFirst(names: seq<Path>, paths: set<Path>, size: Path -> nat) {
    && (forall p :: p in names <==> p in paths)
    && forall i, j | 0 <= i < j < |names| :: names[i] != names[j] && size(names[i]) >= size(names[j])
  }

  lemma {:induction false} LargestExists(paths: set<Path>, size: Path -> nat) returns (p: Path)
    requires paths != {}
    ensures p in paths && forall q <- paths :: size(q) <= size(p)
    decreases |paths|
  {
    p :| p in paths;
    var rest := paths - {p};
    if rest != {} {
      var q := LargestExists(rest, size);
      if size(q) > size(p) {
        p := q;
      }
    }
  }

  method SortLargestFirst(paths: set<Path>, size: Path -> nat) returns (names: seq<Path>)
    ensures LargestFirst(names, paths, size)
  {
    names := [];
    var left := paths;
    while left != {}
      invariant forall p :: p in paths <==> p in names || p in left
      invariant forall i, j | 0 <= i < j < |names| :: names[i] != names[j] && size(names[i]) >= size(names[j])
      invariant forall p <- names, q <- left :: p != q && size(p) >= size(q)
      decreases |left|
    {
      ghost var largest := LargestExists(left, size);
      var p :| p in left && forall q <- left :: size(q) <= size(p);
      names := names + [p];
      left := left - {p};
    }
  }

  /** How long a path is when spelled out. */
  function Spelled(p: Path): nat {
    |Render(p)|
  }

  method RestoreEach(t: Tree, dirs: map<Path, Header>, names: seq<Path>) returns (r: Option<Tree>)
    requires forall p <- names :: p in dirs
    ensures r == RestoreAll(t, dirs, names, |names|)
  {
    r := Some(t);
    ghost var step := (u, p) => if p in dirs then RestoreMeta(u, p, dirs[p]) else None;
    for i := 0 to |names|
      invariant r.Some? && r == Fold(step, t, names, i)
    {
      r := RestoreMeta(r.value, names[i], dirs[names[i]]);
      if r.None? {
        FoldStops(step, t, names, i + 1, |names|);
        return;
      }
    }
  }

  /** The directories' metadata restored, longest name first. */
  ghost predicate DirsRestored(t: Tree, dirs: map<Path, Header>, r: Option<Tree>) {
    exists names :: LargestFirst(names, dirs.Keys, Spelled) && r == RestoreAll(t, dirs, names, |names|)
  }

  method RestoreDirMeta(t: Tree, dirs: map<Path, Header>) returns (r: Option<Tree>)
    ensures DirsRestored(t, dirs, r)
  {
    var sorted := SortLargestFirst(dirs.Keys, Spelled);
    r := RestoreEach(t, dirs, sorted);
  }

  /** Entry by entry, and then the directories' own metadata once everything in them exists. */
  method Extract(dst: Tree, next: nat, entries: seq<Header>, now: int) returns (r: Option<Tree>)
    ensures var s := ExtractAll(State(dst, next, map[]), entries, |entries|, now);
      if s.None? then r.None? else DirsRestored(s.value.tree, s.value.dirs, r)
  {
    var start := State(dst, next, map[]);
    var s := start;
    ghost var step := (st, h) => ExtractNamed(st, h, now);
    for i := 0 to |entries|
      invariant Fold(step, start, entries, i) == Some(s)
    {
      var made := ExtractNamed(s, entries[i], now);
      if made.None? {
        FoldStops(step, start, entries, i + 1, |entries|);
        return None;
      }
      s := made.value;
    }
    r := RestoreDirMeta(s.tree, s.dirs);
  }
}
