/** Collecting the footprint of dead sessions: their table entries and their snapshots. */
module Gc {
  import opened Bytes
  import opened Records
  import opened Keys
  import opened Bucket
  import opened Collections
  import opened Mutations

  const SANDBOXES := "sandboxes/"

  // ---- directories ----

  function FirstSlash(k: string, from: nat): (i: nat)
    requires from <= |k|
    ensures from <= i <= |k| && (i < |k| ==> k[i] == '/')
    ensures forall j | from <= j < i :: k[j] != '/'
    decreases |k| - from
  {
    if from == |k| || k[from] == '/' then from else FirstSlash(k, from + 1)
  }

  /** The session directory a delimited listing groups a key into. */
  function DirOf(k: string): Option<string> {
    if !(SANDBOXES <= k) then None
    else
      var i := FirstSlash(k, |SANDBOXES|);
      if i == |k| then None else Some(k[..i + 1])
  }

  function Dirs(objects: map<string, seq<byte>>): set<string> {
    set k | k in objects && DirOf(k).Some? :: DirOf(k).value
  }

  /** The directory of a snapshot URI. */
  function SnapDir(uri: string): (d: string)
    ensures d != ""
  {
    var u := TrimSlash(uri);
    if |Name(u)| < |u| then u[..|u| - |Name(u)|] else u + "/"
  }

  function SessionDir(sid: Sid): string {
    SANDBOXES + sid + "/"
  }

  lemma {:induction false} DirOfSession(sid: Sid, k: string)
    requires '/' !in sid && SessionDir(sid) <= k
    ensures DirOf(k) == Some(SessionDir(sid))
  {
    var i, n := FirstSlash(k, |SANDBOXES|), |SANDBOXES + sid|;
    assert k[n] == '/';
    if i < n {
      NoSlashInside(SANDBOXES, sid, k, i);
    }
    assert SANDBOXES <= k by {
      assert k[..|SANDBOXES|] == SessionDir(sid)[..|SANDBOXES|];
    }
    assert k[..n + 1] == SessionDir(sid);
  }

  /** A listed directory is some session's, and holds exactly the keys grouped into it. */
  lemma {:induction false} DirHolds(k: string, other: string)
    requires DirOf(k).Some?
    ensures DirOf(k).value <= other <==> DirOf(other) == DirOf(k)
  {
    var d := DirOf(k).value;
    var sid := d[|SANDBOXES|..|d| - 1];
    assert d == SessionDir(sid) && '/' !in sid;
    if d <= other {
      DirOfSession(sid, other);
    }
  }

  lemma {:induction false} SnapDirOfSession(sid: Sid, name: string)
    requires '/' !in name && name != ""
    ensures SnapDir("sandboxes/" + sid + "/" + name) == SessionDir(sid) == "sandboxes/" + sid + "/"
  {
    var uri := SANDBOXES + sid + "/" + name;
    NameAfterSlash(SANDBOXES + sid, name);
    assert uri[|uri| - 1] == name[|name| - 1];
    assert TrimSlash(uri) == uri && uri[..|uri| - |name|] == SessionDir(sid);
  }

  /** A trailing slash makes no difference to a snapshot's directory. */
  lemma {:induction false} SnapDirTrims(uri: string)
    requires uri == "" || uri[|uri| - 1] != '/'
    ensures SnapDir(uri + "/") == SnapDir(uri)
  {
    TrimsOneSlash(uri);
  }

  // ---- classification ----

  datatype Config = Config(ttlFor: map<Sid, int>, defaultTTL: int, abandonedGrace: int, dryRun: bool)

  predicate TtlExpired(c: Config, e: SessionEntry, now: int) {
    var own := if e.sid in c.ttlFor then c.ttlFor[e.sid] else 0;
    var ttl := if own <= 0 then c.defaultTTL else own;
    var ref := if e.lastCheckpointAt == 0 then e.lastActiveAt else e.lastCheckpointAt;
    ttl > 0 && ref != 0 && now - ref >= ttl * 1000
  }

  predicate Abandoned(c: Config, workers: map<Pod, WorkerEntry>, e: SessionEntry, now: int) {
    && c.abandonedGrace > 0
    && !WorkerHolds(workers, e.workerPod, e.sid)
    && e.lastActiveAt != 0
    && now - e.lastActiveAt >= c.abandonedGrace * 1000
  }

  // ---- what the classification must come to ----

  /** The worker the session records is busy with this very session. */
  ghost predicate HeldByWorker(workers: map<Pod, WorkerEntry>, e: SessionEntry) {
    && e.workerPod != "" && e.workerPod in workers
    && workers[e.workerPod].state.Busy? && workers[e.workerPod].sid == e.sid
  }

  /** A session that is not Suspended, that no worker holds, idle for the abandoned grace. */
  ghost predicate LeftBehind(c: Config, workers: map<Pod, WorkerEntry>, now: int, e: SessionEntry) {
    && !e.state.Suspended? && !HeldByWorker(workers, e)
    && c.abandonedGrace > 0 && e.lastActiveAt != 0 && now - e.lastActiveAt >= c.abandonedGrace * 1000
  }

  /** A Suspended session with a snapshot whose retention has passed since its last checkpoint, or since its last
      activity when none was recorded. */
  ghost predicate PastRetention(c: Config, now: int, e: SessionEntry) {
    && e.state.Suspended? && e.snapshotURI != "" && TtlOf(c, e.sid) > 0
    && (e.lastCheckpointAt != 0 ==> now - e.lastCheckpointAt >= TtlOf(c, e.sid) * 1000)
    && (e.lastCheckpointAt == 0 ==> e.lastActiveAt != 0 && now - e.lastActiveAt >= TtlOf(c, e.sid) * 1000)
  }

  /** A session's own retention, when positive, else the default. */
  function TtlOf(c: Config, sid: Sid): int {
    if sid in c.ttlFor && c.ttlFor[sid] > 0 then c.ttlFor[sid] else c.defaultTTL
  }

  datatype Verdict = Expired | Zombie | Kept

  function Judge(c: Config, workers: map<Pod, WorkerEntry>, now: int, e: SessionEntry): Verdict {
    if e.state.Suspended? && e.snapshotURI != "" then (if TtlExpired(c, e, now) then Expired else Kept)
    else if !e.state.Suspended? && Abandoned(c, workers, e, now) then Zombie
    else Kept
  }

  /** Expired is past its retention, Zombie is left behind, and everything else is kept. */
  lemma {:induction false} JudgedRightly(c: Config, workers: map<Pod, WorkerEntry>, now: int, e: SessionEntry)
    ensures Judge(c, workers, now, e) == Expired <==> PastRetention(c, now, e)
    ensures Judge(c, workers, now, e) == Zombie <==> LeftBehind(c, workers, now, e)
  {
  }

  /** The sessions of a sweep and how each is judged. */
  datatype Judged = Judged(e: SessionEntry, verdict: Verdict)

  predicate HasDir(j: Judged) {
    !j.verdict.Zombie? && j.e.snapshotURI != ""
  }

  function JudgeAll(c: Config, workers: map<Pod, WorkerEntry>, now: int, listed: seq<SessionEntry>): seq<Judged> {
    seq(|listed|, i requires 0 <= i < |listed| => Judged(listed[i], Judge(c, workers, now, listed[i])))
  }

  /** Directories the orphan pass must leave alone: kept, or already dealt with. */
  function Accounted(all: seq<Judged>): set<string> {
    set j | j in all && HasDir(j) :: SnapDir(j.e.snapshotURI)
  }

  function ExpiredDirs(all: seq<Judged>): set<string> {
    set j | j in all && j.verdict.Expired? :: SnapDir(j.e.snapshotURI)
  }

  function ReapedSids(all: seq<Judged>): set<Sid> {
    set j | j in all && !j.verdict.Kept? :: j.e.sid
  }

  function CountOf(all: seq<Judged>, v: Verdict): nat {
    if all == [] then 0 else CountOf(all[..|all| - 1], v) + if all[|all| - 1].verdict == v then 1 else 0
  }

  // ---- what a sweep leaves ----

  ghost predicate UnderAny(dirs: set<string>, k: string) {
    exists d <- dirs :: d <= k
  }

  function Orphans(objects: map<string, seq<byte>>, accounted: set<string>): set<string> {
    Dirs(objects) - accounted
  }

  ghost function Without(objects: map<string, seq<byte>>, dirs: set<string>): map<string, seq<byte>> {
    map k | k in objects && !UnderAny(dirs, k) :: objects[k]
  }

  /** An object goes when it lies in an expired session's directory, or in a directory no session accounts for. */
  ghost predicate Doomed(all: seq<Judged>, k: string) {
    UnderAny(ExpiredDirs(all), k) || (DirOf(k).Some? && DirOf(k).value !in Accounted(all))
  }

  lemma {:induction false} WithoutMore(objects: map<string, seq<byte>>, dirs: set<string>, d: string)
    ensures var once := Without(objects, dirs); once - Matching(once, d) == Without(objects, dirs + {d})
  {
    var once := Without(objects, dirs);
    forall k | k in objects ensures k in once - Matching(once, d) <==> k in Without(objects, dirs + {d}) {
      assert UnderAny(dirs + {d}, k) <==> UnderAny(dirs, k) || d <= k by {
        if UnderAny(dirs, k) {
          var x :| x in dirs && x <= k;
          assert x in dirs + {d};
        }
      }
    }
  }

  class Collector {
    const bucket: Bucket
    var sessions: map<Sid, SessionEntry>

    constructor (bucket: Bucket, sessions: map<Sid, SessionEntry>)
      ensures this.bucket == bucket && this.sessions == sessions
    {
      this.bucket, this.sessions := bucket, sessions;
    }

    /** One session reaped: its snapshot directory first, then its entry. When the directory cannot be emptied the entry
        stays, so that the next sweep takes up the pair again. */
    method ReapSession(c: Config, e: SessionEntry, dir: string, entryFails: bool)
      requires bucket.pageSize >= 1
      modifies this, bucket
      ensures c.dryRun ==> bucket.objects == old(bucket.objects) && sessions == old(sessions)
      ensures Shrunk(old(bucket.objects), bucket.objects, if dir == "" then {} else Matching(old(bucket.objects), dir))
      ensures sessions == old(sessions) ||
              (sessions == old(sessions) - {e.sid} && (dir != "" ==> Empty(bucket.objects, dir)))
      ensures old(bucket.faults) == [] ==> bucket.faults == []
      ensures old(bucket.faults) == [] && !entryFails && !c.dryRun ==>
        && sessions == old(sessions) - {e.sid}
        && bucket.objects ==
           if dir == "" then old(bucket.objects) else old(bucket.objects) - Matching(old(bucket.objects), dir)
    {
      if c.dryRun {
        return;
      }
      if dir != "" {
        var ok := bucket.DeletePrefix(dir);
        if !ok {
          return;
        }
      }
      if !entryFails {
        sessions := sessions - {e.sid};
      }
    }

    /** The session directories, page by page. */
    method ListDirs() returns (ok: bool, dirs: seq<string>)
      requires bucket.pageSize >= 1
      modifies bucket`faults
      ensures ok ==> ListsAll(Dirs(bucket.objects), dirs)
      ensures old(bucket.faults) == [] ==> ok && bucket.faults == []
    {
      dirs := [];
      var all := Dirs(bucket.objects);
      var token: Option<string> := None;
      while true
        invariant ListedTo(all, dirs, token)
        invariant old(bucket.faults) == [] ==> bucket.faults == []
        decreases |Pending(all, token)|
      {
        ok := bucket.Call();
        if !ok {
          return;
        }
        var page, truncated := TakePage(Pending(all, token), bucket.pageSize);
        Listed(all, dirs, token, page, truncated);
        dirs := dirs + page;
        if !truncated {
          return;
        }
        PendingShrinks(all, token, page);
        token := Some(page[|page| - 1]);
      }
    }

    /** One listed session: judged, and reaped if it is expired or abandoned. */
    method ReapOne(c: Config, workers: map<Pod, WorkerEntry>, now: int, e: SessionEntry, entryFails: bool)
      returns (verdict: Verdict)
      requires bucket.pageSize >= 1
      modifies this, bucket
      ensures verdict == Judge(c, workers, now, e)
      ensures c.dryRun ==> bucket.objects == old(bucket.objects) && sessions == old(sessions)
      ensures Taken(Judged(e, verdict), old(bucket.objects), bucket.objects, old(sessions), sessions)
      ensures old(bucket.faults) == [] ==> bucket.faults == []
      ensures old(bucket.faults) == [] && !entryFails && !c.dryRun ==>
        && sessions == (if verdict.Kept? then old(sessions) else old(sessions) - {e.sid})
        && bucket.objects == if !verdict.Expired? then old(bucket.objects)
                             else old(bucket.objects) - Matching(old(bucket.objects), SnapDir(e.snapshotURI))
    {
      if e.state.Suspended? && e.snapshotURI != "" {
        if TtlExpired(c, e, now) {
          ReapSession(c, e, SnapDir(e.snapshotURI), entryFails);
          return Expired;
        }
        return Kept;
      }
      if !e.state.Suspended? && Abandoned(c, workers, e, now) {
        ReapSession(c, e, "", entryFails);
        return Zombie;
      }
      return Kept;
    }

    /** The session pass: expired and abandoned sessions go, and the directories of all others are accounted for. */
    method ReapListed(c: Config, workers: map<Pod, WorkerEntry>, now: int, listed: seq<SessionEntry>,
                      entryFails: set<Sid>)
      returns (accounted: set<string>, ttl: nat, abandoned: nat)
      requires bucket.pageSize >= 1
      modifies this, bucket
      ensures var all := JudgeAll(c, workers, now, listed);
        && accounted == Accounted(all) && ttl == CountOf(all, Expired) && abandoned == CountOf(all, Zombie)
        && ReapedWell(all, old(bucket.objects), bucket.objects, old(sessions), sessions)
        && (c.dryRun ==> bucket.objects == old(bucket.objects) && sessions == old(sessions))
        && (old(bucket.faults) == [] && entryFails == {} ==>
              && bucket.faults == []
              && bucket.objects == Reaped(c, old(bucket.objects), all) && sessions == Remaining(c, old(sessions), all))
    {
      accounted, ttl, abandoned := {}, 0, 0;
      ghost var all := JudgeAll(c, workers, now, listed);
      assert Without(bucket.objects, {}) == bucket.objects;
      for i := 0 to |listed|
        invariant Tallied(all[..i], accounted, ttl, abandoned)
        invariant ReapedWell(all[..i], old(bucket.objects), bucket.objects, old(sessions), sessions)
        invariant c.dryRun ==> bucket.objects == old(bucket.objects) && sessions == old(sessions)
        invariant old(bucket.faults) == [] ==> bucket.faults == []
        invariant old(bucket.faults) == [] && entryFails == {} ==>
          && bucket.objects == Reaped(c, old(bucket.objects), all[..i])
          && sessions == Remaining(c, old(sessions), all[..i])
      {
        var e := listed[i];
        ghost var objects, entries := bucket.objects, sessions;
        TalliedNext(all, i, accounted, ttl, abandoned);
        ReapedNext(c, old(bucket.objects), all, i);
        RemainingNext(c, old(sessions), all, i);
        var verdict := ReapOne(c, workers, now, e, e.sid in entryFails);
        StillReapedWell(all, i, old(bucket.objects), objects, bucket.objects, old(sessions), entries, sessions);
        match verdict {
          case Expired => ttl := ttl + 1;
          case Zombie => abandoned := abandoned + 1;
          case Kept =>
        }
        if !verdict.Zombie? && e.snapshotURI != "" {
          accounted := accounted + {SnapDir(e.snapshotURI)};
        }
      }
      assert all[..|listed|] == all;
    }

    /** The orphan pass: every unaccounted session directory goes. */
    method ReapOrphans(c: Config, accounted: set<string>) returns (ok: bool, orphans: nat)
      requires bucket.pageSize >= 1
      modifies bucket
      ensures c.dryRun ==> bucket.objects == old(bucket.objects)
      ensures OnlyOrphansGone(old(bucket.objects), bucket.objects, accounted)
      ensures old(bucket.faults) == [] ==>
        && ok && orphans == |Orphans(old(bucket.objects), accounted)|
        && bucket.objects == Cleared(c, old(bucket.objects), Orphans(old(bucket.objects), accounted))
    {
      orphans := 0;
      ghost var before := bucket.objects;
      var dirs;
      ok, dirs := ListDirs();
      if !ok {
        return;
      }
      assert Without(before, {}) == before;
      for i := 0 to |dirs|
        invariant c.dryRun ==> bucket.objects == before
        invariant OnlyOrphansGone(before, bucket.objects, accounted)
        invariant old(bucket.faults) == [] ==>
          && bucket.faults == [] && orphans == |Elements(dirs[..i]) - accounted|
          && bucket.objects == Cleared(c, before, Elements(dirs[..i]) - accounted)
      {
        ElementsNext(dirs, i, accounted);
        if dirs[i] in accounted {
          continue;
        }
        if c.dryRun {
          orphans := orphans + 1;
          continue;
        }
        ghost var objects := bucket.objects;
        WithoutMore(before, Elements(dirs[..i]) - accounted, dirs[i]);
        var gone := bucket.DeletePrefix(dirs[i]);
        assert dirs[i] in dirs;
        OrphanGone(before, objects, bucket.objects, dirs[i], accounted);
        if gone {
          orphans := orphans + 1;
        }
      }
      assert dirs[..|dirs|] == dirs;
      assert Elements(dirs) == Dirs(before);
    }

    /** A dry run changes nothing. An armed sweep deletes only doomed objects and reaped entries, and an expired
        session's entry only once its directory is empty, whatever calls fail; when none fails, it deletes them all. */
    method SweepOnce(c: Config, workers: map<Pod, WorkerEntry>, now: int, listed: seq<SessionEntry>,
                     entryFails: set<Sid>)
      returns (ok: bool, ttl: nat, abandoned: nat, orphans: nat)
      requires bucket.pageSize >= 1
      modifies this, bucket
      ensures var all := JudgeAll(c, workers, now, listed);
        && ttl == CountOf(all, Expired) && abandoned == CountOf(all, Zombie)
        && (c.dryRun ==> bucket.objects == old(bucket.objects) && sessions == old(sessions))
        && OnlyDoomedGone(all, old(bucket.objects), bucket.objects)
        && EntriesGone(all, bucket.objects, old(sessions), sessions)
        && EntriesRight(c, workers, now, listed, old(sessions), sessions, old(bucket.faults) == [] && entryFails == {})
        && (old(bucket.faults) == [] && entryFails == {} ==>
              ok && orphans == OrphanCount(c.dryRun, old(bucket.objects), all))
        && (old(bucket.faults) == [] && entryFails == {} && !c.dryRun ==>
              sessions == old(sessions) - ReapedSids(all) && bucket.objects == Spared(old(bucket.objects), all))
    {
      var accounted: set<string>;
      ghost var all := JudgeAll(c, workers, now, listed);
      accounted, ttl, abandoned := ReapListed(c, workers, now, listed, entryFails);
      ghost var objects := bucket.objects;
      ok, orphans := ReapOrphans(c, accounted);
      SparedInTwoPasses(old(bucket.objects), all);
      SweptSafely(all, old(bucket.objects), objects, bucket.objects, old(sessions), sessions);
      GoneRightly(c, workers, now, listed, bucket.objects, old(sessions), sessions);
    }
  }

  // ---- which entries go ----

  /** An entry goes only when a listed entry of the session is left behind or past its retention, and in a sweep that
      deletes and meets no error it goes exactly then. */
  ghost predicate EntriesRight(c: Config, workers: map<Pod, WorkerEntry>, now: int, listed: seq<SessionEntry>,
                               entries: map<Sid, SessionEntry>, left: map<Sid, SessionEntry>, exact: bool) {
    && (forall sid <- entries | sid !in left ::
          exists e <- listed :: e.sid == sid && (LeftBehind(c, workers, now, e) || PastRetention(c, now, e)))
    && (exact && !c.dryRun ==>
          forall e <- listed | LeftBehind(c, workers, now, e) || PastRetention(c, now, e) :: e.sid !in left)
  }

  lemma {:induction false} ReapedWhy(c: Config, workers: map<Pod, WorkerEntry>, now: int, listed: seq<SessionEntry>,
                                     j: Judged)
    requires j in JudgeAll(c, workers, now, listed) && !j.verdict.Kept?
    ensures j.e in listed && (LeftBehind(c, workers, now, j.e) || PastRetention(c, now, j.e))
  {
    var all := JudgeAll(c, workers, now, listed);
    var i :| 0 <= i < |all| && all[i] == j;
    JudgedRightly(c, workers, now, listed[i]);
  }

  lemma {:induction false} ReapedIfDue(c: Config, workers: map<Pod, WorkerEntry>, now: int, listed: seq<SessionEntry>,
                                       e: SessionEntry)
    requires e in listed && (LeftBehind(c, workers, now, e) || PastRetention(c, now, e))
    ensures e.sid in ReapedSids(JudgeAll(c, workers, now, listed))
  {
    var all := JudgeAll(c, workers, now, listed);
    var i :| 0 <= i < |listed| && listed[i] == e;
    JudgedRightly(c, workers, now, e);
    assert all[i] in all && all[i].e.sid == e.sid;
  }

  lemma {:induction false} GoneRightly(c: Config, workers: map<Pod, WorkerEntry>, now: int, listed: seq<SessionEntry>,
                                       objects: map<string, seq<byte>>, entries: map<Sid, SessionEntry>,
                                       left: map<Sid, SessionEntry>)
    requires EntriesGone(JudgeAll(c, workers, now, listed), objects, entries, left)
    ensures EntriesRight(c, workers, now, listed, entries, left, false)
    ensures left == entries - ReapedSids(JudgeAll(c, workers, now, listed)) ==>
      EntriesRight(c, workers, now, listed, entries, left, true)
  {
    forall sid <- entries | sid !in left
      ensures exists e <- listed :: e.sid == sid && (LeftBehind(c, workers, now, e) || PastRetention(c, now, e))
    {
      var j :| j in JudgeAll(c, workers, now, listed) && j.e.sid == sid && MayGo(j, objects);
      ReapedWhy(c, workers, now, listed, j);
    }
    forall e <- listed | LeftBehind(c, workers, now, e) || PastRetention(c, now, e)
      ensures e.sid in ReapedSids(JudgeAll(c, workers, now, listed))
    {
      ReapedIfDue(c, workers, now, listed, e);
    }
  }

  /** So a session that its worker holds keeps its entry through any sweep, whatever its age. */
  lemma {:induction false} HeldSessionStays(c: Config, workers: map<Pod, WorkerEntry>, now: int,
                                            listed: seq<SessionEntry>, entries: map<Sid, SessionEntry>,
                                            left: map<Sid, SessionEntry>, exact: bool, sid: Sid)
    requires EntriesRight(c, workers, now, listed, entries, left, exact) && sid in entries
    requires forall e <- listed | e.sid == sid :: !e.state.Suspended? && HeldByWorker(workers, e)
    ensures sid in left
  {
    if sid !in left {
      var e :| e in listed && e.sid == sid && (LeftBehind(c, workers, now, e) || PastRetention(c, now, e));
      assert false;
    }
  }

  // ---- what is safe whichever calls fail ----

  ghost predicate Empty(objects: map<string, seq<byte>>, dir: string) {
    forall k <- objects :: !(dir <= k)
  }

  /** One session taken, or part of it: objects of its directory, and its entry only when the directory is empty. */
  ghost predicate Taken(j: Judged, before: map<string, seq<byte>>, after: map<string, seq<byte>>,
                        entries: map<Sid, SessionEntry>, left: map<Sid, SessionEntry>) {
    && Shrunk(before, after, if j.verdict.Expired? then Matching(before, SnapDir(j.e.snapshotURI)) else {})
    && (left == entries || (left == entries - {j.e.sid} && MayGo(j, after)))
  }

  /** The session may lose its entry: it is reaped, and an expired one has no objects left. */
  ghost predicate MayGo(j: Judged, objects: map<string, seq<byte>>) {
    !j.verdict.Kept? && (j.verdict.Expired? ==> Empty(objects, SnapDir(j.e.snapshotURI)))
  }

  /** Entries go only for sessions that may lose them. */
  ghost predicate EntriesGone(all: seq<Judged>, objects: map<string, seq<byte>>, entries: map<Sid, SessionEntry>,
                              left: map<Sid, SessionEntry>) {
    && (forall sid <- left :: sid in entries && left[sid] == entries[sid])
    && (forall sid <- entries | sid !in left :: exists j <- all :: j.e.sid == sid && MayGo(j, objects))
  }

  ghost predicate ReapedWell(all: seq<Judged>, before: map<string, seq<byte>>, after: map<string, seq<byte>>,
                             entries: map<Sid, SessionEntry>, left: map<Sid, SessionEntry>) {
    && (forall k <- after :: k in before && after[k] == before[k])
    && (forall k <- before :: k in after || UnderAny(ExpiredDirs(all), k))
    && EntriesGone(all, after, entries, left)
  }

  ghost predicate OnlyOrphansGone(before: map<string, seq<byte>>, after: map<string, seq<byte>>,
                                  accounted: set<string>) {
    && (forall k <- after :: k in before && after[k] == before[k])
    && (forall k <- before :: k in after || (DirOf(k).Some? && DirOf(k).value !in accounted))
  }

  ghost predicate OnlyDoomedGone(all: seq<Judged>, before: map<string, seq<byte>>, after: map<string, seq<byte>>) {
    && (forall k <- after :: k in before && after[k] == before[k])
    && (forall k <- before :: k in after || Doomed(all, k))
  }

  /** Fewer objects leave an empty directory empty. */
  lemma {:induction false} StillGone(all: seq<Judged>, more: seq<Judged>, objects: map<string, seq<byte>>,
                                     fewer: map<string, seq<byte>>, entries: map<Sid, SessionEntry>,
                                     left: map<Sid, SessionEntry>)
    requires EntriesGone(all, objects, entries, left) && fewer.Keys <= objects.Keys
    requires forall j <- all :: j in more
    ensures EntriesGone(more, fewer, entries, left)
  {
    forall sid <- entries | sid !in left ensures exists j <- more :: j.e.sid == sid && MayGo(j, fewer) {
      var j :| j in all && j.e.sid == sid && MayGo(j, objects);
      assert j in more && MayGo(j, fewer);
    }
  }

  lemma {:induction false} OneMoreGone(all: seq<Judged>, j: Judged, objects: map<string, seq<byte>>,
                                       entries: map<Sid, SessionEntry>, now: map<Sid, SessionEntry>,
                                       left: map<Sid, SessionEntry>)
    requires EntriesGone(all, objects, entries, now) && j in all
    requires left == now || (left == now - {j.e.sid} && MayGo(j, objects))
    ensures EntriesGone(all, objects, entries, left)
  {
  }

  lemma {:induction false} StillReapedWell(all: seq<Judged>, i: nat, before: map<string, seq<byte>>,
                                           objects: map<string, seq<byte>>, after: map<string, seq<byte>>,
                                           entries: map<Sid, SessionEntry>, now: map<Sid, SessionEntry>,
                                           left: map<Sid, SessionEntry>)
    requires i < |all| && ReapedWell(all[..i], before, objects, entries, now)
    requires Taken(all[i], objects, after, now, left)
    ensures ReapedWell(all[..i + 1], before, after, entries, left)
  {
    var done := all[..i + 1];
    assert done == all[..i] + [all[i]];
    assert all[i] in done && forall j <- all[..i] :: j in done;
    StillGone(all[..i], done, objects, after, entries, now);
    OneMoreGone(done, all[i], after, entries, now, left);
    JudgedNext(all, i);
    forall k <- before | k !in after ensures UnderAny(ExpiredDirs(done), k) {
      if k in objects {
        assert SnapDir(all[i].e.snapshotURI) in ExpiredDirs(done);
      } else {
        var d :| d in ExpiredDirs(all[..i]) && d <= k;
        assert d in ExpiredDirs(done);
      }
    }
  }

  lemma {:induction false} OrphanGone(before: map<string, seq<byte>>, objects: map<string, seq<byte>>,
                                      after: map<string, seq<byte>>, dir: string, accounted: set<string>)
    requires OnlyOrphansGone(before, objects, accounted) && Shrunk(objects, after, Matching(objects, dir))
    requires dir in Dirs(before) && dir !in accounted
    ensures OnlyOrphansGone(before, after, accounted)
  {
    var k0 :| k0 in before && DirOf(k0) == Some(dir);
    forall k <- objects | k !in after ensures DirOf(k) == Some(dir) {
      DirHolds(k0, k);
    }
  }

  lemma {:induction false} SweptSafely(all: seq<Judged>, before: map<string, seq<byte>>,
                                       objects: map<string, seq<byte>>, after: map<string, seq<byte>>,
                                       entries: map<Sid, SessionEntry>, left: map<Sid, SessionEntry>)
    requires ReapedWell(all, before, objects, entries, left) && OnlyOrphansGone(objects, after, Accounted(all))
    ensures OnlyDoomedGone(all, before, after) && EntriesGone(all, after, entries, left)
  {
    StillGone(all, all, objects, after, entries, left);
  }

  ghost function Spared(objects: map<string, seq<byte>>, all: seq<Judged>): map<string, seq<byte>> {
    map k | k in objects && !Doomed(all, k) :: objects[k]
  }

  ghost function OrphanCount(dryRun: bool, objects: map<string, seq<byte>>, all: seq<Judged>): nat {
    |Orphans(if dryRun then objects else Without(objects, ExpiredDirs(all)), Accounted(all))|
  }

  ghost predicate Tallied(all: seq<Judged>, accounted: set<string>, ttl: nat, abandoned: nat) {
    accounted == Accounted(all) && ttl == CountOf(all, Expired) && abandoned == CountOf(all, Zombie)
  }

  lemma {:induction false} TalliedNext(all: seq<Judged>, i: nat, accounted: set<string>, ttl: nat, abandoned: nat)
    requires i < |all| && Tallied(all[..i], accounted, ttl, abandoned)
    ensures var j := all[i];
      Tallied(all[..i + 1], if HasDir(j) then accounted + {SnapDir(j.e.snapshotURI)} else accounted,
        if j.verdict.Expired? then ttl + 1 else ttl, if j.verdict.Zombie? then abandoned + 1 else abandoned)
  {
    JudgedNext(all, i);
    assert CountOf(all[..i + 1], Expired) == CountOf(all[..i], Expired) + if all[i].verdict == Expired then 1 else 0;
    assert CountOf(all[..i + 1], Zombie) == CountOf(all[..i], Zombie) + if all[i].verdict == Zombie then 1 else 0;
  }

  /** A dry run leaves everything, an armed sweep what lies in none of the directories. */
  ghost function Cleared(c: Config, objects: map<string, seq<byte>>, dirs: set<string>): map<string, seq<byte>> {
    if c.dryRun then objects else Without(objects, dirs)
  }

  ghost function Reaped(c: Config, objects: map<string, seq<byte>>, all: seq<Judged>): map<string, seq<byte>> {
    Cleared(c, objects, ExpiredDirs(all))
  }

  ghost function Remaining(c: Config, sessions: map<Sid, SessionEntry>, all: seq<Judged>): map<Sid, SessionEntry> {
    if c.dryRun then sessions else sessions - ReapedSids(all)
  }

  lemma {:induction false} ReapedNext(c: Config, objects: map<string, seq<byte>>, all: seq<Judged>, i: nat)
    requires i < |all|
    ensures var before := Reaped(c, objects, all[..i]);
      Reaped(c, objects, all[..i + 1])
      == if c.dryRun || !all[i].verdict.Expired? then before
         else before - Matching(before, SnapDir(all[i].e.snapshotURI))
  {
    JudgedNext(all, i);
    WithoutMore(objects, ExpiredDirs(all[..i]), SnapDir(all[i].e.snapshotURI));
  }

  lemma {:induction false} RemainingNext(c: Config, sessions: map<Sid, SessionEntry>, all: seq<Judged>, i: nat)
    requires i < |all|
    ensures var before := Remaining(c, sessions, all[..i]);
      Remaining(c, sessions, all[..i + 1])
      == if c.dryRun || all[i].verdict.Kept? then before else before - {all[i].e.sid}
  {
    JudgedNext(all, i);
  }

  lemma {:induction false} JudgedNext(all: seq<Judged>, i: nat)
    requires i < |all|
    ensures var j := all[i];
      && Accounted(all[..i + 1]) == Accounted(all[..i]) + (if HasDir(j) then {SnapDir(j.e.snapshotURI)} else {})
      && ExpiredDirs(all[..i + 1]) ==
         ExpiredDirs(all[..i]) + (if j.verdict.Expired? then {SnapDir(j.e.snapshotURI)} else {})
      && ReapedSids(all[..i + 1]) == ReapedSids(all[..i]) + (if !j.verdict.Kept? then {j.e.sid} else {})
      && forall v :: CountOf(all[..i + 1], v) == CountOf(all[..i], v) + if j.verdict == v then 1 else 0
  {
    assert all[..i + 1] == all[..i] + [all[i]];
    assert all[..i + 1][..i] == all[..i];
  }

  lemma {:induction false} ElementsNext(dirs: seq<string>, i: nat, accounted: set<string>)
    requires i < |dirs| && Increasing(dirs)
    ensures var before, after := Elements(dirs[..i]) - accounted, Elements(dirs[..i + 1]) - accounted;
      if dirs[i] in accounted then after == before else after == before + {dirs[i]} && |after| == |before| + 1
  {
    assert dirs[..i + 1] == dirs[..i] + [dirs[i]];
    if dirs[i] in dirs[..i] {
      LessIrreflexive(dirs[i]);
    }
  }

  lemma {:induction false} SparedInTwoPasses(objects: map<string, seq<byte>>, all: seq<Judged>)
    ensures var left := Without(objects, ExpiredDirs(all));
      Without(left, Orphans(left, Accounted(all))) == Spared(objects, all)
  {
    var left := Without(objects, ExpiredDirs(all));
    var orphans := Orphans(left, Accounted(all));
    forall k | k in left ensures UnderAny(orphans, k) <==> DirOf(k).Some? && DirOf(k).value !in Accounted(all) {
      if UnderAny(orphans, k) {
        var d :| d in orphans && d <= k;
        var k0 :| k0 in left && DirOf(k0) == Some(d);
        DirHolds(k0, k);
      } else if DirOf(k).Some? && DirOf(k).value !in Accounted(all) {
        assert DirOf(k).value in orphans;
        DirHolds(k, k);
      }
    }
  }

  // ---- what that means for the sessions kept ----

  /** An object outside the session directories, or in one that is accounted for, goes exactly when an expired session's
      directory covers it. */
  lemma {:induction false} AccountedSurvives(all: seq<Judged>, k: string)
    requires DirOf(k).None? || DirOf(k).value in Accounted(all)
    ensures Doomed(all, k) <==> UnderAny(ExpiredDirs(all), k)
  {
  }

  /** So does every object in the directory of a kept session whose snapshot lies there. */
  lemma {:induction false} KeptSnapshotSurvives(all: seq<Judged>, j: Judged, name: string, k: string)
    requires j in all && j.verdict.Kept? && '/' !in j.e.sid && name != "" && '/' !in name
    requires j.e.snapshotURI == SANDBOXES + j.e.sid + "/" + name && SessionDir(j.e.sid) <= k
    ensures Doomed(all, k) <==> UnderAny(ExpiredDirs(all), k)
  {
    SnapDirOfSession(j.e.sid, name);
    DirOfSession(j.e.sid, k);
    assert SessionDir(j.e.sid) in Accounted(all);
    AccountedSurvives(all, k);
  }

  /** Every session's snapshot lies in its own directory under sandboxes/. */
  ghost predicate OwnDirectory(j: Judged) {
    '/' !in j.e.sid && SnapDir(j.e.snapshotURI) == SessionDir(j.e.sid)
  }

  /** So when the expired sessions' snapshots lie in their own directories, nothing in a kept one's is lost. */
  lemma {:induction false} NoKeptObjectIsLost(all: seq<Judged>, j: Judged, name: string, k: string)
    requires j in all && j.verdict.Kept? && '/' !in j.e.sid && name != "" && '/' !in name
    requires j.e.snapshotURI == SANDBOXES + j.e.sid + "/" + name && SessionDir(j.e.sid) <= k
    requires forall x <- all | x.verdict.Expired? :: OwnDirectory(x) && x.e.sid != j.e.sid
    ensures !Doomed(all, k)
  {
    KeptSnapshotSurvives(all, j, name, k);
    if UnderAny(ExpiredDirs(all), k) {
      var d :| d in ExpiredDirs(all) && d <= k;
      var x :| x in all && x.verdict.Expired? && SnapDir(x.e.snapshotURI) == d;
      DirectoriesDisjoint(SANDBOXES, x.e.sid, j.e.sid, k);
    }
  }

  // ---- forks of one base ----

  /** A fork as it is seeded: Suspended on the base's snapshot, without any stamp. */
  predicate Seeded(e: SessionEntry) {
    e.state.Suspended? && e.snapshotURI != "" && e.lastActiveAt == 0 && e.lastCheckpointAt == 0
  }

  /** A fork that ran once, was stamped, lost its worker before any checkpoint, and whose next restore rolled back. */
  function RolledBack(seed: SessionEntry, v: WorkerEntry, u: WorkerEntry, active: int): SessionEntry {
    var ran := MarkRunning(MarkResuming(seed, v, RestoreSpec(seed)), v.podIP).(lastActiveAt := active);
    var stale := StaleRunningEdit(ran);
    RollBack(MarkResuming(stale, u, RestoreSpec(stale)))
  }

  /** A fork never run is kept whatever its age; one that was rolled back is still on the base's snapshot, and expires
      once its retention has passed since its last stamp. */
  lemma {:induction false} RolledBackForkExpires(c: Config, workers: map<Pod, WorkerEntry>, now: int,
                                                 seed: SessionEntry, v: WorkerEntry, u: WorkerEntry, active: int)
    requires Seeded(seed) && active > 0
    ensures Judge(c, workers, now, seed) == Kept
    ensures var e := RolledBack(seed, v, u, active);
      && e.sid == seed.sid && e.snapshotURI == seed.snapshotURI
      && (Judge(c, workers, now, e) == Expired <==>
          TtlOf(c, seed.sid) > 0 && now - active >= TtlOf(c, seed.sid) * 1000)
  {
  }

  /** A session that expires while its snapshot lies outside its own directory takes every object of a kept session on
      the same snapshot with it. */
  lemma {:induction false} ExpiredForkTakesTheBase(all: seq<Judged>, expired: Judged, kept: Judged, k: string)
    requires expired in all && expired.verdict.Expired? && kept in all && kept.verdict.Kept?
    requires expired.e.snapshotURI == kept.e.snapshotURI && TrimSlash(kept.e.snapshotURI) + "/" <= k
    requires '/' in TrimSlash(kept.e.snapshotURI)
    ensures Doomed(all, k)
  {
    var u := TrimSlash(kept.e.snapshotURI);
    var d := SnapDir(expired.e.snapshotURI);
    NameStops(u);
    assert d <= u && d <= k by {
      assert k[..|d|] == (u + "/")[..|d|] == d;
    }
    assert d in ExpiredDirs(all);
  }

  /** The code does this: of two forks of one base, the first rolled back and past its retention, the second never run,
      a sweep expires the first, keeps the second, and deletes the base's objects under it. */
  lemma {:induction false} SweepTakesTheBase(c: Config, workers: map<Pod, WorkerEntry>, now: int, first: SessionEntry,
                                             second: SessionEntry, v: WorkerEntry, u: WorkerEntry, active: int,
                                             k: string)
    requires Seeded(first) && Seeded(second) && first.snapshotURI == second.snapshotURI && active > 0
    requires TtlOf(c, first.sid) > 0 && now - active >= TtlOf(c, first.sid) * 1000
    requires '/' in TrimSlash(second.snapshotURI) && TrimSlash(second.snapshotURI) + "/" <= k
    ensures var all := JudgeAll(c, workers, now, [RolledBack(first, v, u, active), second]);
      all[0].verdict == Expired && all[1].verdict == Kept && Doomed(all, k)
  {
    RolledBackForkExpires(c, workers, now, first, v, u, active);
    RolledBackForkExpires(c, workers, now, second, v, u, active);
    var all := JudgeAll(c, workers, now, [RolledBack(first, v, u, active), second]);
    assert all[0] in all && all[1] in all;
    ExpiredForkTakesTheBase(all, all[0], all[1], k);
  }

  lemma {:induction false} NameStops(u: string)
    requires '/' in u
    ensures |Name(u)| < |u|
  {
    if u[|u| - 1] != '/' {
      assert u == u[..|u| - 1] + [u[|u| - 1]];
      NameStops(u[..|u| - 1]);
    }
  }

  /** Unless an expired session's directory cuts across the listed ones, a dry run counts what an armed sweep would. */
  lemma {:induction false} DryRunPredicts(objects: map<string, seq<byte>>, all: seq<Judged>)
    requires forall x <- all | x.verdict.Expired? :: OwnDirectory(x) || Elsewhere(SnapDir(x.e.snapshotURI))
    requires forall x <- all | x.verdict.Expired? :: x.e.snapshotURI != ""
    ensures OrphanCount(true, objects, all) == OrphanCount(false, objects, all)
  {
    var left, accounted := Without(objects, ExpiredDirs(all)), Accounted(all);
    forall d | d in Orphans(objects, accounted) ensures d in Orphans(left, accounted) {
      var k :| k in objects && DirOf(k) == Some(d);
      if UnderAny(ExpiredDirs(all), k) {
        var x :| x in all && x.verdict.Expired? && SnapDir(x.e.snapshotURI) <= k;
        assert HasDir(x);
        if OwnDirectory(x) {
          DirOfSession(x.e.sid, k);
        } else {
          PrefixesCompare(SANDBOXES, SnapDir(x.e.snapshotURI), k);
        }
      }
    }
    assert Orphans(left, accounted) == Orphans(objects, accounted);
  }

  /** A directory neither under sandboxes/ nor above it. */
  predicate Elsewhere(d: string) {
    !(SANDBOXES <= d) && !(d <= SANDBOXES)
  }

  lemma {:induction false} PrefixesCompare(a: string, b: string, k: string)
    requires a <= k && b <= k
    ensures a <= b || b <= a
  {
  }
}
