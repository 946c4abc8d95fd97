/** The table as the object the scripts update in place, each method proved against its function in `Assign`. */
module Store {
  import opened Records
  import opened Assign

  predicate DueBy(z: map<Sid, int>, now: int, sid: Sid) {
    sid in z && z[sid] <= now
  }

  lemma {:induction false} MinScoreExists(z: map<Sid, int>, rest: set<Sid>) returns (sid: Sid)
    requires rest != {} && rest <= z.Keys
    ensures sid in rest && forall other <- rest :: z[sid] <= z[other]
    decreases |rest|
  {
    sid :| sid in rest;
    if rest != {sid} {
      var low := MinScoreExists(z, rest - {sid});
      if z[low] < z[sid] {
        sid := low;
      }
    }
  }

  /** ZRANGE BYSCORE -inf..now: each due member once, lowest score first. */
  method RangeByScore(z: map<Sid, int>, now: int) returns (sids: seq<Sid>)
    ensures forall sid :: sid in sids <==> DueBy(z, now, sid)
    ensures forall i | 0 <= i < |sids| :: sids[i] in z
    ensures forall i, j | 0 <= i < j < |sids| :: sids[i] != sids[j]
    ensures forall i, j | 0 <= i < j < |sids| :: z[sids[i]] <= z[sids[j]]
  {
    sids := [];
    var rest := set sid | sid in z && z[sid] <= now;
    while rest != {}
      invariant forall sid :: DueBy(z, now, sid) <==> sid in sids || sid in rest
      invariant forall i | 0 <= i < |sids| :: sids[i] in z
      invariant forall sid <- rest :: sid in z && sid !in sids
      invariant forall i, j | 0 <= i < j < |sids| :: sids[i] != sids[j]
      invariant forall i, j | 0 <= i < j < |sids| :: z[sids[i]] <= z[sids[j]]
      invariant forall i, sid | 0 <= i < |sids| && sid in rest :: z[sids[i]] <= z[sid]
      decreases |rest|
    {
      ghost var low := MinScoreExists(z, rest);
      var sid :| sid in rest && forall other <- rest :: z[sid] <= z[other];
      sids := sids + [sid];
      rest := rest - {sid};
    }
  }

  /** The entries of the members that have one, in order. */
  ghost function Loaded(sessions: map<Sid, SessionEntry>, sids: seq<Sid>): seq<SessionEntry>
    decreases |sids|
  {
    if sids == [] then []
    else
      var last := sids[|sids| - 1];
      Loaded(sessions, sids[..|sids| - 1]) + if last in sessions then [sessions[last]] else []
  }

  function Missing(sessions: map<Sid, SessionEntry>, sids: seq<Sid>): set<Sid> {
    set sid | sid in sids && sid !in sessions
  }

  lemma {:induction false} LoadNext(sessions: map<Sid, SessionEntry>, sids: seq<Sid>, i: nat)
    requires i < |sids|
    ensures Missing(sessions, sids[..i + 1]) ==
            Missing(sessions, sids[..i]) + if sids[i] in sessions then {} else {sids[i]}
    ensures Loaded(sessions, sids[..i + 1]) ==
            Loaded(sessions, sids[..i]) + if sids[i] in sessions then [sessions[sids[i]]] else []
  {
    assert sids[..i + 1][..i] == sids[..i];
  }

  lemma {:induction false} NoneMissing(sessions: map<Sid, SessionEntry>, sids: seq<Sid>)
    requires Missing(sessions, sids) == {}
    ensures |Loaded(sessions, sids)| == |sids|
    ensures forall i | 0 <= i < |sids| :: sids[i] in sessions && Loaded(sessions, sids)[i] == sessions[sids[i]]
    decreases |sids|
  {
    if sids != [] {
      var n := |sids| - 1;
      assert forall sid <- sids :: sid !in Missing(sessions, sids);
      assert sids[n] in sids;
      NoneMissing(sessions, sids[..n]);
    }
  }

  function EntriesOf(workers: map<Pod, WorkerEntry>, pods: set<Pod>): set<WorkerEntry> {
    set pod | pod in pods && pod in workers :: workers[pod]
  }

  class Store {
    var sessions: map<Sid, SessionEntry>
    var workers: map<Pod, WorkerEntry>
    var idle: map<Pool, set<Pod>>
    var all: map<Pool, set<Pod>>
    var suspendDue: map<Sid, int>
    var checkpointDue: map<Sid, int>

    ghost function View(): KV
      reads this
    {
      KV(sessions, workers, idle, all, suspendDue, checkpointDue)
    }

    constructor ()
      ensures View() == EMPTY_KV && TableInv(View())
    {
      sessions, workers, idle, all, suspendDue, checkpointDue := map[], map[], map[], map[], map[], map[];
      new;
      EmptyTableInv();
    }

    method GetSession(sid: Sid) returns (r: Option<SessionEntry>)
      ensures r.Some? <==> sid in View().sessions
      ensures r.Some? ==> r.value == View().sessions[sid]
    {
      r := if sid in sessions then Some(sessions[sid]) else None;
    }

    method PutSessionCAS(e: SessionEntry, now: int) returns (ok: bool)
      modifies this
      ensures ok == CasWins(old(View()), e)
      ensures View() == CasSession(old(View()), e, now)
      ensures ok <==> e.version == if e.sid in old(sessions) then old(sessions)[e.sid].version else 0
      ensures !ok ==> View() == old(View())
      ensures ok ==> sessions == old(sessions)[e.sid := e.(version := e.version + 1)]
      ensures ok && e.state.Running? && e.lastActiveAt > 0 && e.idleTimeoutSeconds > 0 ==>
        suspendDue == old(suspendDue)[e.sid := e.lastActiveAt + e.idleTimeoutSeconds * 1000]
      ensures ok && !(e.state.Running? && e.lastActiveAt > 0 && e.idleTimeoutSeconds > 0) ==>
        suspendDue == old(suspendDue) - {e.sid}
      ensures ok && e.state.Running? && e.checkpointIntervalSeconds > 0 ==>
        && checkpointDue.Keys == old(checkpointDue).Keys + {e.sid}
        && checkpointDue - {e.sid} == old(checkpointDue) - {e.sid}
        && checkpointDue[e.sid] - e.checkpointIntervalSeconds * 1000 ==
           if e.lastCheckpointAt != 0 then e.lastCheckpointAt else if e.lastActiveAt != 0 then e.lastActiveAt else now
      ensures ok && !(e.state.Running? && e.checkpointIntervalSeconds > 0) ==>
        checkpointDue == old(checkpointDue) - {e.sid}
    {
      var current := 0;
      if e.sid in sessions {
        current := sessions[e.sid].version;
      }
      if current != e.version {
        return false;
      }
      sessions := sessions[e.sid := e.(version := e.version + 1)];
      if e.state.Running? {
        if e.lastActiveAt > 0 && e.idleTimeoutSeconds > 0 {
          suspendDue := suspendDue[e.sid := e.lastActiveAt + e.idleTimeoutSeconds * 1000];
        } else {
          suspendDue := suspendDue - {e.sid};
        }
        if e.checkpointIntervalSeconds > 0 {
          var base := e.lastCheckpointAt;
          if base == 0 {
            base := e.lastActiveAt;
          }
          if base == 0 {
            base := now;
          }
          checkpointDue := checkpointDue[e.sid := base + e.checkpointIntervalSeconds * 1000];
        } else {
          checkpointDue := checkpointDue - {e.sid};
        }
      } else {
        suspendDue := suspendDue - {e.sid};
        checkpointDue := checkpointDue - {e.sid};
      }
      return true;
    }

    method Stamp(sid: Sid, ms: int)
      modifies this
      ensures View() == StampActive(old(View()), sid, ms)
      ensures sid !in old(sessions) ==> View() == old(View())
      ensures sid in old(sessions) ==> sessions == old(sessions)[sid := old(sessions)[sid].(lastActiveAt := ms)]
      ensures suspendDue ==
        if sid in old(sessions) && old(sessions)[sid].state.Running? && old(sessions)[sid].idleTimeoutSeconds > 0
        then old(suspendDue)[sid := ms + old(sessions)[sid].idleTimeoutSeconds * 1000]
        else old(suspendDue)
      ensures checkpointDue == old(checkpointDue) && workers == old(workers) && idle == old(idle) && all == old(all)
    {
      if sid !in sessions {
        return;
      }
      var e := sessions[sid].(lastActiveAt := ms);
      sessions := sessions[sid := e];
      if e.state.Running? && e.idleTimeoutSeconds > 0 {
        suspendDue := suspendDue[sid := ms + e.idleTimeoutSeconds * 1000];
      }
    }

    method Delete(sid: Sid)
      modifies this
      ensures View() == DeleteSession(old(View()), sid)
      ensures sessions == old(sessions) - {sid}
      ensures suspendDue == old(suspendDue) - {sid} && checkpointDue == old(checkpointDue) - {sid}
    {
      sessions := sessions - {sid};
      suspendDue := suspendDue - {sid};
      checkpointDue := checkpointDue - {sid};
    }

    method Upsert(w: WorkerEntry)
      modifies this
      ensures View() == UpsertWorker(old(View()), w)
      ensures workers ==
        if w.state.Idle? && w.pod in old(workers) && old(workers)[w.pod].state.Busy? then old(workers)
        else old(workers)[w.pod := w]
      ensures forall pool, pod ::
        InSet(all, pool, pod) <==> InSet(old(all), pool, pod) || (pool == w.pool && pod == w.pod)
    {
      all := AddMember(all, w.pool, w.pod);
      if w.state.Idle? {
        if w.pod in workers && workers[w.pod].state.Busy? {
          return;
        }
        workers := workers[w.pod := w];
        idle := AddMember(idle, w.pool, w.pod);
      } else {
        workers := workers[w.pod := w];
        idle := RemoveMember(idle, w.pool, w.pod);
      }
    }

    method Remove(pod: Pod, pool: Pool)
      modifies this
      ensures View() == RemoveWorker(old(View()), pod, pool)
      ensures workers == old(workers) - {pod}
      ensures !InSet(idle, pool, pod) && !InSet(all, pool, pod)
    {
      workers := workers - {pod};
      idle := RemoveMember(idle, pool, pod);
      all := RemoveMember(all, pool, pod);
    }

    /** SPOP draws any member: which one is the store's choice, so nothing is promised about it. */
    method Claim(pool: Pool, sid: Sid) returns (r: Option<WorkerEntry>)
      modifies this
      ensures Members(old(idle), pool) == {} ==> r.None? && View() == old(View())
      ensures Members(old(idle), pool) != {} ==>
        exists pod <- Members(old(idle), pool) ::
          && View() == ClaimWorker(old(View()), pool, pod, sid)
          && r == if pod in old(workers) then Some(Claimed(old(workers)[pod], sid)) else None
      ensures r.Some? ==>
        exists pod | pod in Members(old(idle), pool) && pod in old(workers) ::
          && r.value == old(workers)[pod].(state := Busy, sid := sid, version := old(workers)[pod].version + 1)
          && workers == old(workers)[pod := r.value] && Members(idle, pool) == Members(old(idle), pool) - {pod}
      ensures r.None? ==> workers == old(workers)
      ensures sessions == old(sessions) && all == old(all)
      ensures TableInv(old(View())) ==> (r.None? <==> Members(old(idle), pool) == {})
    {
      var members := Members(idle, pool);
      if members == {} {
        return None;
      }
      var pod :| pod in members;
      assert InSet(idle, pool, pod);
      assert TableInv(View()) ==> IdleIn(workers, pool, pod);
      idle := RemoveMember(idle, pool, pod);
      if pod !in workers {
        return None;
      }
      var w := Claimed(workers[pod], sid);
      workers := workers[pod := w];
      return Some(w);
    }

    method Release(pod: Pod, pool: Pool)
      modifies this
      ensures View() == ReleaseWorker(old(View()), pod, pool)
      ensures pod in old(workers) ==>
        var w := old(workers)[pod];
        && workers == old(workers)[pod := w.(state := Idle, sid := "", version := w.version + 1)]
        && Members(idle, pool) == Members(old(idle), pool) + {pod}
      ensures pod !in old(workers) ==> workers == old(workers) && !InSet(idle, pool, pod)
      ensures sessions == old(sessions) && all == old(all)
    {
      if pod in workers {
        var w := workers[pod];
        workers := workers[pod := w.(state := Idle, sid := "", version := w.version + 1)];
        idle := AddMember(idle, pool, pod);
      } else {
        idle := RemoveMember(idle, pool, pod);
      }
    }

    method EnsurePoolMember(pod: Pod, pool: Pool)
      modifies this`all
      ensures View() == Assign.EnsurePoolMember(old(View()), pod, pool)
      ensures Members(all, pool) == Members(old(all), pool) + {pod}
    {
      all := AddMember(all, pool, pod);
    }

    /** The entries of a pool's members; members without an entry are dropped from the set. */
    method PoolWorkers(pool: Pool) returns (out: seq<WorkerEntry>)
      modifies this`all
      ensures View() == PruneMembers(old(View()), pool)
      ensures forall pod :: InSet(all, pool, pod) <==> InSet(old(all), pool, pod) && pod in workers
      ensures forall pod | InSet(old(all), pool, pod) && pod in workers :: workers[pod] in out
      ensures forall w <- out :: w in EntriesOf(workers, Members(old(all), pool))
      ensures TableInv(old(View())) ==> forall pod <- workers | workers[pod].pool == pool :: workers[pod] in out
    {
      out := [];
      var members := Members(all, pool);
      var left := members;
      var kept: set<Pod> := {};
      while left != {}
        invariant left <= members && forall pod :: pod in kept <==> pod in members && pod !in left && pod in workers
        invariant forall pod <- kept :: workers[pod] in out
        invariant forall w <- out :: w in EntriesOf(workers, members)
        decreases |left|
      {
        var pod :| pod in left;
        left := left - {pod};
        if pod in workers {
          assert workers[pod] in EntriesOf(workers, members);
          out, kept := out + [workers[pod]], kept + {pod};
        }
      }
      assert kept == set pod | pod in members && pod in workers;
      if TableInv(View()) {
        assert forall pod <- workers | workers[pod].pool == pool :: InSet(all, pool, pod);
      }
      all := all[pool := kept];
    }

    /** CountWorkers as one step: the busy count derived from it is never negative. */
    method CountWorkers(pool: Pool) returns (idleCount: int, total: int)
      ensures idleCount == |Members(View().idle, pool)| && total == |Members(View().all, pool)|
      ensures TableInv(View()) ==> 0 <= idleCount <= total
    {
      idleCount, total := |Members(idle, pool)|, |Members(all, pool)|;
      if TableInv(View()) {
        IdleWithinAll(View(), pool);
      }
    }

    /** Loads the entries of the due members in order and collects the members without one. */
    method LoadDue(sids: seq<Sid>) returns (out: seq<SessionEntry>, stale: set<Sid>)
      ensures stale == Missing(sessions, sids)
      ensures out == Loaded(sessions, sids)
      ensures stale == {} ==>
        |out| == |sids| && forall i | 0 <= i < |out| :: sids[i] in sessions && out[i] == sessions[sids[i]]
    {
      out, stale := [], {};
      for i := 0 to |sids|
        invariant stale == Missing(sessions, sids[..i])
        invariant out == Loaded(sessions, sids[..i])
      {
        LoadNext(sessions, sids, i);
        if sids[i] in sessions {
          out := out + [sessions[sids[i]]];
        } else {
          stale := stale + {sids[i]};
        }
      }
      assert sids[..|sids|] == sids;
      if stale == {} {
        NoneMissing(sessions, sids);
      }
    }

    /** The indexed sweep: on a table in its invariant it returns exactly what a full scan would, once each,
        and prunes nothing. */
    method SuspendDue(now: int) returns (out: seq<SessionEntry>)
      modifies this`suspendDue
      ensures suspendDue == old(suspendDue) - StaleDue(old(suspendDue), now, sessions)
      ensures TableInv(old(View())) ==> View() == old(View())
      ensures TableInv(old(View())) ==> forall e ::
        e in out <==>
          && e.sid in sessions && sessions[e.sid] == e && e.state.Running? && e.lastActiveAt > 0
          && e.idleTimeoutSeconds > 0 && e.lastActiveAt + e.idleTimeoutSeconds * 1000 <= now
      ensures TableInv(old(View())) ==> forall i, j | 0 <= i < j < |out| :: out[i].sid != out[j].sid
    {
      var sids := RangeByScore(suspendDue, now);
      var stale;
      out, stale := LoadDue(sids);
      assert stale == StaleDue(suspendDue, now, sessions);
      if TableInv(View()) {
        SuspendIndexIsScan(sessions, suspendDue, now);
        DueOnceEach(sessions, sids, out);
      }
      suspendDue := suspendDue - stale;
    }

    /** The checkpoint sweep: only Running sessions with a positive interval, each at most once; exactly the due ones
        among those that have recorded a checkpoint. */
    method CheckpointDue(now: int) returns (out: seq<SessionEntry>)
      modifies this`checkpointDue
      ensures checkpointDue == old(checkpointDue) - StaleDue(old(checkpointDue), now, sessions)
      ensures TableInv(old(View())) ==> View() == old(View())
      ensures TableInv(old(View())) ==> forall e ::
        e in out <==>
          && e.sid in sessions && sessions[e.sid] == e && e.state.Running? && e.checkpointIntervalSeconds > 0
          && e.sid in old(checkpointDue) && old(checkpointDue)[e.sid] <= now
      ensures TableInv(old(View())) ==> forall e <- out | e.lastCheckpointAt != 0 ::
        e.lastCheckpointAt + e.checkpointIntervalSeconds * 1000 <= now
      ensures TableInv(old(View())) ==> forall e: SessionEntry |
        && e.sid in sessions && sessions[e.sid] == e && e.state.Running? && e.checkpointIntervalSeconds > 0
        && e.lastCheckpointAt != 0 && e.lastCheckpointAt + e.checkpointIntervalSeconds * 1000 <= now ::
        e in out
      ensures TableInv(old(View())) ==> forall i, j | 0 <= i < j < |out| :: out[i].sid != out[j].sid
    {
      var sids := RangeByScore(checkpointDue, now);
      var stale;
      out, stale := LoadDue(sids);
      assert stale == StaleDue(checkpointDue, now, sessions);
      if TableInv(View()) {
        CheckpointIndexIsScan(sessions, checkpointDue, now);
        DueOnceEach(sessions, sids, out);
      }
      checkpointDue := checkpointDue - stale;
    }
  }

  ghost function StaleDue(z: map<Sid, int>, now: int, sessions: map<Sid, SessionEntry>): set<Sid> {
    set sid | sid in z && z[sid] <= now && sid !in sessions
  }

  lemma {:induction false} SuspendIndexIsScan(sessions: map<Sid, SessionEntry>, due: map<Sid, int>, now: int)
    requires SuspendExact(sessions, due)
    ensures StaleDue(due, now, sessions) == {}
    ensures forall sid ::
        DueBy(due, now, sid) <==>
          && AutoSuspendsIn(sessions, sid)
          && sessions[sid].lastActiveAt + sessions[sid].idleTimeoutSeconds * 1000 <= now
  {
    forall sid
      ensures DueBy(due, now, sid) <==>
        && AutoSuspendsIn(sessions, sid)
        && sessions[sid].lastActiveAt + sessions[sid].idleTimeoutSeconds * 1000 <= now
    {
      assert sid in due <==> AutoSuspendsIn(sessions, sid);
    }
  }

  lemma {:induction false} CheckpointIndexIsScan(sessions: map<Sid, SessionEntry>, due: map<Sid, int>, now: int)
    requires CheckpointExact(sessions, due)
    ensures StaleDue(due, now, sessions) == {}
    ensures forall sid :: DueBy(due, now, sid) ==> AutoCheckpointsIn(sessions, sid)
    ensures forall sid | AutoCheckpointsIn(sessions, sid) && sessions[sid].lastCheckpointAt != 0 ::
      DueBy(due, now, sid) <==> sessions[sid].lastCheckpointAt + sessions[sid].checkpointIntervalSeconds * 1000 <= now
  {
    forall sid ensures sid in due <==> AutoCheckpointsIn(sessions, sid) {
    }
  }

  /** Entries carry their own key, so loading distinct members yields distinct sessions. */
  lemma {:induction false} DueOnceEach(sessions: map<Sid, SessionEntry>, sids: seq<Sid>, out: seq<SessionEntry>)
    requires KeyedSessions(sessions)
    requires |out| == |sids| && forall i | 0 <= i < |out| :: sids[i] in sessions && out[i] == sessions[sids[i]]
    requires forall i, j | 0 <= i < j < |sids| :: sids[i] != sids[j]
    ensures forall e :: e in out <==> e.sid in sids && e.sid in sessions && sessions[e.sid] == e
    ensures forall i, j | 0 <= i < j < |out| :: out[i].sid != out[j].sid
  {
    forall e ensures e in out <==> e.sid in sids && e.sid in sessions && sessions[e.sid] == e {
      if e.sid in sids && e.sid in sessions && sessions[e.sid] == e {
        var i :| 0 <= i < |sids| && sids[i] == e.sid;
        assert out[i] == e;
      }
    }
  }
}
