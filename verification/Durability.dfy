/** The durable mirror: what comes to rest in the table has been handed to it, so a rebuild after a wipe can bring every
    suspended session back. */
module Durability {
  import opened Records
  import opened Protocol
  import opened Lineage
  import opened Copies

  /** The entry as it was handed over, up to the version the write gave it and its activity stamp. */
  ghost predicate HandedOver(mirrored: set<SessionEntry>, e: SessionEntry) {
    exists m <- mirrored :: SameButActivity(m.(version := m.version + 1), e)
  }

  /** Every Suspended entry that was written since it was created has been handed over. */
  ghost predicate AllHandedOver(sessions: map<Sid, SessionEntry>, mirrored: set<SessionEntry>) {
    forall sid <- sessions | sessions[sid].state.Suspended? && sessions[sid].version >= 2 ::
      HandedOver(mirrored, sessions[sid])
  }

  lemma {:induction false} StillHandedOver(mirrored: set<SessionEntry>, more: set<SessionEntry>, e: SessionEntry,
                                           e': SessionEntry)
    requires HandedOver(mirrored, e) && mirrored <= more && SameButActivity(e, e')
    ensures HandedOver(more, e')
  {
    var m :| m in mirrored && SameButActivity(m.(version := m.version + 1), e);
    assert m in more && SameButActivity(m.(version := m.version + 1), e');
  }

  lemma {:induction false} WriteHandsOver(w: World, st: Step, poolOf: Pod -> Pool, sid: Sid)
    requires Shape(w, poolOf) && Enabled(w, st) && st.Do? && Protocol.Wins(w, w.clients[st.id], st.ch)
    requires PlanSid(w.clients[st.id].plan) == sid
    ensures var w' := Next(w, st, poolOf);
      sid in w'.kv.sessions && (w'.kv.sessions[sid].state.Suspended? && w'.kv.sessions[sid].version >= 2 ==>
                                  HandedOver(w'.mirrored, w'.kv.sessions[sid]))
  {
    var c, w' := w.clients[st.id], Next(w, st, poolOf);
    assert ClientOk(c, poolOf);
    EditKeepsEntryOk(c.plan, c.local.e, st.ch.now, poolOf);
    var m := Edit(c.plan, c.local.e, st.ch.now);
    assert w'.kv.sessions[sid] == m.(version := m.version + 1);
    if w'.kv.sessions[sid].state.Suspended? && w'.kv.sessions[sid].version >= 2 {
      assert m in w'.mirrored;
    }
  }

  lemma {:induction false} StepHandsOver(w: World, st: Step, poolOf: Pod -> Pool)
    requires Shape(w, poolOf) && Enabled(w, st) && AllHandedOver(w.kv.sessions, w.mirrored)
    ensures AllHandedOver(Next(w, st, poolOf).kv.sessions, Next(w, st, poolOf).mirrored)
  {
    var w' := Next(w, st, poolOf);
    forall sid <- w'.kv.sessions | w'.kv.sessions[sid].state.Suspended? && w'.kv.sessions[sid].version >= 2
      ensures HandedOver(w'.mirrored, w'.kv.sessions[sid])
    {
      if st.Do? && Protocol.Wins(w, w.clients[st.id], st.ch) && PlanSid(w.clients[st.id].plan) == sid {
        WriteHandsOver(w, st, poolOf, sid);
      } else {
        UnwrittenStays(w, st, poolOf, sid);
        StillHandedOver(w.mirrored, w'.mirrored, w.kv.sessions[sid], w'.kv.sessions[sid]);
      }
    }
  }

  lemma {:induction false} RunHandsOver(w: World, steps: seq<Step>, poolOf: Pod -> Pool)
    requires Shape(w, poolOf) && Run(w, steps, poolOf) && AllHandedOver(w.kv.sessions, w.mirrored)
    ensures AllHandedOver(Final(w, steps, poolOf).kv.sessions, Final(w, steps, poolOf).mirrored)
    decreases |steps|
  {
    if steps != [] {
      StepKeepsShape(w, steps[0], poolOf);
      StepHandsOver(w, steps[0], poolOf);
      RunHandsOver(Next(w, steps[0], poolOf), steps[1..], poolOf);
    }
  }

  /** In every reachable world a Suspended session that was written since its creation can be rebuilt: the rebuild may
      create an entry of version 0 for it, Suspended on the same snapshot, with the same engine, pool, image, ports,
      probe and role. */
  lemma {:induction false} SuspendedCanBeRebuilt(steps: seq<Step>, poolOf: Pod -> Pool, sid: Sid)
    requires Run(INIT, steps, poolOf)
    requires var kv := Final(INIT, steps, poolOf).kv;
      sid in kv.sessions && kv.sessions[sid].state.Suspended? && kv.sessions[sid].version >= 2
    ensures var w := Final(INIT, steps, poolOf);
      exists e :: Creatable(w, e) && e.version == 0 && e.sid == sid && BringsBack(e, w.kv.sessions[sid])
  {
    InitInv(poolOf);
    RunHandsOver(INIT, steps, poolOf);
    var w := Final(INIT, steps, poolOf);
    ReachableInv(INIT, steps, poolOf);
    var m :| m in w.mirrored && SameButActivity(m.(version := m.version + 1), w.kv.sessions[sid]);
    var e := Rebuilt(m, m.lastActiveAt);
    assert Creatable(w, e) && e.sid == sid;
  }

  /** What a rebuild brings back. The caps, the timeouts and the time of the last checkpoint are not mirrored. */
  ghost predicate BringsBack(e: SessionEntry, lost: SessionEntry) {
    && e.state == lost.state && e.snapshotURI == lost.snapshotURI && e.runtime == lost.runtime
    && e.engineVersion == lost.engineVersion && e.pool == lost.pool && e.image == lost.image
    && e.ports == lost.ports && e.health == lost.health && e.iamRoleARN == lost.iamRoleARN
    && e.workerPod == lost.workerPod && e.workerPodIP == lost.workerPodIP
    && e.egressMbps == 0 && e.ingressMbps == 0 && e.idleTimeoutSeconds == 0 && e.checkpointIntervalSeconds == 0
    && e.lastCheckpointAt == 0
  }
}
