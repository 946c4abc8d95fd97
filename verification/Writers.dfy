/** What each writer of a session leaves behind, field by field, when its write wins on the incarnation it read. */
module Writers {
  import opened Records
  import opened Assign
  import opened Protocol
  import opened Lineage
  import opened Copies

  /** The client's write is about to win over the incarnation its copy came from. */
  ghost predicate AboutToWrite(w: World, id: nat, ch: Choice, poolOf: Pod -> Pool) {
    Inv(w, poolOf) && id in w.clients && WinsOnCurrent(w, w.clients[id], ch)
  }

  /** The entry stored by the write. */
  function Stored(w: World, id: nat, ch: Choice): (e: SessionEntry)
    requires id in w.clients && Protocol.Wins(w, w.clients[id], ch)
  {
    var c := w.clients[id];
    Edit(c.plan, c.local.e, ch.now).(version := c.local.e.version + 1)
  }

  lemma {:induction false} StoredIs(w: World, id: nat, ch: Choice, poolOf: Pod -> Pool)
    requires AboutToWrite(w, id, ch, poolOf)
    ensures var c := w.clients[id];
      && c.local.e.sid == PlanSid(c.plan) && Act(w, c, ch).next == OnSuccess(c.plan)
      && Act(w, c, ch).kv.sessions == w.kv.sessions[PlanSid(c.plan) := Stored(w, id, ch)]
      && (PlanSid(c.plan) in w.kv.sessions ==> w.kv.sessions[PlanSid(c.plan)].version == c.local.e.version)
      && (PlanSid(c.plan) !in w.kv.sessions ==> c.local.e.version == 0)
  {
    var c := w.clients[id];
    assert ClientOk(c, poolOf);
    EditKeepsEntryOk(c.plan, c.local.e, ch.now, poolOf);
    WinReplacesCopy(w, id, ch, poolOf);
  }

  /** What was stored before, or the empty entry of a key that was absent. */
  function Before(w: World, sid: Sid): SessionEntry {
    if sid in w.kv.sessions then w.kv.sessions[sid] else FreshEntry(sid)
  }

  lemma {:induction false} CopyIsBefore(w: World, id: nat, ch: Choice, poolOf: Pod -> Pool)
    requires AboutToWrite(w, id, ch, poolOf) && !w.clients[id].plan.ToCreated?
    ensures var c := w.clients[id]; IsCopyOf(c.local.e, Before(w, PlanSid(c.plan)), MayEdit(c))
    ensures !CreatesMissing(w.clients[id].plan) ==> PlanSid(w.clients[id].plan) in w.kv.sessions
  {
    StoredIs(w, id, ch, poolOf);
    WinReplacesCopy(w, id, ch, poolOf);
    assert ClientOk(w.clients[id], poolOf);
  }

  // ---- suspend ----

  /** A suspend first marks the session, and nothing else. */
  lemma {:induction false} SuspendMarks(w: World, id: nat, ch: Choice, poolOf: Pod -> Pool)
    requires AboutToWrite(w, id, ch, poolOf) && w.clients[id].plan.ToSuspending?
    ensures var plan, eff := w.clients[id].plan, Act(w, w.clients[id], ch);
      var sid := plan.e.sid;
      && sid in w.kv.sessions && sid in eff.kv.sessions && eff.next == Some(Calling(plan))
      && var before := w.kv.sessions[sid];
         SameButActivity(eff.kv.sessions[sid], before.(state := Suspending, version := before.version + 1))
  {
    StoredIs(w, id, ch, poolOf);
    CopyIsBefore(w, id, ch, poolOf);
  }

  /** A suspend that wins records the snapshot, runtime and engine its worker answered with, and the worker's image if
      it named one; the session is Suspended and bound to no worker, and nothing else about it changes. The worker is
      given back next, or removed when it is being terminated. */
  lemma {:induction false} SuspenderWrites(w: World, id: nat, ch: Choice, poolOf: Pod -> Pool)
    requires AboutToWrite(w, id, ch, poolOf) && w.clients[id].plan.ToSuspended?
    ensures var plan, eff := w.clients[id].plan, Act(w, w.clients[id], ch);
      var sid, reply := plan.e.sid, plan.reply;
      && sid in w.kv.sessions && sid in eff.kv.sessions
      && var before, after := w.kv.sessions[sid], eff.kv.sessions[sid];
         && after.state.Suspended? && after.snapshotURI == reply.snapshot != "" && after.runtime == reply.runtime
         && after.engineVersion == reply.engineVersion && after.workerPod == "" && after.workerPodIP == ""
         && after.image == (if reply.image != "" then reply.image else before.image)
         && after == before.(state := after.state, snapshotURI := after.snapshotURI, runtime := after.runtime,
                             engineVersion := after.engineVersion, workerPod := after.workerPod,
                             workerPodIP := after.workerPodIP, image := after.image, version := before.version + 1,
                             lastActiveAt := after.lastActiveAt)
    ensures var plan, next := w.clients[id].plan, Act(w, w.clients[id], ch).next;
      next == if plan.kind.ForTerminate? then Some(Removing(plan.e.sid, plan.kind.pod, plan.kind.pool))
              else Some(Releasing(plan.e.sid, plan.e.workerPod, plan.e.pool, Finish))
  {
    StoredIs(w, id, ch, poolOf);
    CopyIsBefore(w, id, ch, poolOf);
    assert ClientOk(w.clients[id], poolOf);
  }

  /** A release that the store takes leaves the worker idle in its pool, unless its entry was removed, and no session
      touched. */
  lemma {:induction false} ReleaseGivesBack(w: World, id: nat, ch: Choice, poolOf: Pod -> Pool)
    requires Inv(w, poolOf) && id in w.clients && w.clients[id].Releasing? && w.clients[id].pod != "" && !ch.kvError
    ensures var c, kv := w.clients[id], Act(w, w.clients[id], ch).kv;
      && c.pool == poolOf(c.pod) && kv.sessions == w.kv.sessions
      && (c.pod in kv.workers <==> c.pod in w.kv.workers)
      && (c.pod in kv.workers ==>
            && kv.workers[c.pod].state.Idle? && kv.workers[c.pod].sid == "" && kv.workers[c.pod].pool == c.pool
            && InSet(kv.idle, c.pool, c.pod))
  {
    assert ClientOk(w.clients[id], poolOf);
  }

  /** Throughout the run the client is in a compare-and-set loop. */
  ghost predicate InLoop(w: World, steps: seq<Step>, id: nat, poolOf: Pod -> Pool)
    decreases |steps|
  {
    && id in w.clients && (w.clients[id].Reading? || w.clients[id].Writing?)
    && (steps == [] || InLoop(Next(w, steps[0], poolOf), steps[1..], id, poolOf))
  }

  lemma {:induction false} LoopKeepsPlan(w: World, steps: seq<Step>, id: nat, poolOf: Pod -> Pool)
    requires Run(w, steps, poolOf) && InLoop(w, steps, id, poolOf)
    ensures var end := Final(w, steps, poolOf);
      id in end.clients && (end.clients[id].Reading? || end.clients[id].Writing?) &&
      end.clients[id].plan == w.clients[id].plan
    decreases |steps|
  {
    if steps != [] {
      StepKeepsPlan(w, steps[0], id, poolOf);
      LoopKeepsPlan(Next(w, steps[0], poolOf), steps[1..], id, poolOf);
    }
  }

  lemma {:induction false} StepKeepsPlan(w: World, st: Step, id: nat, poolOf: Pod -> Pool)
    requires Enabled(w, st) && id in w.clients && (w.clients[id].Reading? || w.clients[id].Writing?)
    requires var w' := Next(w, st, poolOf); id in w'.clients && (w'.clients[id].Reading? || w'.clients[id].Writing?)
    ensures Next(w, st, poolOf).clients[id].plan == w.clients[id].plan
  {
  }

  lemma {:induction false} AnswerIsCarried(w: World, id: nat, answer: Choice, poolOf: Pod -> Pool)
    requires id in w.clients && w.clients[id].Calling? && w.clients[id].plan.ToSuspending?
    requires !w.clients[id].plan.kind.ForReset? && answer.ok
    ensures var plan, w' := w.clients[id].plan, Next(w, Do(id, answer), poolOf);
      id in w'.clients && w'.clients[id] == Reading(ToSuspended(plan.e, plan.kind, answer.reply), 0)
  {
  }

  /** What a suspend stores is what its worker answered: from the answer, through any steps of others and any retries of
      its own, to the write that wins. */
  lemma {:induction false} SuspendStoresTheAnswer(w: World, id: nat, answer: Choice, answered: World, steps: seq<Step>,
                                                  end: World, ch: Choice, poolOf: Pod -> Pool)
    requires id in w.clients && w.clients[id].Calling? && w.clients[id].plan.ToSuspending?
    requires !w.clients[id].plan.kind.ForReset? && answer.ok
    requires answered == Next(w, Do(id, answer), poolOf) && Run(answered, steps, poolOf)
    requires InLoop(answered, steps, id, poolOf) && end == Final(answered, steps, poolOf)
    requires AboutToWrite(end, id, ch, poolOf)
    ensures var sid, kv := w.clients[id].plan.e.sid, Act(end, end.clients[id], ch).kv;
      && sid in kv.sessions && kv.sessions[sid].state.Suspended?
      && kv.sessions[sid].snapshotURI == answer.reply.snapshot && kv.sessions[sid].runtime == answer.reply.runtime
      && kv.sessions[sid].engineVersion == answer.reply.engineVersion
  {
    AnswerIsCarried(w, id, answer, poolOf);
    LoopKeepsPlan(answered, steps, id, poolOf);
    SuspenderWrites(end, id, ch, poolOf);
  }

  // ---- resume ----

  /** A resume's first write binds the session to the claimed worker and records what is being bound; over an absent key
      it starts from the empty entry. */
  lemma {:induction false} ResumerMarks(w: World, id: nat, ch: Choice, poolOf: Pod -> Pool)
    requires AboutToWrite(w, id, ch, poolOf) && w.clients[id].plan.ToResuming?
    ensures var plan, eff := w.clients[id].plan, Act(w, w.clients[id], ch);
      var v, b, before := plan.w, plan.b, Before(w, plan.sid);
      && plan.sid in eff.kv.sessions && eff.next == Some(Calling(plan))
      && var after := eff.kv.sessions[plan.sid];
         && after.state.Resuming? && after.workerPod == v.pod && after.workerPodIP == v.podIP && after.pool == v.pool
         && after.image == b.image && after.ports == b.ports
         && after.health == (if b.health.Some? then b.health else before.health)
         && after.iamRoleARN == (if b.roleARN != "" then b.roleARN else before.iamRoleARN)
         && after.egressMbps == b.egressMbps && after.ingressMbps == b.ingressMbps
         && after.idleTimeoutSeconds == b.idleTimeoutSeconds
         && after.checkpointIntervalSeconds == b.checkpointIntervalSeconds
         && after.sid == before.sid && after.snapshotURI == before.snapshotURI && after.runtime == before.runtime
         && after.engineVersion == before.engineVersion && after.lastCheckpointAt == before.lastCheckpointAt
         && after.version == before.version + 1
  {
    StoredIs(w, id, ch, poolOf);
    CopyIsBefore(w, id, ch, poolOf);
  }

  /** Its second write marks the session Running at the worker's address, and nothing else. */
  lemma {:induction false} ResumerRuns(w: World, id: nat, ch: Choice, poolOf: Pod -> Pool)
    requires AboutToWrite(w, id, ch, poolOf) && w.clients[id].plan.ToRunning?
    ensures var plan, eff := w.clients[id].plan, Act(w, w.clients[id], ch);
      var before := Before(w, plan.sid);
      && plan.sid in eff.kv.sessions && eff.next == None
      && SameButActivity(eff.kv.sessions[plan.sid],
                         before.(state := Running, workerPodIP := plan.w.podIP, version := before.version + 1))
  {
    StoredIs(w, id, ch, poolOf);
    CopyIsBefore(w, id, ch, poolOf);
  }

  /** A rollback turns a Resuming session with a snapshot back to Suspended, bound to no worker; any other it leaves as
      it is but for the version. */
  lemma {:induction false} RollbackWrites(w: World, id: nat, ch: Choice, poolOf: Pod -> Pool)
    requires AboutToWrite(w, id, ch, poolOf) && w.clients[id].plan.ToRolledBack?
    ensures var plan, eff := w.clients[id].plan, Act(w, w.clients[id], ch);
      var before := Before(w, plan.sid);
      && plan.sid in eff.kv.sessions && eff.next == None
      && SameButActivity(
           eff.kv.sessions[plan.sid],
           if before.state.Resuming? && before.snapshotURI != ""
           then before.(state := Suspended, workerPod := "", workerPodIP := "", version := before.version + 1)
           else before.(version := before.version + 1))
  {
    StoredIs(w, id, ch, poolOf);
    CopyIsBefore(w, id, ch, poolOf);
  }

  // ---- healer, checkpointer, creators ----

  /** A healer's winning write turns a stored Resuming entry into Running on the same address, or into Suspended with
      its own snapshot; nothing else about the entry changes but version and stamp. */
  lemma {:induction false} HealerWrites(w: World, id: nat, ch: Choice, poolOf: Pod -> Pool)
    requires AboutToWrite(w, id, ch, poolOf) && (w.clients[id].plan.ToHealed? || w.clients[id].plan.ToPromoted?)
    ensures var plan, sid := w.clients[id].plan, w.clients[id].plan.sid;
      && sid in w.kv.sessions && w.kv.sessions[sid].state.Resuming?
      && var before, after := w.kv.sessions[sid], Act(w, w.clients[id], ch).kv.sessions[sid];
         if plan.ToPromoted? then
           && before.workerPodIP == plan.ip
           && SameButActivity(after, before.(state := Running, version := before.version + 1))
         else
           && before.snapshotURI != ""
           && SameButActivity(after, before.(state := Suspended, workerPod := "", workerPodIP := "",
                                             version := before.version + 1))
  {
    StoredIs(w, id, ch, poolOf);
    CopyIsBefore(w, id, ch, poolOf);
    assert ClientOk(w.clients[id], poolOf);
  }

  /** A checkpointer's winning write finds the session Running on the pod it checkpointed, and records the worker's
      answer and the time; state, binding and everything else stay. */
  lemma {:induction false} CheckpointerWrites(w: World, id: nat, ch: Choice, poolOf: Pod -> Pool)
    requires AboutToWrite(w, id, ch, poolOf) && w.clients[id].plan.ToCheckpointed?
    ensures var plan := w.clients[id].plan;
      var sid, reply := plan.e.sid, plan.reply;
      && sid in w.kv.sessions && w.kv.sessions[sid].state.Running?
      && w.kv.sessions[sid].workerPod == plan.e.workerPod
      && var before := w.kv.sessions[sid];
         SameButActivity(
           Act(w, w.clients[id], ch).kv.sessions[sid],
           before.(snapshotURI := reply.snapshot, runtime := reply.runtime, engineVersion := reply.engineVersion,
                   lastCheckpointAt := ch.now, version := before.version + 1))
  {
    StoredIs(w, id, ch, poolOf);
    CopyIsBefore(w, id, ch, poolOf);
    assert ClientOk(w.clients[id], poolOf);
  }

  lemma {:induction false} CheckpointIsCarried(w: World, id: nat, answer: Choice, poolOf: Pod -> Pool)
    requires id in w.clients && w.clients[id].Checkpointing? && answer.ok
    ensures var cur, w' := w.clients[id].cur, Next(w, Do(id, answer), poolOf);
      id in w'.clients && w'.clients[id] == Writing(ToCheckpointed(cur.e, answer.reply), 0, cur)
  {
  }

  lemma {:induction false} CheckpointStored(w: World, id: nat, ch: Choice, poolOf: Pod -> Pool)
    requires AboutToWrite(w, id, ch, poolOf) && w.clients[id].plan.ToCheckpointed?
    ensures var sid, reply, kv := w.clients[id].plan.e.sid, w.clients[id].plan.reply, Act(w, w.clients[id], ch).kv;
      && sid in kv.sessions && kv.sessions[sid].state.Running?
      && kv.sessions[sid].snapshotURI == reply.snapshot && kv.sessions[sid].runtime == reply.runtime
      && kv.sessions[sid].engineVersion == reply.engineVersion && kv.sessions[sid].lastCheckpointAt == ch.now
  {
    StoredIs(w, id, ch, poolOf);
    CheckpointerWrites(w, id, ch, poolOf);
  }

  /** What a checkpoint stores is what its worker answered, like a suspend. */
  lemma {:induction false} CheckpointStoresTheAnswer(w: World, id: nat, answer: Choice, answered: World,
                                                     steps: seq<Step>, end: World, ch: Choice, poolOf: Pod -> Pool)
    requires id in w.clients && w.clients[id].Checkpointing? && answer.ok
    requires answered == Next(w, Do(id, answer), poolOf) && Run(answered, steps, poolOf)
    requires InLoop(answered, steps, id, poolOf) && end == Final(answered, steps, poolOf)
    requires AboutToWrite(end, id, ch, poolOf)
    ensures var sid, kv := w.clients[id].cur.e.sid, Act(end, end.clients[id], ch).kv;
      && sid in kv.sessions && kv.sessions[sid].state.Running?
      && kv.sessions[sid].snapshotURI == answer.reply.snapshot && kv.sessions[sid].runtime == answer.reply.runtime
      && kv.sessions[sid].engineVersion == answer.reply.engineVersion && kv.sessions[sid].lastCheckpointAt == ch.now
  {
    CheckpointIsCarried(w, id, answer, poolOf);
    LoopKeepsPlan(answered, steps, id, poolOf);
    CheckpointStored(end, id, ch, poolOf);
  }

  /** Fork seeding and rebuild never overwrite: their write wins only on an absent key, whatever was deleted when. */
  lemma {:induction false} CreatorsNeverOverwrite(w: World, id: nat, ch: Choice, poolOf: Pod -> Pool)
    requires Inv(w, poolOf) && id in w.clients && Protocol.Wins(w, w.clients[id], ch)
    requires w.clients[id].plan.ToCreated?
    ensures w.clients[id].plan.e.sid !in w.kv.sessions
    ensures Act(w, w.clients[id], ch).kv.sessions ==
            w.kv.sessions[w.clients[id].plan.e.sid := w.clients[id].plan.e.(version := 1)]
  {
    assert ClientOk(w.clients[id], poolOf);
  }
}
