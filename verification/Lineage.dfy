/** What every interleaving keeps: the table's indexes, the shape of Suspended entries, and the link between a client's
    copy and the stored entry. No hypothesis restricts which clients run or how they overlap. */
module Lineage {
  import opened Records
  import opened Assign
  import opened Protocol

  /** A Suspended entry has a snapshot and no worker; a bound entry records its worker's pool. */
  ghost predicate EntryOk(e: SessionEntry, poolOf: Pod -> Pool) {
    && (e.state.Suspended? ==> e.snapshotURI != "" && e.workerPod == "" && e.workerPodIP == "")
    && (e.workerPod != "" ==> e.pool == poolOf(e.workerPod))
  }

  ghost predicate PoolOk(pod: Pod, pool: Pool, poolOf: Pod -> Pool) {
    pod != "" ==> pool == poolOf(pod)
  }

  ghost predicate KindOk(kind: Kind, poolOf: Pod -> Pool) {
    kind.ForTerminate? ==> PoolOk(kind.pod, kind.pool, poolOf)
  }

  ghost predicate PlanOk(plan: Plan, poolOf: Pod -> Pool) {
    match plan
    case ToResuming(_, w, _) => PoolOk(w.pod, w.pool, poolOf)
    case ToRunning(_, w, _) => PoolOk(w.pod, w.pool, poolOf)
    case ToSuspending(e, kind) => EntryOk(e, poolOf) && KindOk(kind, poolOf)
    case ToSuspended(e, kind, reply) => EntryOk(e, poolOf) && KindOk(kind, poolOf) && reply.snapshot != ""
    case ToCheckpointed(e, reply) => EntryOk(e, poolOf) && reply.snapshot != ""
    case ToCreated(e) => EntryOk(e, poolOf) && e.version == 0
    case _ => true
  }

  ghost predicate ClientOk(c: Client, poolOf: Pod -> Pool) {
    match c
    case ResumeFence(cur) => EntryOk(cur.e, poolOf) && cur.e.version >= 1
    case ResumeClaim(sid, seed, _, _) =>
      seed.Some? ==> EntryOk(seed.value.e, poolOf) && seed.value.e.sid == sid && seed.value.e.version >= 1
    case SuspendStart(_, kind) => !kind.ForTerminate?
    case TerminateStart(v) => PoolOk(v.pod, v.pool, poolOf)
    case ReclaimCheck(v) => PoolOk(v.pod, v.pool, poolOf)
    case Checkpointing(cur) => EntryOk(cur.e, poolOf) && cur.e.state.Running? && cur.e.version >= 1
    case CreateStart(e) => EntryOk(e, poolOf) && e.version == 0
    case Reading(plan, _) => PlanOk(plan, poolOf) && !plan.ToCreated?
    case Writing(plan, tries, local) =>
      && PlanOk(plan, poolOf) && EntryOk(local.e, poolOf) && local.e.sid == PlanSid(plan) && Guard(plan, local.e)
      && (plan.ToCreated? ==> local.e == plan.e && tries + 1 >= MAX_TRIES)
      && (!CreatesMissing(plan) && !plan.ToCreated? ==> local.e.version >= 1)
      && (CreatesMissing(plan) ==> local.e.version >= 1 || local.e == FreshEntry(PlanSid(plan)))
    case Calling(plan) => PlanOk(plan, poolOf)
    case Releasing(_, pod, pool, _) => PoolOk(pod, pool, poolOf)
    case Removing(_, pod, pool) => PoolOk(pod, pool, poolOf)
    case _ => true
  }

  ghost predicate EntriesOk(sessions: map<Sid, SessionEntry>, poolOf: Pod -> Pool) {
    forall sid <- sessions :: EntryOk(sessions[sid], poolOf)
  }

  ghost predicate PodsOk(workers: map<Pod, WorkerEntry>, poolOf: Pod -> Pool) {
    forall pod <- workers :: pod != "" && workers[pod].pool == poolOf(pod)
  }

  ghost predicate Shape(w: World, poolOf: Pod -> Pool) {
    && TableInv(w.kv)
    && EntriesOk(w.kv.sessions, poolOf)
    && PodsOk(w.kv.workers, poolOf)
    && (forall e <- w.mirrored :: EntryOk(e, poolOf))
    && (forall id <- w.clients :: ClientOk(w.clients[id], poolOf))
  }

  /** No edit breaks an entry, whatever copy it starts from. */
  lemma {:induction false} EditKeepsEntryOk(plan: Plan, e: SessionEntry, now: int, poolOf: Pod -> Pool)
    requires PlanOk(plan, poolOf) && EntryOk(e, poolOf) && Guard(plan, e) && e.sid == PlanSid(plan)
    requires plan.ToCreated? ==> e == plan.e
    ensures EntryOk(Edit(plan, e, now), poolOf)
    ensures Edit(plan, e, now).sid == e.sid && Edit(plan, e, now).version == e.version
  {
  }

  // ---- a client's next program counter is well-formed ----

  lemma {:induction false} ResumeNextOk(w: World, c: Client, ch: Choice, poolOf: Pod -> Pool)
    requires EntriesOk(w.kv.sessions, poolOf) && PodsOk(w.kv.workers, poolOf) && KeyedSessions(w.kv.sessions)
    requires KeyedWorkers(w.kv.workers) && ClientOk(c, poolOf)
    requires c.ResumeStart? || c.ResumeFence? || c.ResumeClaim?
    ensures ActResume(w, c, ch).next.Some? ==> ClientOk(ActResume(w, c, ch).next.value, poolOf)
  {
  }

  lemma {:induction false} StartNextOk(w: World, c: Client, ch: Choice, poolOf: Pod -> Pool)
    requires EntriesOk(w.kv.sessions, poolOf) && KeyedSessions(w.kv.sessions)
    requires ClientOk(c, poolOf) && ch.reply.snapshot != ""
    requires Begins(c)
    ensures ActStart(w, c, ch).next.Some? ==> ClientOk(ActStart(w, c, ch).next.value, poolOf)
  {
  }

  lemma {:induction false} OtherNextOk(w: World, c: Client, ch: Choice, poolOf: Pod -> Pool)
    requires EntriesOk(w.kv.sessions, poolOf) && ClientOk(c, poolOf) && ch.reply.snapshot != ""
    requires Concludes(c)
    ensures ActOther(w, c, ch).next.Some? ==> ClientOk(ActOther(w, c, ch).next.value, poolOf)
  {
  }

  lemma {:induction false} FailureOk(plan: Plan, poolOf: Pod -> Pool)
    requires PlanOk(plan, poolOf)
    ensures OnFailure(plan).Some? ==> ClientOk(OnFailure(plan).value, poolOf)
  {
  }

  lemma {:induction false} SuccessOk(plan: Plan, poolOf: Pod -> Pool)
    requires PlanOk(plan, poolOf)
    ensures OnSuccess(plan).Some? ==> ClientOk(OnSuccess(plan).value, poolOf)
  {
  }

  lemma {:induction false} ReadOk(w: World, plan: Plan, tries: nat, poolOf: Pod -> Pool)
    requires EntriesOk(w.kv.sessions, poolOf) && KeyedSessions(w.kv.sessions) && PlanOk(plan, poolOf)
    requires !plan.ToCreated?
    ensures AfterRead(w, plan, tries).Some? ==> ClientOk(AfterRead(w, plan, tries).value, poolOf)
  {
    FailureOk(plan, poolOf);
  }

  lemma {:induction false} LoopNextOk(w: World, c: Client, ch: Choice, poolOf: Pod -> Pool)
    requires EntriesOk(w.kv.sessions, poolOf) && KeyedSessions(w.kv.sessions) && ClientOk(c, poolOf)
    requires c.Reading? || c.Writing?
    ensures ActLoop(w, c, ch).next.Some? ==> ClientOk(ActLoop(w, c, ch).next.value, poolOf)
  {
    FailureOk(c.plan, poolOf);
    if c.Reading? {
      ReadOk(w, c.plan, c.tries, poolOf);
    } else {
      SuccessOk(c.plan, poolOf);
    }
  }

  lemma {:induction false} NextOk(w: World, c: Client, ch: Choice, poolOf: Pod -> Pool)
    requires Shape(w, poolOf) && ClientOk(c, poolOf) && ch.reply.snapshot != ""
    ensures Act(w, c, ch).next.Some? ==> ClientOk(Act(w, c, ch).next.value, poolOf)
  {
    if c.ResumeStart? || c.ResumeFence? || c.ResumeClaim? {
      ResumeNextOk(w, c, ch, poolOf);
    } else if Begins(c) {
      StartNextOk(w, c, ch, poolOf);
    } else if c.Reading? || c.Writing? {
      LoopNextOk(w, c, ch, poolOf);
    } else {
      OtherNextOk(w, c, ch, poolOf);
    }
  }

  // ---- a client's action is at most one script, called as the script demands ----

  function ActOp(w: World, c: Client, ch: Choice): Option<Op> {
    if ch.kvError then None
    else
      match c
      case ResumeClaim(sid, _, _, pool) =>
        if InSet(w.kv.idle, pool, ch.drawn) then Some(Claim(pool, ch.drawn, sid)) else None
      case Writing(plan, _, local) => if Wins(w, c, ch) then Some(Cas(Edit(plan, local.e, ch.now), ch.now)) else None
      case Releasing(_, pod, pool, _) => Some(Release(pod, pool))
      case Deleting(sid) => Some(Delete(sid))
      case Removing(_, pod, pool) => Some(Remove(pod, pool))
      case _ => None
  }

  function ApplyOption(kv: KV, op: Option<Op>): KV {
    if op.Some? then Apply(kv, op.value) else kv
  }

  lemma {:induction false} ClaimIsOneScript(w: World, c: Client, ch: Choice)
    requires c.ResumeStart? || c.ResumeFence? || c.ResumeClaim?
    ensures ActResume(w, c, ch).kv == ApplyOption(w.kv, ActOp(w, c, ch))
  {
  }

  lemma {:induction false} OtherIsOneScript(w: World, c: Client, ch: Choice)
    requires Concludes(c)
    ensures ActOther(w, c, ch).kv == ApplyOption(w.kv, ActOp(w, c, ch))
  {
  }

  lemma {:induction false} LoopIsOneScript(w: World, c: Client, ch: Choice)
    requires c.Reading? || c.Writing?
    ensures ActLoop(w, c, ch).kv == ApplyOption(w.kv, ActOp(w, c, ch))
  {
  }

  lemma {:induction false} ActIsOneScript(w: World, c: Client, ch: Choice)
    ensures Act(w, c, ch).kv == ApplyOption(w.kv, ActOp(w, c, ch))
  {
    if c.ResumeStart? || c.ResumeFence? || c.ResumeClaim? {
      ClaimIsOneScript(w, c, ch);
    } else if c.Reading? || c.Writing? {
      LoopIsOneScript(w, c, ch);
    } else if !Begins(c) {
      OtherIsOneScript(w, c, ch);
    }
  }

  /** The script a step runs on the table, if any. */
  function StepOp(w: World, st: Step, poolOf: Pod -> Pool): Option<Op> {
    match st
    case Spawn(_, _) => None
    case Do(id, ch) => if id in w.clients then ActOp(w, w.clients[id], ch) else None
    case Register(pod, ip, version) => Some(Upsert(WorkerEntry(pod, poolOf(pod), ip, Idle, "", version)))
    case Join(pod) => Some(Ensure(pod, poolOf(pod)))
    case Unregister(pod) => Some(Remove(pod, poolOf(pod)))
    case Touch(sid, ms) => Some(Stamp(sid, ms))
    case Expire(sid) => Some(Delete(sid))
    case PrunePool(pool) => Some(Prune(pool))
  }

  lemma {:induction false} StepIsOneScript(w: World, st: Step, poolOf: Pod -> Pool)
    ensures Next(w, st, poolOf).kv == ApplyOption(w.kv, StepOp(w, st, poolOf))
  {
    if st.Do? && st.id in w.clients {
      ActIsOneScript(w, w.clients[st.id], st.ch);
    }
  }

  lemma {:induction false} StepOpLegal(w: World, st: Step, poolOf: Pod -> Pool)
    requires Shape(w, poolOf) && Enabled(w, st)
    ensures StepOp(w, st, poolOf).Some? ==> Legal(w.kv, StepOp(w, st, poolOf).value)
  {
    if st.Do? {
      assert ClientOk(w.clients[st.id], poolOf);
    }
  }

  /** A winning write stores a well-formed entry. */
  lemma {:induction false} StepOpWritesOk(w: World, st: Step, poolOf: Pod -> Pool)
    requires Shape(w, poolOf) && Enabled(w, st)
    requires StepOp(w, st, poolOf).Some? && StepOp(w, st, poolOf).value.Cas?
    ensures EntryOk(StepOp(w, st, poolOf).value.e, poolOf)
  {
    var c := w.clients[st.id];
    assert ClientOk(c, poolOf);
    EditKeepsEntryOk(c.plan, c.local.e, st.ch.now, poolOf);
  }

  lemma {:induction false} ScriptKeepsEntriesOk(kv: KV, op: Op, poolOf: Pod -> Pool)
    requires EntriesOk(kv.sessions, poolOf) && (op.Cas? ==> EntryOk(op.e, poolOf))
    ensures EntriesOk(Apply(kv, op).sessions, poolOf)
  {
    if op.Cas? {
      CasKeepsEntriesOk(kv, op.e, op.now, poolOf);
    } else if op.Stamp? {
      StampKeepsEntriesOk(kv, op.sid, op.ms, poolOf);
    } else if !op.Delete? {
      OnlySessionScriptsWriteSessions(kv, op);
    }
  }

  lemma {:induction false} CasKeepsEntriesOk(kv: KV, e: SessionEntry, now: int, poolOf: Pod -> Pool)
    requires EntriesOk(kv.sessions, poolOf) && EntryOk(e, poolOf)
    ensures EntriesOk(CasSession(kv, e, now).sessions, poolOf)
  {
  }

  lemma {:induction false} StampKeepsEntriesOk(kv: KV, sid: Sid, ms: int, poolOf: Pod -> Pool)
    requires EntriesOk(kv.sessions, poolOf)
    ensures EntriesOk(StampActive(kv, sid, ms).sessions, poolOf)
  {
  }

  lemma {:induction false} ScriptKeepsPodsOk(kv: KV, op: Op, poolOf: Pod -> Pool)
    requires PodsOk(kv.workers, poolOf) && (op.Upsert? ==> op.w.pod != "" && op.w.pool == poolOf(op.w.pod))
    ensures PodsOk(Apply(kv, op).workers, poolOf)
  {
    if op.Claim? {
      ClaimKeepsPodsOk(kv, op.pool, op.pod, op.sid, poolOf);
    } else if op.Release? {
      ReleaseKeepsPodsOk(kv, op.pod, op.pool, poolOf);
    } else if op.Upsert? {
      UpsertKeepsPodsOk(kv, op.w, poolOf);
    } else if !op.Remove? {
      OnlyWorkerScriptsWriteWorkers(kv, op);
    }
  }

  lemma {:induction false} ClaimKeepsPodsOk(kv: KV, pool: Pool, pod: Pod, sid: Sid, poolOf: Pod -> Pool)
    requires PodsOk(kv.workers, poolOf)
    ensures PodsOk(ClaimWorker(kv, pool, pod, sid).workers, poolOf)
  {
  }

  lemma {:induction false} ReleaseKeepsPodsOk(kv: KV, pod: Pod, pool: Pool, poolOf: Pod -> Pool)
    requires PodsOk(kv.workers, poolOf)
    ensures PodsOk(ReleaseWorker(kv, pod, pool).workers, poolOf)
  {
  }

  lemma {:induction false} UpsertKeepsPodsOk(kv: KV, w: WorkerEntry, poolOf: Pod -> Pool)
    requires PodsOk(kv.workers, poolOf) && w.pod != "" && w.pool == poolOf(w.pod)
    ensures PodsOk(UpsertWorker(kv, w).workers, poolOf)
  {
    var joined := kv.(all := AddMember(kv.all, w.pool, w.pod));
    assert PodsOk(joined.workers, poolOf) && PodsOk(kv.workers[w.pod := w], poolOf);
  }

  lemma {:induction false} ScriptKeepsTable(kv: KV, op: Op, poolOf: Pod -> Pool)
    requires TableInv(kv) && EntriesOk(kv.sessions, poolOf) && PodsOk(kv.workers, poolOf) && Legal(kv, op)
    requires op.Cas? ==> EntryOk(op.e, poolOf)
    requires op.Upsert? ==> op.w.pod != "" && op.w.pool == poolOf(op.w.pod)
    ensures TableInv(Apply(kv, op))
    ensures EntriesOk(Apply(kv, op).sessions, poolOf) && PodsOk(Apply(kv, op).workers, poolOf)
  {
    ApplyKeepsSessionInv(kv, op);
    ApplyKeepsWorkerInv(kv, op);
    ScriptKeepsEntriesOk(kv, op, poolOf);
    ScriptKeepsPodsOk(kv, op, poolOf);
  }

  lemma {:induction false} StepOpKeepsTable(w: World, st: Step, op: Op, poolOf: Pod -> Pool)
    requires Shape(w, poolOf) && Enabled(w, st) && StepOp(w, st, poolOf) == Some(op)
    ensures TableInv(Apply(w.kv, op))
    ensures EntriesOk(Apply(w.kv, op).sessions, poolOf) && PodsOk(Apply(w.kv, op).workers, poolOf)
  {
    StepOpLegal(w, st, poolOf);
    if op.Cas? {
      StepOpWritesOk(w, st, poolOf);
    }
    ScriptKeepsTable(w.kv, op, poolOf);
  }

  lemma {:induction false} StepKeepsTable(w: World, st: Step, poolOf: Pod -> Pool)
    requires Shape(w, poolOf) && Enabled(w, st)
    ensures TableInv(Next(w, st, poolOf).kv)
    ensures EntriesOk(Next(w, st, poolOf).kv.sessions, poolOf) && PodsOk(Next(w, st, poolOf).kv.workers, poolOf)
  {
    StepIsOneScript(w, st, poolOf);
    if StepOp(w, st, poolOf).Some? {
      StepOpKeepsTable(w, st, StepOp(w, st, poolOf).value, poolOf);
    }
  }

  lemma {:induction false} StepKeepsClients(w: World, st: Step, poolOf: Pod -> Pool)
    requires Shape(w, poolOf) && Enabled(w, st)
    ensures forall id <- Next(w, st, poolOf).clients :: ClientOk(Next(w, st, poolOf).clients[id], poolOf)
    ensures forall e <- Next(w, st, poolOf).mirrored :: EntryOk(e, poolOf)
  {
    match st
    case Spawn(_, c) => SpawnOk(w, c, poolOf);
    case Do(id, ch) =>
      var c := w.clients[id];
      NextOk(w, c, ch, poolOf);
      if Wins(w, c, ch) {
        EditKeepsEntryOk(c.plan, c.local.e, ch.now, poolOf);
      }
    case _ =>
  }

  lemma {:induction false} SpawnOk(w: World, c: Client, poolOf: Pod -> Pool)
    requires Shape(w, poolOf) && Initial(w, c)
    ensures ClientOk(c, poolOf)
  {
    if c.CreateStart? {
      if m :| m in w.mirrored && c.e == Rebuilt(m, c.e.lastActiveAt) {
        assert EntryOk(m, poolOf);
      }
    }
  }

  lemma {:induction false} StepKeepsShape(w: World, st: Step, poolOf: Pod -> Pool)
    requires Shape(w, poolOf) && Enabled(w, st)
    ensures Shape(Next(w, st, poolOf), poolOf)
  {
    StepKeepsTable(w, st, poolOf);
    StepKeepsClients(w, st, poolOf);
  }

  lemma {:induction false} ScriptLeavesEntry(kv: KV, op: Op, sid: Sid)
    requires !(op.Cas? && op.e.sid == sid) && sid in Apply(kv, op).sessions
    ensures sid in kv.sessions && SameButActivity(kv.sessions[sid], Apply(kv, op).sessions[sid])
  {
  }

  /** Only a winning write changes more of an entry than its stamp, short of deleting it. */
  lemma {:induction false} UnwrittenStays(w: World, st: Step, poolOf: Pod -> Pool, sid: Sid)
    requires Shape(w, poolOf) && Enabled(w, st)
    requires !(st.Do? && Wins(w, w.clients[st.id], st.ch) && PlanSid(w.clients[st.id].plan) == sid)
    requires sid in Next(w, st, poolOf).kv.sessions
    ensures sid in w.kv.sessions && SameButActivity(w.kv.sessions[sid], Next(w, st, poolOf).kv.sessions[sid])
  {
    StepIsOneScript(w, st, poolOf);
    var op := StepOp(w, st, poolOf);
    if op.Some? {
      if op.value.Cas? {
        var c := w.clients[st.id];
        assert ClientOk(c, poolOf);
        EditKeepsEntryOk(c.plan, c.local.e, st.ch.now, poolOf);
      }
      ScriptLeavesEntry(w.kv, op.value, sid);
    }
  }
}
