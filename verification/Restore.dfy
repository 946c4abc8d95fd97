/** Restoring a suspended session onto a claimed worker, script by script, with other clients' scripts and store errors
    between any two of them. */
module Restore {
  import opened Records
  import opened Assign
  import opened Mutations
  import opened FailedRestores
  import C = CasLoop
  import L = Lineage
  import S = Store

  // ---- what the other clients may do: anything but write or delete this session ----

  /** The script keeps every pod in its pool, as all callers do, and does not write or delete the session. */
  ghost predicate Fits(op: Op, sid: Sid, poolOf: Pod -> Pool) {
    match op
    case Cas(e, _) => e.sid != sid
    case Stamp(_, ms) => ms > 0
    case Delete(gone) => gone != sid
    case Upsert(w) => w.pod != "" && w.pool == poolOf(w.pod)
    case Remove(pod, pool) => pool == poolOf(pod)
    case Release(pod, pool) => pool == poolOf(pod)
    case _ => true
  }

  ghost predicate Calm(ops: seq<Op>, sid: Sid, poolOf: Pod -> Pool) {
    forall i | 0 <= i < |ops| :: Fits(ops[i], sid, poolOf)
  }

  /** The script does not take the worker away. */
  predicate Spares(op: Op, pod: Pod) {
    match op
    case Upsert(w) => w.pod == pod ==> w.state.Idle?
    case Remove(gone, _) => gone != pod
    case Release(freed, _) => freed != pod
    case _ => true
  }

  ghost predicate Spared(ops: seq<Op>, pod: Pod) {
    forall i | 0 <= i < |ops| :: Spares(ops[i], pod)
  }

  ghost predicate Good(kv: KV, poolOf: Pod -> Pool) {
    TableInv(kv) && L.PodsOk(kv.workers, poolOf)
  }

  /** The table is in order and the session is the one seen before, up to its activity stamp. */
  ghost predicate Stands(kv: KV, seen: SessionEntry, sid: Sid, poolOf: Pod -> Pool) {
    Good(kv, poolOf) && sid in kv.sessions && SameButActivity(seen, kv.sessions[sid])
  }

  lemma {:induction false} ScriptStands(kv: KV, op: Op, seen: SessionEntry, sid: Sid, poolOf: Pod -> Pool)
    requires Stands(kv, seen, sid, poolOf) && Fits(op, sid, poolOf)
    ensures Stands(Apply(kv, op), seen, sid, poolOf)
  {
    ApplyKeepsSessionInv(kv, op);
    ApplyKeepsWorkerInv(kv, op);
    L.ScriptKeepsPodsOk(kv, op, poolOf);
    if !IsSessionScript(op) {
      OnlySessionScriptsWriteSessions(kv, op);
    }
  }

  lemma {:induction false} CalmStands(kv: KV, ops: seq<Op>, seen: SessionEntry, sid: Sid, poolOf: Pod -> Pool)
    requires Stands(kv, seen, sid, poolOf) && Calm(ops, sid, poolOf)
    ensures Stands(ApplyAll(kv, ops), seen, sid, poolOf)
    decreases |ops|
  {
    if ops != [] {
      ScriptStands(kv, ops[0], seen, sid, poolOf);
      CalmStands(Apply(kv, ops[0]), ops[1..], seen, sid, poolOf);
    }
  }

  lemma {:induction false} ScriptSpares(kv: KV, op: Op, pod: Pod, sid: Sid)
    requires IdleExact(kv.idle, kv.workers) && Spares(op, pod) && WorkerHolds(kv.workers, pod, sid)
    ensures WorkerHolds(Apply(kv, op).workers, pod, sid)
  {
    if op.Claim? {
      assert InSet(kv.idle, op.pool, op.pod) <==> IdleIn(kv.workers, op.pool, op.pod);
    } else if IsSessionScript(op) || op.Ensure? || op.Prune? {
      OnlyWorkerScriptsWriteWorkers(kv, op);
    }
  }

  lemma {:induction false} CalmSpares(kv: KV, ops: seq<Op>, pod: Pod, seen: SessionEntry, sid: Sid, poolOf: Pod -> Pool)
    requires Stands(kv, seen, sid, poolOf) && Calm(ops, sid, poolOf)
    requires Spared(ops, pod) && WorkerHolds(kv.workers, pod, sid)
    ensures WorkerHolds(ApplyAll(kv, ops).workers, pod, sid)
    decreases |ops|
  {
    if ops != [] {
      ScriptStands(kv, ops[0], seen, sid, poolOf);
      ScriptSpares(kv, ops[0], pod, sid);
      CalmSpares(Apply(kv, ops[0]), ops[1..], pod, seen, sid, poolOf);
    }
  }

  // ---- one compare-and-set loop that no other writer of the session disturbs ----

  ghost predicate CalmSlot(slot: C.Slot, sid: Sid, poolOf: Pod -> Pool) {
    Calm(slot.beforeRead, sid, poolOf) && Calm(slot.beforeWrite, sid, poolOf)
  }

  /** The store refuses the loop's read or its write. */
  predicate Refused(seed: Option<SessionEntry>, env: seq<C.Slot>)
    requires env != []
  {
    C.ReadRefused(seed, env, 0) || env[0].writeFails
  }

  /** Every worker the slot's scripts spare still holds the session. */
  ghost predicate HoldsKept(before: KV, after: KV, slot: C.Slot, sid: Sid) {
    forall pod | Spared(slot.beforeRead, pod) && Spared(slot.beforeWrite, pod) ::
      WorkerHolds(before.workers, pod, sid) ==> WorkerHolds(after.workers, pod, sid)
  }

  lemma {:induction false} SlotStands(kv: KV, env: seq<C.Slot>, seen: SessionEntry, sid: Sid, poolOf: Pod -> Pool)
    requires env != [] && CalmSlot(env[0], sid, poolOf) && Stands(kv, seen, sid, poolOf)
    ensures Stands(C.AtRead(kv, env, 0), seen, sid, poolOf) && Stands(C.AtWrite(kv, env, 0), seen, sid, poolOf)
  {
    assert env[..0] == [];
    CalmStands(kv, env[0].beforeRead, seen, sid, poolOf);
    CalmStands(C.AtRead(kv, env, 0), env[0].beforeWrite, seen, sid, poolOf);
  }

  lemma {:induction false} SlotKeepsHolds(kv: KV, env: seq<C.Slot>, seen: SessionEntry, sid: Sid, poolOf: Pod -> Pool)
    requires env != [] && CalmSlot(env[0], sid, poolOf) && Stands(kv, seen, sid, poolOf)
    ensures HoldsKept(kv, C.AtRead(kv, env, 0), env[0], sid) && HoldsKept(kv, C.AtWrite(kv, env, 0), env[0], sid)
  {
    assert env[..0] == [];
    var read, write := C.AtRead(kv, env, 0), C.AtWrite(kv, env, 0);
    SlotStands(kv, env, seen, sid, poolOf);
    forall pod | Spared(env[0].beforeRead, pod) && Spared(env[0].beforeWrite, pod) && WorkerHolds(kv.workers, pod, sid)
      ensures WorkerHolds(read.workers, pod, sid) && WorkerHolds(write.workers, pod, sid)
    {
      CalmSpares(kv, env[0].beforeRead, pod, seen, sid, poolOf);
      CalmSpares(read, env[0].beforeWrite, pod, seen, sid, poolOf);
    }
  }

  lemma {:induction false} NeverMoved(kv: KV, seed: Option<SessionEntry>, env: seq<C.Slot>, seen: SessionEntry,
                                      sid: Sid, poolOf: Pod -> Pool)
    requires env != [] && CalmSlot(env[0], sid, poolOf)
    requires Stands(kv, seen, sid, poolOf) && (seed.Some? ==> SameButActivity(seed.value, seen))
    ensures !C.Moved(kv, seed, env, 0, sid) && SameButActivity(C.CopyOf(kv, seed, env, 0, sid), seen)
  {
    SlotStands(kv, env, seen, sid, poolOf);
  }

  /** The table the others' scripts leave around the first attempt. */
  function LoopEnd(kv: KV, seed: Option<SessionEntry>, env: seq<C.Slot>): KV
    requires env != []
  {
    if C.ReadRefused(seed, env, 0) then C.AtRead(kv, env, 0) else C.AtWrite(kv, env, 0)
  }

  predicate SameWorkers(a: KV, b: KV) {
    a.workers == b.workers && a.idle == b.idle
  }

  /** What the first attempt leaves: the edited entry or the one seen, and of the workers what the others left. */
  ghost predicate Decided(after: KV, ok: bool, edited: SessionEntry, seen: SessionEntry, left: KV, sid: Sid,
                          poolOf: Pod -> Pool) {
    && Stands(after, if ok then edited.(version := edited.version + 1) else seen, sid, poolOf)
    && SameWorkers(after, left)
  }

  lemma {:induction false} WriteDecides(kv: KV, e: SessionEntry, now: int, seen: SessionEntry, poolOf: Pod -> Pool)
    requires Good(kv, poolOf) && CasWins(kv, e)
    ensures Decided(CasSession(kv, e, now), true, e, seen, kv, e.sid, poolOf)
  {
    CasKeepsSessionInv(kv, e, now);
  }

  lemma {:induction false} FirstAttemptDecides(kv: KV, seed: Option<SessionEntry>, env: seq<C.Slot>, sid: Sid,
                                               edit: SessionEntry -> SessionEntry, mutate: C.Mutation, now: int,
                                               outcome: C.Outcome, after: KV, seen: SessionEntry, poolOf: Pod -> Pool)
    requires env != [] && CalmSlot(env[0], sid, poolOf)
    requires Stands(kv, seen, sid, poolOf) && (seed.Some? ==> SameButActivity(seed.value, seen))
    requires forall e :: mutate(e) == Some(edit(e)) && edit(e).sid == e.sid
    requires C.Explains(kv, seed, env, 0, sid, true, mutate, now, outcome, after) && !outcome.Conflict?
    ensures outcome.Written? <==> !Refused(seed, env)
    ensures Decided(after, outcome.Written?, edit(C.CopyOf(kv, seed, env, 0, sid)), seen, LoopEnd(kv, seed, env), sid,
                    poolOf)
  {
    SlotStands(kv, env, seen, sid, poolOf);
    NeverMoved(kv, seed, env, seen, sid, poolOf);
    if outcome.Written? {
      WriteDecides(C.AtWrite(kv, env, 0), outcome.entry, now, seen, poolOf);
    }
  }

  /** No other writer, so the first attempt decides: the edit of the entry, or a store error and nothing written. */
  method CasAlone(store: S.Store, sid: Sid, seed: Option<SessionEntry>, edit: SessionEntry -> SessionEntry, now: int,
                  env: seq<C.Slot>, ghost seen: SessionEntry, ghost poolOf: Pod -> Pool)
    returns (ok: bool, ghost copy: SessionEntry)
    requires |env| == MAX_TRIES && CalmSlot(env[0], sid, poolOf)
    requires Stands(store.View(), seen, sid, poolOf) && (seed.Some? ==> SameButActivity(seed.value, seen))
    requires forall e :: edit(e).sid == e.sid && edit(e).version == e.version
    modifies store
    ensures ok <==> !Refused(seed, env)
    ensures SameButActivity(copy, seen)
    ensures Decided(store.View(), ok, edit(copy), seen, LoopEnd(old(store.View()), seed, env), sid, poolOf)
  {
    ghost var kv := store.View();
    var mutate: C.Mutation := e => Some(edit(e));
    NeverMoved(kv, seed, env, seen, sid, poolOf);
    ghost var tries;
    var outcome;
    outcome, tries := C.CasSession(store, sid, seed, true, mutate, now, env);
    if tries > 0 {
      C.FirstMoved(kv, seed, env, tries, sid);
    }
    FirstAttemptDecides(kv, seed, env, sid, edit, mutate, now, outcome, store.View(), seen, poolOf);
    return outcome.Written?, C.CopyOf(kv, seed, env, 0, sid);
  }

  // ---- the restore ----

  /** What happens around one restore: the others' scripts between its own, and which of its calls fail. */
  datatype Conditions = Conditions(
    beforeClaim: seq<Op>,
    claimFails: bool,
    resuming: seq<C.Slot>,
    duringCall: seq<Op>,
    workerOk: bool,
    running: seq<C.Slot>,
    beforeRelease: seq<Op>,
    releaseFails: bool,
    rollingBack: seq<C.Slot>)

  ghost predicate AllCalm(env: Conditions, sid: Sid, poolOf: Pod -> Pool) {
    && |env.resuming| == |env.running| == |env.rollingBack| == MAX_TRIES
    && Calm(env.beforeClaim, sid, poolOf) && Calm(env.duringCall, sid, poolOf) && Calm(env.beforeRelease, sid, poolOf)
    && CalmSlot(env.resuming[0], sid, poolOf) && CalmSlot(env.running[0], sid, poolOf)
    && CalmSlot(env.rollingBack[0], sid, poolOf)
  }

  /** Up to the Running write, nobody takes the worker away. */
  ghost predicate SparedThroughout(env: Conditions, pod: Pod)
    requires env.resuming != [] && env.running != []
  {
    && Spared(env.resuming[0].beforeRead, pod) && Spared(env.resuming[0].beforeWrite, pod)
    && Spared(env.duringCall, pod)
    && Spared(env.running[0].beforeRead, pod) && Spared(env.running[0].beforeWrite, pod)
  }

  /** The Resuming write, the worker's restore or the Running write fails. */
  predicate BindFails(cur: SessionEntry, env: Conditions)
    requires env.resuming != [] && env.running != []
  {
    Refused(Some(cur), env.resuming) || !env.workerOk || Refused(None, env.running)
  }

  /** The entry, moved to `state` on the worker. */
  predicate On(e: SessionEntry, base: SessionEntry, state: SessionState, w: WorkerEntry) {
    e == base.(state := state, workerPod := w.pod, workerPodIP := w.podIP, version := e.version,
               lastActiveAt := e.lastActiveAt)
  }

  datatype Outcome =
    | NoPool
    | NoCapacity
    | Failed(w: WorkerEntry, rolledBack: bool)
    | Restored(w: WorkerEntry)

  lemma {:induction false} ClaimStands(kv: KV, cur: SessionEntry, pod: Pod, poolOf: Pod -> Pool)
    requires Stands(kv, cur, cur.sid, poolOf) && InSet(kv.idle, cur.pool, pod)
    ensures var after := ClaimWorker(kv, cur.pool, pod, cur.sid);
      && Stands(after, cur, cur.sid, poolOf) && WorkerHolds(after.workers, pod, cur.sid)
      && pod in kv.workers && after.workers[pod] == Claimed(kv.workers[pod], cur.sid)
      && kv.workers[pod].pod == pod && kv.workers[pod].pool == cur.pool
  {
    assert IdleIn(kv.workers, cur.pool, pod);
    ScriptStands(kv, Claim(cur.pool, pod, cur.sid), cur, cur.sid, poolOf);
  }

  /** startAndBind on a restore: mark Resuming, have the worker restore, mark Running. */
  method StartAndBind(store: S.Store, cur: SessionEntry, w: WorkerEntry, now: int, env: Conditions,
                      ghost poolOf: Pod -> Pool)
    returns (ok: bool)
    requires Resting(cur) && w.pool == cur.pool && AllCalm(env, cur.sid, poolOf)
    requires Stands(store.View(), cur, cur.sid, poolOf)
    modifies store
    ensures Good(store.View(), poolOf) && cur.sid in store.View().sessions
    ensures ok <==> !BindFails(cur, env)
    ensures ok ==> On(store.View().sessions[cur.sid], cur, Running, w)
    ensures !ok ==>
      var e := store.View().sessions[cur.sid];
      if Refused(Some(cur), env.resuming) then Same(e, cur) else On(e, cur, Resuming, w)
    ensures ok && SparedThroughout(env, w.pod) && WorkerHolds(old(store.View()).workers, w.pod, cur.sid) ==>
      WorkerHolds(store.View().workers, w.pod, cur.sid)
  {
    ghost var begun := store.View();
    ghost var copy;
    ok, copy := CasAlone(store, cur.sid, Some(cur), e => MarkResuming(e, w, RestoreSpec(cur)), now, env.resuming, cur,
      poolOf);
    if !ok {
      return;
    }
    ghost var kv := store.View();
    ghost var marked := MarkResuming(copy, w, RestoreSpec(cur)).(version := copy.version + 1);
    assert On(marked, cur, Resuming, w);
    C.Interfere(store, env.duringCall);
    CalmStands(kv, env.duringCall, marked, cur.sid, poolOf);
    if SparedThroughout(env, w.pod) && WorkerHolds(begun.workers, w.pod, cur.sid) {
      SlotKeepsHolds(begun, env.resuming, cur, cur.sid, poolOf);
      CalmSpares(kv, env.duringCall, w.pod, marked, cur.sid, poolOf);
      SlotKeepsHolds(store.View(), env.running, marked, cur.sid, poolOf);
    }
    if !env.workerOk {
      return false;
    }
    ok, copy := CasAlone(store, cur.sid, None, e => MarkRunning(e, w.podIP), now, env.running, marked, poolOf);
  }

  /** The worker is idle in its pool, unless its entry was removed meanwhile. */
  predicate Freed(released: KV, w: WorkerEntry) {
    w.pod in released.workers ==> IdleIn(released.workers, w.pool, w.pod) && InSet(released.idle, w.pool, w.pod)
  }

  lemma {:induction false} ReleaseFrees(kv: KV, w: WorkerEntry, seen: SessionEntry, sid: Sid, poolOf: Pod -> Pool)
    requires Stands(kv, seen, sid, poolOf) && w.pool == poolOf(w.pod)
    ensures var after := ReleaseWorker(kv, w.pod, w.pool); Freed(after, w) && Stands(after, seen, sid, poolOf)
  {
    ScriptStands(kv, Op.Release(w.pod, w.pool), seen, sid, poolOf);
  }

  /** Release the worker, then roll the entry back. */
  method Undo(store: S.Store, cur: SessionEntry, w: WorkerEntry, now: int, env: Conditions, ghost poolOf: Pod -> Pool)
    returns (rolledBack: bool, ghost released: KV)
    requires Resting(cur) && w.pool == poolOf(w.pod) && AllCalm(env, cur.sid, poolOf)
    requires Good(store.View(), poolOf) && cur.sid in store.View().sessions
    requires var e := store.View().sessions[cur.sid]; Same(e, cur) || On(e, cur, Resuming, w)
    modifies store
    ensures Good(store.View(), poolOf) && cur.sid in store.View().sessions
    ensures var reached := ApplyAll(old(store.View()), env.beforeRelease);
      released == if env.releaseFails then reached else ReleaseWorker(reached, w.pod, w.pool)
    ensures !env.releaseFails ==> Freed(released, w)
    ensures SameWorkers(store.View(), LoopEnd(released, None, env.rollingBack))
    ensures rolledBack <==> !Refused(None, env.rollingBack)
    ensures var e := store.View().sessions[cur.sid];
      if rolledBack then Same(e, cur) else SameButActivity(old(store.View()).sessions[cur.sid], e)
  {
    ghost var kv := store.View();
    ghost var seen := kv.sessions[cur.sid];
    C.Interfere(store, env.beforeRelease);
    CalmStands(kv, env.beforeRelease, seen, cur.sid, poolOf);
    if !env.releaseFails {
      ReleaseFrees(store.View(), w, seen, cur.sid, poolOf);
      store.Release(w.pod, w.pool);
    }
    released := store.View();
    ghost var copy;
    rolledBack, copy := CasAlone(store, cur.sid, None, e => RollBack(e), now, env.rollingBack, seen, poolOf);
    if rolledBack {
      RollingBackRests(copy, cur);
    }
  }

  /** resumeFromSnapshot, given the entry just read: it claims a worker of the entry's pool and binds the session to it,
      or gives the worker back and leaves the entry as it was. */
  method ResumeFromSnapshot(store: S.Store, cur: SessionEntry, now: int, env: Conditions, ghost poolOf: Pod -> Pool)
    returns (outcome: Outcome, ghost released: KV)
    requires cur.pool != "" ==> Resting(cur)
    requires AllCalm(env, cur.sid, poolOf) && Stands(store.View(), cur, cur.sid, poolOf)
    modifies store
    ensures Good(store.View(), poolOf) && cur.sid in store.View().sessions
    ensures outcome.NoPool? <==> cur.pool == ""
    ensures outcome.NoPool? ==> store.View() == old(store.View())
    ensures var asked := ApplyAll(old(store.View()), env.beforeClaim);
      && (outcome.NoCapacity? <==> cur.pool != "" && (env.claimFails || Members(asked.idle, cur.pool) == {}))
      && (outcome.NoCapacity? ==> store.View() == asked)
      && (outcome.Failed? || outcome.Restored? ==>
            && ClaimSucceeds(asked, cur.pool, outcome.w.pod)
            && outcome.w == Claimed(asked.workers[outcome.w.pod], cur.sid))
    ensures outcome.Failed? ==>
      && BindFails(cur, env)
      && (!env.releaseFails ==> Freed(released, outcome.w))
      && SameWorkers(store.View(), LoopEnd(released, None, env.rollingBack))
      && (outcome.rolledBack <==> !Refused(None, env.rollingBack))
      && var e := store.View().sessions[cur.sid];
         if outcome.rolledBack || Refused(Some(cur), env.resuming) then Same(e, cur)
         else On(e, cur, Resuming, outcome.w)
    ensures outcome.Restored? ==>
      && !BindFails(cur, env)
      && On(store.View().sessions[cur.sid], cur, Running, outcome.w)
      && (SparedThroughout(env, outcome.w.pod) ==> WorkerHolds(store.View().workers, outcome.w.pod, cur.sid))
  {
    ghost var kv := store.View();
    released := kv;
    if cur.pool == "" {
      return NoPool, kv;
    }
    C.Interfere(store, env.beforeClaim);
    CalmStands(kv, env.beforeClaim, cur, cur.sid, poolOf);
    if env.claimFails {
      return NoCapacity, kv;
    }
    ghost var asked := store.View();
    var claim := store.Claim(cur.pool, cur.sid);
    if claim.None? {
      return NoCapacity, kv;
    }
    var w := claim.value;
    ghost var drawn :|
      && drawn in Members(asked.idle, cur.pool) && store.View() == ClaimWorker(asked, cur.pool, drawn, cur.sid)
      && claim == if drawn in asked.workers then Some(Claimed(asked.workers[drawn], cur.sid)) else None;
    assert InSet(asked.idle, cur.pool, drawn);
    ClaimStands(asked, cur, drawn, poolOf);
    var ok := StartAndBind(store, cur, w, now, env, poolOf);
    if ok {
      return Restored(w), kv;
    }
    var rolledBack;
    rolledBack, released := Undo(store, cur, w, now, env, poolOf);
    return Outcome.Failed(w, rolledBack), released;
  }
}
