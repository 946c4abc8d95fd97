/** Why binding safety needs its hypotheses: for each of them a run that meets all the others and leaves a Running
    session on an idle worker. And what the fence does not promise: a run that meets all of them and gives a session two
    workers. */
module Hazards {
  import opened Records
  import opened Assign
  import opened Mutations
  import opened Protocol
  import opened Binding
  import Collections

  /** Where pods belong, and which hypotheses a run may break. */
  datatype Ground = Ground(poolOf: Pod -> Pool, dropped: set<Hypothesis>)

  /** A set of worlds no allowed step leads out of. */
  ghost predicate Closed(s: iset<World>, g: Ground) {
    forall w, st | w in s && AllowedBut(w, st, g.dropped) :: Next(w, st, g.poolOf) in s
  }

  /** `w` is in every closed set around the empty world. */
  ghost predicate Reaches(w: World, g: Ground) {
    forall s: iset<World> | INIT in s && Closed(s, g) :: w in s
  }

  lemma {:induction false} Then(w: World, st: Step, g: Ground)
    requires Reaches(w, g) && AllowedBut(w, st, g.dropped)
    ensures Reaches(Next(w, st, g.poolOf), g)
  {
  }

  lemma {:induction false} Start(g: Ground)
    ensures Reaches(INIT, g)
  {
  }

  lemma {:induction false} RunSnoc(w: World, steps: seq<Step>, st: Step, g: Ground)
    requires AllowedRunBut(w, steps, g.poolOf, g.dropped) && AllowedBut(Final(w, steps, g.poolOf), st, g.dropped)
    ensures AllowedRunBut(w, steps + [st], g.poolOf, g.dropped)
    ensures Final(w, steps + [st], g.poolOf) == Next(Final(w, steps, g.poolOf), st, g.poolOf)
    decreases |steps|
  {
    if steps == [] {
      assert steps + [st] == [st];
      var w' := Next(w, st, g.poolOf);
      assert AllowedRunBut(w', [], g.poolOf, g.dropped) && Final(w', [], g.poolOf) == w';
    } else {
      assert (steps + [st])[1..] == steps[1..] + [st];
      RunSnoc(Next(w, steps[0], g.poolOf), steps[1..], st, g);
    }
  }

  ghost predicate ByRun(w: World, g: Ground) {
    exists steps :: AllowedRunBut(INIT, steps, g.poolOf, g.dropped) && Final(INIT, steps, g.poolOf) == w
  }

  /** What is reached is the end of a run. */
  lemma {:induction false} ReachedByRun(w: World, g: Ground)
    requires Reaches(w, g)
    ensures ByRun(w, g)
  {
    var s := iset x | ByRun(x, g);
    assert INIT in s by {
      assert AllowedRunBut(INIT, [], g.poolOf, g.dropped) && Final(INIT, [], g.poolOf) == INIT;
    }
    forall x, st | x in s && AllowedBut(x, st, g.dropped) ensures Next(x, st, g.poolOf) in s {
      var steps :| AllowedRunBut(INIT, steps, g.poolOf, g.dropped) && Final(INIT, steps, g.poolOf) == x;
      RunSnoc(INIT, steps, st, g);
    }
  }

  /** Without the hypothesis, some run that meets all the others breaks binding safety. */
  ghost predicate Needed(h: Hypothesis, poolOf: Pod -> Pool) {
    exists steps :: AllowedRunBut(INIT, steps, poolOf, {h}) && !BindingSafe(Final(INIT, steps, poolOf).kv)
  }

  lemma {:induction false} NeededBy(h: Hypothesis, w: World, g: Ground)
    requires g.dropped == {h} && Reaches(w, g) && !BindingSafe(w.kv)
    ensures Needed(h, g.poolOf)
  {
    ReachedByRun(w, g);
  }

  /** A store that answers, a worker that does as told, and a cold-start plan. */
  function Going(ok: bool, drawn: Pod, pool: Pool, b: BindSpec): Choice {
    Choice(false, ok, drawn, 1, SnapshotReply("snap", "", "", ""), Some((pool, b)))
  }

  /** One action of one client, extending a run. */
  lemma {:induction false} Acts(w: World, id: nat, c: Client, ch: Choice, g: Ground)
    returns (w': World)
    requires Reaches(w, g) && id in w.clients && w.clients[id] == c && ch.reply.snapshot != ""
    ensures Reaches(w', g)
    ensures w'.kv == Act(w, c, ch).kv && (!c.Deleting? ==> w'.incs == w.incs)
    ensures w'.mirrored == w.mirrored + Mirrors(w, c, ch)
    ensures w'.clients ==
            if Act(w, c, ch).next.Some? then w.clients[id := Act(w, c, ch).next.value] else w.clients - {id}
  {
    w' := Next(w, Do(id, ch), g.poolOf);
    Then(w, Do(id, ch), g);
  }

  lemma {:induction false} WriteEffect(w: World, plan: Plan, copy: Copy, ch: Choice)
    requires !ch.kvError && CasWins(w.kv, Edit(plan, copy.e, ch.now))
    ensures Act(w, Writing(plan, 0, copy), ch) ==
            Effect(CasSession(w.kv, Edit(plan, copy.e, ch.now), ch.now), OnSuccess(plan))
  {
  }

  lemma {:induction false} ReadEffect(w: World, plan: Plan, ch: Choice)
    requires !ch.kvError && PlanSid(plan) in w.kv.sessions && Guard(plan, w.kv.sessions[PlanSid(plan)])
    ensures Act(w, Reading(plan, 0), ch) ==
            Effect(w.kv, Some(Writing(plan, 0, Copy(w.kv.sessions[PlanSid(plan)], IncOf(w, PlanSid(plan))))))
  {
  }

  lemma {:induction false} Spawns(w: World, id: nat, c: Client, g: Ground) returns (w': World)
    requires Reaches(w, g) && AllowedBut(w, Spawn(id, c), g.dropped)
    ensures Reaches(w', g) && w'.kv == w.kv && w'.clients == w.clients[id := c]
    ensures w'.mirrored == w.mirrored && w'.incs == w.incs && w'.retired == w.retired
  {
    w' := Next(w, Spawn(id, c), g.poolOf);
    Then(w, Spawn(id, c), g);
  }

  // ---- a cold start, one action at a time ----

  lemma {:induction false} Plans(w: World, id: nat, sid: Sid, pool: Pool, pod: Pod, b: BindSpec, g: Ground)
    returns (w': World)
    requires Reaches(w, g) && id in w.clients && w.clients[id] == ResumeStart(sid)
    requires sid != "" && sid !in w.kv.sessions && !b.restore
    ensures Reaches(w', g) && w'.kv == w.kv && w'.clients == w.clients[id := ResumeClaim(sid, None, b, pool)]
  {
    w' := Acts(w, id, ResumeStart(sid), Going(true, pod, pool, b), g);
  }

  lemma {:induction false} Draws(w: World, id: nat, sid: Sid, pool: Pool, pod: Pod, b: BindSpec, g: Ground)
    returns (w': World)
    requires Reaches(w, g) && id in w.clients && w.clients[id] == ResumeClaim(sid, None, b, pool) && sid != ""
    requires InSet(w.kv.idle, pool, pod) && pod in w.kv.workers && !b.restore
    ensures Reaches(w', g) && w'.kv == ClaimWorker(w.kv, pool, pod, sid)
    ensures w'.clients == w.clients[id := Reading(ToResuming(sid, Claimed(w.kv.workers[pod], sid), b), 0)]
  {
    w' := Acts(w, id, ResumeClaim(sid, None, b, pool), Going(true, pod, pool, b), g);
  }

  /** A cold start of an absent session claims the drawn worker. */
  lemma {:induction false} ColdStartClaims(w: World, id: nat, sid: Sid, pool: Pool, pod: Pod, b: BindSpec, g: Ground)
    returns (w': World)
    requires Reaches(w, g) && id !in w.clients && sid != "" && sid !in w.kv.sessions && !b.restore
    requires Alone(w, sid) || NoOverlapping in g.dropped
    requires InSet(w.kv.idle, pool, pod) && pod in w.kv.workers
    ensures Reaches(w', g) && w'.kv == ClaimWorker(w.kv, pool, pod, sid)
    ensures w'.clients == w.clients[id := Reading(ToResuming(sid, Claimed(w.kv.workers[pod], sid), b), 0)]
  {
    var w1 := Spawns(w, id, ResumeStart(sid), g);
    var w2 := Plans(w1, id, sid, pool, pod, b, g);
    w' := Draws(w2, id, sid, pool, pod, b, g);
  }

  lemma {:induction false} FindsNothing(w: World, id: nat, sid: Sid, v: WorkerEntry, b: BindSpec, g: Ground)
    returns (w': World)
    requires Reaches(w, g) && id in w.clients && w.clients[id] == Reading(ToResuming(sid, v, b), 0)
    requires sid !in w.kv.sessions
    ensures Reaches(w', g) && w'.kv == w.kv
    ensures w'.clients == w.clients[id := Writing(ToResuming(sid, v, b), 0, Copy(FreshEntry(sid), IncOf(w, sid)))]
  {
    w' := Acts(w, id, Reading(ToResuming(sid, v, b), 0), Going(true, v.pod, v.pool, b), g);
  }

  lemma {:induction false} Creates(w: World, id: nat, sid: Sid, v: WorkerEntry, b: BindSpec, inc: nat, g: Ground)
    returns (w': World)
    requires Reaches(w, g) && id in w.clients && sid !in w.kv.sessions
    requires w.clients[id] == Writing(ToResuming(sid, v, b), 0, Copy(FreshEntry(sid), inc))
    ensures Reaches(w', g)
    ensures w'.clients == w.clients[id := Calling(ToResuming(sid, v, b))]
    ensures w'.kv.workers == w.kv.workers && w'.kv.idle == w.kv.idle
    ensures w'.kv.sessions == w.kv.sessions[sid := MarkResuming(FreshEntry(sid), v, b).(version := 1)]
  {
    var plan := ToResuming(sid, v, b);
    w' := Acts(w, id, Writing(plan, 0, Copy(FreshEntry(sid), inc)), Going(true, v.pod, v.pool, b), g);
  }

  /** Its loop creates the entry in the Resuming state, and it calls the worker. */
  lemma {:induction false} ColdStartCalls(w: World, id: nat, sid: Sid, v: WorkerEntry, b: BindSpec, g: Ground)
    returns (w': World)
    requires Reaches(w, g) && id in w.clients && w.clients[id] == Reading(ToResuming(sid, v, b), 0)
    requires sid !in w.kv.sessions
    ensures Reaches(w', g)
    ensures w'.clients == w.clients[id := Calling(ToResuming(sid, v, b))]
    ensures w'.kv.workers == w.kv.workers && w'.kv.idle == w.kv.idle
    ensures w'.kv.sessions == w.kv.sessions[sid := MarkResuming(FreshEntry(sid), v, b).(version := 1)]
  {
    var w1 := FindsNothing(w, id, sid, v, b, g);
    w' := Creates(w1, id, sid, v, b, IncOf(w, sid), g);
  }

  lemma {:induction false} CallFails(w: World, id: nat, sid: Sid, v: WorkerEntry, b: BindSpec, g: Ground)
    returns (w': World)
    requires Reaches(w, g) && id in w.clients && w.clients[id] == Calling(ToResuming(sid, v, b)) && !b.restore
    ensures Reaches(w', g) && w'.kv == w.kv
    ensures w'.clients == w.clients[id := Releasing(sid, v.pod, v.pool, Finish)]
  {
    w' := Acts(w, id, Calling(ToResuming(sid, v, b)), Going(false, v.pod, v.pool, b), g);
  }

  lemma {:induction false} Frees(w: World, id: nat, sid: Sid, pod: Pod, pool: Pool, after: AfterRelease, g: Ground)
    returns (w': World)
    requires Reaches(w, g) && id in w.clients && w.clients[id] == Releasing(sid, pod, pool, after)
    ensures Reaches(w', g) && w'.kv == ReleaseWorker(w.kv, pod, pool)
    ensures w'.mirrored == w.mirrored && (after == Finish ==> w'.clients == w.clients - {id})
  {
    var ch := Choice(false, true, pod, 1, SnapshotReply("snap", "", "", ""), None);
    w' := Acts(w, id, Releasing(sid, pod, pool, after), ch, g);
  }

  /** If the worker then fails, the entry stays Resuming and names a pod that is idle again. */
  lemma {:induction false} FailedColdStartReleases(w: World, id: nat, sid: Sid, v: WorkerEntry, b: BindSpec, g: Ground)
    returns (w': World)
    requires Reaches(w, g) && id in w.clients && w.clients[id] == Calling(ToResuming(sid, v, b)) && !b.restore
    ensures Reaches(w', g)
    ensures w'.clients == w.clients - {id} && w'.kv == ReleaseWorker(w.kv, v.pod, v.pool)
  {
    var w1 := CallFails(w, id, sid, v, b, g);
    w' := Frees(w1, id, sid, v.pod, v.pool, Finish, g);
    Collections.UpdateThenRemove(w.clients, id, Releasing(sid, v.pod, v.pool, Finish));
  }

  /** If the worker answers, the client goes on to mark the session Running. */
  lemma {:induction false} ColdStartAnswered(w: World, id: nat, sid: Sid, v: WorkerEntry, b: BindSpec, g: Ground)
    returns (w': World)
    requires Reaches(w, g) && id in w.clients && w.clients[id] == Calling(ToResuming(sid, v, b))
    ensures Reaches(w', g)
    ensures w'.clients == w.clients[id := Reading(ToRunning(sid, v, b), 0)] && w'.kv == w.kv
  {
    w' := Acts(w, id, Calling(ToResuming(sid, v, b)), Going(true, v.pod, v.pool, b), g);
  }

  lemma {:induction false} Finds(w: World, id: nat, sid: Sid, v: WorkerEntry, b: BindSpec, g: Ground)
    returns (w': World)
    requires Reaches(w, g) && id in w.clients && w.clients[id] == Reading(ToRunning(sid, v, b), 0)
    requires sid in w.kv.sessions && w.kv.sessions[sid].sid == sid
    ensures Reaches(w', g) && w'.kv == w.kv
    ensures w'.clients == w.clients[id := Writing(ToRunning(sid, v, b), 0, Copy(w.kv.sessions[sid], IncOf(w, sid)))]
  {
    var ch := Going(true, v.pod, v.pool, b);
    ReadEffect(w, ToRunning(sid, v, b), ch);
    w' := Acts(w, id, Reading(ToRunning(sid, v, b), 0), ch, g);
  }

  lemma {:induction false} Marks(w: World, id: nat, sid: Sid, v: WorkerEntry, b: BindSpec, inc: nat, g: Ground)
    returns (w': World)
    requires Reaches(w, g) && id in w.clients && sid in w.kv.sessions && w.kv.sessions[sid].sid == sid
    requires w.clients[id] == Writing(ToRunning(sid, v, b), 0, Copy(w.kv.sessions[sid], inc))
    ensures Reaches(w', g)
    ensures w'.clients == w.clients - {id} && w'.kv.workers == w.kv.workers && w'.kv.idle == w.kv.idle
    ensures w'.kv.sessions ==
            w.kv.sessions[sid := MarkRunning(w.kv.sessions[sid], v.podIP).(version := w.kv.sessions[sid].version + 1)]
  {
    var ch := Going(true, v.pod, v.pool, b);
    var plan, copy := ToRunning(sid, v, b), Copy(w.kv.sessions[sid], inc);
    WriteEffect(w, plan, copy, ch);
    w' := Acts(w, id, Writing(plan, 0, copy), ch, g);
  }

  lemma {:induction false} ColdStartRuns(w: World, id: nat, sid: Sid, v: WorkerEntry, b: BindSpec, g: Ground)
    returns (w': World)
    requires Reaches(w, g) && id in w.clients && w.clients[id] == Reading(ToRunning(sid, v, b), 0)
    requires sid in w.kv.sessions && w.kv.sessions[sid].sid == sid
    ensures Reaches(w', g)
    ensures w'.clients == w.clients - {id} && w'.kv.workers == w.kv.workers && w'.kv.idle == w.kv.idle
    ensures w'.kv.sessions ==
            w.kv.sessions[sid := MarkRunning(w.kv.sessions[sid], v.podIP).(version := w.kv.sessions[sid].version + 1)]
  {
    var w1 := Finds(w, id, sid, v, b, g);
    w' := Marks(w1, id, sid, v, b, IncOf(w, sid), g);
    var writing := Writing(ToRunning(sid, v, b), 0, Copy(w.kv.sessions[sid], IncOf(w, sid)));
    Collections.UpdateThenRemove(w.clients, id, writing);
  }

  // ---- the delete ----

  lemma {:induction false} DeleteFinds(w: World, id: nat, sid: Sid, g: Ground)
    returns (w': World)
    requires Reaches(w, g) && id in w.clients && w.clients[id] == DeleteStart(sid)
    requires sid in w.kv.sessions && w.kv.sessions[sid].workerPod != ""
    ensures Reaches(w', g) && w'.kv == w.kv
    ensures w'.clients ==
            w.clients[id := Releasing(sid, w.kv.sessions[sid].workerPod, w.kv.sessions[sid].pool, ThenDelete)]
  {
    var ch := Choice(false, true, "", 1, SnapshotReply("snap", "", "", ""), None);
    w' := Acts(w, id, DeleteStart(sid), ch, g);
  }

  lemma {:induction false} DeleteReleases(w: World, id: nat, sid: Sid, g: Ground)
    returns (w': World)
    requires Reaches(w, g) && id !in w.clients && sid != "" && Alone(w, sid) && NoDeleteRelease in g.dropped
    requires sid in w.kv.sessions && w.kv.sessions[sid].workerPod != ""
    ensures Reaches(w', g)
    ensures w'.kv == ReleaseWorker(w.kv, w.kv.sessions[sid].workerPod, w.kv.sessions[sid].pool)
  {
    var w1 := Spawns(w, id, DeleteStart(sid), g);
    var w2 := DeleteFinds(w1, id, sid, g);
    w' := Frees(w2, id, sid, w.kv.sessions[sid].workerPod, w.kv.sessions[sid].pool, ThenDelete, g);
  }

  /** The entry a cold start creates, and what it becomes. */
  lemma {:induction false} ColdEntries(sid: Sid, v: WorkerEntry, b: BindSpec)
    ensures var e := MarkResuming(FreshEntry(sid), v, b);
      && e.sid == sid && e.state.Resuming? && e.workerPod == v.pod && e.workerPodIP == v.podIP && e.pool == v.pool
      && MarkRunning(e, v.podIP).state.Running? && MarkRunning(e, v.podIP).workerPod == v.pod
  {
  }

  /** A claim and a release leave the worker idle in its pool. */
  lemma {:induction false} ClaimThenRelease(kv: KV, between: KV, pool: Pool, pod: Pod, sid: Sid)
    requires InSet(kv.idle, pool, pod) && pod in kv.workers && kv.workers[pod].pod == pod
    requires kv.workers[pod].pool == pool
    requires between.workers == ClaimWorker(kv, pool, pod, sid).workers
    requires between.idle == ClaimWorker(kv, pool, pod, sid).idle
    ensures var after := ReleaseWorker(between, pod, pool);
      && InSet(after.idle, pool, pod) && pod in after.workers && after.workers[pod].pod == pod
      && after.workers[pod].state.Idle?
      && after.workers[pod].pool == pool
      && after.sessions == between.sessions
  {
  }

  /** A cold start as far as the call to its worker. */
  lemma {:induction false} ColdStartCalled(w: World, id: nat, sid: Sid, pool: Pool, pod: Pod, b: BindSpec, g: Ground)
    returns (w': World)
    requires Reaches(w, g) && id !in w.clients && sid != "" && sid !in w.kv.sessions && !b.restore
    requires Alone(w, sid) || NoOverlapping in g.dropped
    requires InSet(w.kv.idle, pool, pod) && pod in w.kv.workers
    ensures Reaches(w', g)
    ensures var v := Claimed(w.kv.workers[pod], sid);
      && w'.clients == w.clients[id := Calling(ToResuming(sid, v, b))]
      && w'.kv.workers == ClaimWorker(w.kv, pool, pod, sid).workers
      && w'.kv.idle == ClaimWorker(w.kv, pool, pod, sid).idle
      && w'.kv.sessions == w.kv.sessions[sid := MarkResuming(FreshEntry(sid), v, b).(version := 1)]
  {
    var v := Claimed(w.kv.workers[pod], sid);
    var w1 := ColdStartClaims(w, id, sid, pool, pod, b, g);
    Collections.UpdateTwice(w.clients, id, Reading(ToResuming(sid, v, b), 0), Calling(ToResuming(sid, v, b)));
    w' := ColdStartCalls(w1, id, sid, v, b, g);
  }

  /** A failed cold start of `sid` leaves its worker idle and its entry naming that worker. */
  lemma {:induction false} FailedColdStart(w: World, id: nat, sid: Sid, pool: Pool, pod: Pod, b: BindSpec, g: Ground)
    returns (w': World, e: SessionEntry)
    requires Reaches(w, g) && id !in w.clients && sid != "" && sid !in w.kv.sessions && !b.restore
    requires Alone(w, sid) || NoOverlapping in g.dropped
    requires InSet(w.kv.idle, pool, pod) && pod in w.kv.workers && w.kv.workers[pod].pod == pod
    requires w.kv.workers[pod].pool == pool
    ensures Reaches(w', g) && w'.clients == w.clients
    ensures InSet(w'.kv.idle, pool, pod) && pod in w'.kv.workers && w'.kv.workers[pod].state.Idle?
    ensures w'.kv.workers[pod].pod == pod && w'.kv.workers[pod].pool == pool
    ensures e.sid == sid && e.state.Resuming? && e.workerPod == pod && e.workerPodIP == w.kv.workers[pod].podIP
    ensures e.pool == pool && w'.kv.sessions == w.kv.sessions[sid := e]
  {
    var v := Claimed(w.kv.workers[pod], sid);
    e := MarkResuming(FreshEntry(sid), v, b).(version := 1);
    ColdEntries(sid, v, b);
    var w1 := ColdStartCalled(w, id, sid, pool, pod, b, g);
    ClaimThenRelease(w.kv, w1.kv, pool, pod, sid);
    Collections.UpdateThenRemove(w.clients, id, Calling(ToResuming(sid, v, b)));
    w' := FailedColdStartReleases(w1, id, sid, v, b, g);
  }

  /** A successful one leaves the session Running on the worker. */
  lemma {:induction false} ColdStart(w: World, id: nat, sid: Sid, pool: Pool, pod: Pod, b: BindSpec, g: Ground)
    returns (w': World, e: SessionEntry)
    requires Reaches(w, g) && id !in w.clients && sid != "" && sid !in w.kv.sessions && !b.restore
    requires Alone(w, sid) || NoOverlapping in g.dropped
    requires InSet(w.kv.idle, pool, pod) && pod in w.kv.workers && w.kv.workers[pod].pod == pod
    ensures Reaches(w', g) && w'.clients.Keys == w.clients.Keys
    ensures w'.kv.workers == ClaimWorker(w.kv, pool, pod, sid).workers
    ensures w'.kv.idle == ClaimWorker(w.kv, pool, pod, sid).idle
    ensures e.sid == sid && e.state.Running? && e.workerPod == pod && e.workerPodIP == w.kv.workers[pod].podIP
    ensures e.snapshotURI == "" && w'.kv.sessions == w.kv.sessions[sid := e]
  {
    var v := Claimed(w.kv.workers[pod], sid);
    var made := MarkResuming(FreshEntry(sid), v, b).(version := 1);
    e := MarkRunning(made, v.podIP).(version := 2);
    ColdEntries(sid, v, b);
    Collections.UpdateTwice(w.kv.sessions, sid, made, e);
    var w1 := ColdStartCalled(w, id, sid, pool, pod, b, g);
    var w2 := ColdStartAnswered(w1, id, sid, v, b, g);
    w' := ColdStartRuns(w2, id, sid, v, b, g);
  }

  lemma {:induction false} ReleaseBreaks(kv: KV, pod: Pod, pool: Pool, sid: Sid)
    requires sid in kv.sessions && kv.sessions[sid].state.Running? && kv.sessions[sid].workerPod == pod
    requires pod in kv.workers
    ensures !BindingSafe(ReleaseWorker(kv, pod, pool))
  {
    var after := ReleaseWorker(kv, pod, pool);
    assert after.sessions == kv.sessions && !WorkerHolds(after.workers, pod, sid);
  }

  // ---- the world around ----

  const SPEC := BindSpec(false, "img", [], None, "", "", "", "", 0, 0, 0, 0)

  /** A registered pod is idle in its pool. */
  lemma {:induction false} Registers(w: World, pod: Pod, g: Ground) returns (w': World)
    requires Reaches(w, g) && pod != "" && pod !in w.kv.workers
    requires pod !in w.retired || NoReregistration in g.dropped
    ensures Reaches(w', g) && w'.clients == w.clients && w'.kv.sessions == w.kv.sessions && w'.retired == w.retired
    ensures InSet(w'.kv.idle, g.poolOf(pod), pod) && w'.kv.workers.Keys == w.kv.workers.Keys + {pod}
    ensures w'.kv.workers[pod] == WorkerEntry(pod, g.poolOf(pod), "ip", Idle, "", 1)
    ensures forall other <- w.kv.workers :: w'.kv.workers[other] == w.kv.workers[other]
    ensures forall pool, other | InSet(w.kv.idle, pool, other) :: InSet(w'.kv.idle, pool, other)
  {
    w' := Next(w, Register(pod, "ip", 1), g.poolOf);
    Then(w, Register(pod, "ip", 1), g);
  }

  lemma {:induction false} Unregisters(w: World, pod: Pod, g: Ground) returns (w': World)
    requires Reaches(w, g)
    ensures Reaches(w', g) && w'.kv.sessions == w.kv.sessions && pod !in w'.kv.workers
  {
    w' := Next(w, Unregister(pod), g.poolOf);
    Then(w, Unregister(pod), g);
  }

  lemma {:induction false} Expires(w: World, sid: Sid, g: Ground) returns (w': World)
    requires Reaches(w, g)
    ensures Reaches(w', g) && w'.kv == DeleteSession(w.kv, sid) && w'.clients == w.clients && w'.mirrored == w.mirrored
  {
    w' := Next(w, Expire(sid), g.poolOf);
    Then(w, Expire(sid), g);
  }

  lemma {:induction false} StillIdle(kv: KV, pool: Pool, p: Pod, pool': Pool, q: Pod, sid: Sid)
    requires p != q && InSet(kv.idle, pool', q) && q in kv.workers
    ensures var after := ClaimWorker(kv, pool, p, sid);
      && InSet(after.idle, pool', q) && q in after.workers && after.workers[q] == kv.workers[q]
      && after.sessions == kv.sessions
  {
  }

  lemma {:induction false} ClaimKeepsSessions(kv: KV, pool: Pool, pod: Pod, sid: Sid)
    ensures ClaimWorker(kv, pool, pod, sid).sessions == kv.sessions
  {
  }

  // ---- the delete-time release ----

  /** A failed cold start of `a`, a cold start of `b` on the released pod, then the delete of `a`: `b` is Running on a
      worker that is idle and claimable. One client at a time throughout. */
  lemma {:induction false} DeleteBreaksBinding(poolOf: Pod -> Pool)
    ensures Needed(NoDeleteRelease, poolOf)
  {
    var g := Ground(poolOf, {NoDeleteRelease});
    Start(g);
    var w1 := Registers(INIT, "p", g);
    var w2, ea := FailedColdStart(w1, 0, "a", poolOf("p"), "p", SPEC, g);
    var w3, eb := ColdStart(w2, 1, "b", poolOf("p"), "p", SPEC, g);
    assert w3.kv.sessions["a"] == ea && w3.kv.sessions["b"] == eb;
    var w4 := DeleteReleases(w3, 2, "a", g);
    ReleaseBreaks(w3.kv, "p", poolOf("p"), "b");
    NeededBy(NoDeleteRelease, w4, g);
  }

  // ---- a name registered again ----

  /** A pod that disappears and comes back under its old name is idle, while the session it ran still says Running. */
  lemma {:induction false} ReregistrationBreaksBinding(poolOf: Pod -> Pool)
    ensures Needed(NoReregistration, poolOf)
  {
    var g := Ground(poolOf, {NoReregistration});
    Start(g);
    var w1 := Registers(INIT, "p", g);
    var w2, e := ColdStart(w1, 0, "a", poolOf("p"), "p", SPEC, g);
    var w3 := Unregisters(w2, "p", g);
    var w4 := Registers(w3, "p", g);
    assert w4.kv.sessions["a"] == e && !WorkerHolds(w4.kv.workers, "p", "a");
    NeededBy(NoReregistration, w4, g);
  }

  // ---- two resumes of one session ----

  lemma {:induction false} FindsResuming(w: World, id: nat, sid: Sid, v: WorkerEntry, b: BindSpec, g: Ground)
    returns (w': World)
    requires Reaches(w, g) && id in w.clients && w.clients[id] == Reading(ToResuming(sid, v, b), 0)
    requires sid in w.kv.sessions
    ensures Reaches(w', g) && w'.kv == w.kv
    ensures w'.clients == w.clients[id := Writing(ToResuming(sid, v, b), 0, Copy(w.kv.sessions[sid], IncOf(w, sid)))]
  {
    var ch := Going(true, v.pod, v.pool, b);
    ReadEffect(w, ToResuming(sid, v, b), ch);
    w' := Acts(w, id, Reading(ToResuming(sid, v, b), 0), ch, g);
  }

  lemma {:induction false} Rebinds(w: World, id: nat, sid: Sid, v: WorkerEntry, b: BindSpec, inc: nat, g: Ground)
    returns (w': World)
    requires Reaches(w, g) && id in w.clients && sid in w.kv.sessions && w.kv.sessions[sid].sid == sid
    requires w.clients[id] == Writing(ToResuming(sid, v, b), 0, Copy(w.kv.sessions[sid], inc))
    ensures Reaches(w', g) && w'.kv.workers == w.kv.workers && w'.kv.idle == w.kv.idle
    ensures w'.clients == w.clients[id := Calling(ToResuming(sid, v, b))]
    ensures w'.kv.sessions ==
            w.kv.sessions[sid := MarkResuming(w.kv.sessions[sid], v, b).(version := w.kv.sessions[sid].version + 1)]
  {
    var ch := Going(true, v.pod, v.pool, b);
    var plan, copy := ToResuming(sid, v, b), Copy(w.kv.sessions[sid], inc);
    WriteEffect(w, plan, copy, ch);
    w' := Acts(w, id, Writing(plan, 0, copy), ch, g);
  }

  /** The second resume rewrites the entry the first created, and calls its own worker. */
  lemma {:induction false} SecondCalls(w: World, id: nat, sid: Sid, v: WorkerEntry, b: BindSpec, g: Ground)
    returns (w': World)
    requires Reaches(w, g) && id in w.clients && w.clients[id] == Reading(ToResuming(sid, v, b), 0)
    requires sid in w.kv.sessions && w.kv.sessions[sid].sid == sid
    ensures Reaches(w', g) && w'.kv.workers == w.kv.workers
    ensures w'.clients == w.clients[id := Calling(ToResuming(sid, v, b))]
    ensures sid in w'.kv.sessions && w'.kv.sessions[sid].sid == sid && w'.kv.sessions[sid].workerPod == v.pod
  {
    var w1 := FindsResuming(w, id, sid, v, b, g);
    w' := Rebinds(w1, id, sid, v, b, IncOf(w, sid), g);
  }

  predicate Two(clients: map<nat, Client>, c: Client, d: Client) {
    0 in clients && 1 in clients && clients[0] == c && clients[1] == d
  }

  /** Two cold starts of one session, each with its own worker claimed. */
  lemma {:induction false} BothClaim(w: World, sid: Sid, p: Pod, pool: Pool, q: Pod, pool': Pool, b: BindSpec,
                                     g: Ground)
    returns (w': World)
    requires Reaches(w, g) && w.clients == map[] && sid != "" && sid !in w.kv.sessions && !b.restore && p != q
    requires NoOverlapping in g.dropped
    requires InSet(w.kv.idle, pool, p) && p in w.kv.workers && InSet(w.kv.idle, pool', q) && q in w.kv.workers
    ensures Reaches(w', g) && w'.kv.sessions == w.kv.sessions && q in w'.kv.workers
    ensures var v, u := Claimed(w.kv.workers[p], sid), Claimed(w.kv.workers[q], sid);
      Two(w'.clients, Reading(ToResuming(sid, v, b), 0), Reading(ToResuming(sid, u, b), 0))
  {
    var w1 := ColdStartClaims(w, 0, sid, pool, p, b, g);
    StillIdle(w.kv, pool, p, pool', q, sid);
    w' := ColdStartClaims(w1, 1, sid, pool', q, b, g);
    ClaimKeepsSessions(w1.kv, pool', q, sid);
  }

  /** Up to their calls, the entry names the second's worker. */
  lemma {:induction false} BothCall(w: World, sid: Sid, v: WorkerEntry, u: WorkerEntry, b: BindSpec, g: Ground)
    returns (w': World)
    requires Reaches(w, g) && sid !in w.kv.sessions
    requires Two(w.clients, Reading(ToResuming(sid, v, b), 0), Reading(ToResuming(sid, u, b), 0))
    ensures Reaches(w', g) && w'.kv.workers == w.kv.workers
    ensures Two(w'.clients, Calling(ToResuming(sid, v, b)), Calling(ToResuming(sid, u, b)))
    ensures sid in w'.kv.sessions && w'.kv.sessions[sid].sid == sid && w'.kv.sessions[sid].workerPod == u.pod
  {
    var w1 := ColdStartCalls(w, 0, sid, v, b, g);
    ColdEntries(sid, v, b);
    w' := SecondCalls(w1, 1, sid, u, b, g);
  }

  /** The first resume's worker answers and it marks the session Running, bound to the second's worker; then the
      second's call fails and it releases that worker. */
  lemma {:induction false} FirstRunsSecondFails(w: World, sid: Sid, v: WorkerEntry, u: WorkerEntry,
                                                b: BindSpec, g: Ground)
    returns (w': World)
    requires Reaches(w, g) && !b.restore && u.pod in w.kv.workers
    requires Two(w.clients, Calling(ToResuming(sid, v, b)), Calling(ToResuming(sid, u, b)))
    requires sid in w.kv.sessions && w.kv.sessions[sid].sid == sid && w.kv.sessions[sid].workerPod == u.pod
    ensures Reaches(w', g) && !BindingSafe(w'.kv)
  {
    var w1 := ColdStartAnswered(w, 0, sid, v, b, g);
    var w2 := ColdStartRuns(w1, 0, sid, v, b, g);
    ReleaseBreaks(w2.kv, u.pod, u.pool, sid);
    w' := FailedColdStartReleases(w2, 1, sid, u, b, g);
  }

  /** Two resumes of one session that overlap can leave it Running on a worker that is idle. */
  lemma {:induction false} OverlapBreaksBinding(poolOf: Pod -> Pool)
    ensures Needed(NoOverlapping, poolOf)
  {
    var g := Ground(poolOf, {NoOverlapping});
    Start(g);
    var w1 := Registers(INIT, "p", g);
    var w2 := Registers(w1, "q", g);
    var v, u := Claimed(w2.kv.workers["p"], "a"), Claimed(w2.kv.workers["q"], "a");
    var w3 := BothClaim(w2, "a", "p", poolOf("p"), "q", poolOf("q"), SPEC, g);
    var w4 := BothCall(w3, "a", v, u, SPEC, g);
    var w5 := FirstRunsSecondFails(w4, "a", v, u, SPEC, g);
    NeededBy(NoOverlapping, w5, g);
  }

  // ---- the healer ----

  lemma {:induction false} HealReads(w: World, id: nat, sid: Sid, g: Ground) returns (w': World)
    requires Reaches(w, g) && id in w.clients && w.clients[id] == HealStart(sid) && sid in w.kv.sessions
    requires w.kv.sessions[sid].state.Resuming? && w.kv.sessions[sid].workerPodIP != ""
    ensures Reaches(w', g) && w'.kv == w.kv
    ensures w'.clients == w.clients[id := Healing(Copy(w.kv.sessions[sid], IncOf(w, sid)))]
  {
    w' := Acts(w, id, HealStart(sid), Going(true, "", "", SPEC), g);
  }

  lemma {:induction false} HealProbes(w: World, id: nat, cur: Copy, g: Ground) returns (w': World)
    requires Reaches(w, g) && id in w.clients && w.clients[id] == Healing(cur)
    ensures Reaches(w', g) && w'.kv == w.kv
    ensures w'.clients == w.clients[id := Reading(ToPromoted(cur.e.sid, cur.e.workerPodIP), 0)]
  {
    w' := Acts(w, id, Healing(cur), Going(true, "", "", SPEC), g);
  }

  lemma {:induction false} HealFinds(w: World, id: nat, sid: Sid, ip: string, g: Ground) returns (w': World)
    requires Reaches(w, g) && id in w.clients && w.clients[id] == Reading(ToPromoted(sid, ip), 0)
    requires sid in w.kv.sessions && w.kv.sessions[sid].state.Resuming? && w.kv.sessions[sid].workerPodIP == ip
    ensures Reaches(w', g) && w'.kv == w.kv
    ensures w'.clients == w.clients[id := Writing(ToPromoted(sid, ip), 0, Copy(w.kv.sessions[sid], IncOf(w, sid)))]
  {
    var ch := Going(true, "", "", SPEC);
    ReadEffect(w, ToPromoted(sid, ip), ch);
    w' := Acts(w, id, Reading(ToPromoted(sid, ip), 0), ch, g);
  }

  lemma {:induction false} Promotes(w: World, id: nat, sid: Sid, ip: string, inc: nat, g: Ground) returns (w': World)
    requires Reaches(w, g) && id in w.clients && sid in w.kv.sessions && w.kv.sessions[sid].sid == sid
    requires w.clients[id] == Writing(ToPromoted(sid, ip), 0, Copy(w.kv.sessions[sid], inc))
    ensures Reaches(w', g) && w'.kv.workers == w.kv.workers && sid in w'.kv.sessions
    ensures w'.kv.sessions[sid].state.Running? && w'.kv.sessions[sid].workerPod == w.kv.sessions[sid].workerPod
  {
    var ch := Going(true, "", "", SPEC);
    var plan, copy := ToPromoted(sid, ip), Copy(w.kv.sessions[sid], inc);
    WriteEffect(w, plan, copy, ch);
    w' := Acts(w, id, Writing(plan, 0, copy), ch, g);
  }

  /** A cold start given up on, whose sandbox came up after all, is adopted on the worker it released. */
  lemma {:induction false} HealerBreaksBinding(poolOf: Pod -> Pool)
    ensures Needed(NoHealer, poolOf)
  {
    var g := Ground(poolOf, {NoHealer});
    Start(g);
    var w1 := Registers(INIT, "p", g);
    var w2, e := FailedColdStart(w1, 0, "a", poolOf("p"), "p", SPEC, g);
    assert w2.kv.sessions["a"] == e;
    var w3 := Spawns(w2, 0, HealStart("a"), g);
    var w4 := HealReads(w3, 0, "a", g);
    var w5 := HealProbes(w4, 0, Copy(e, IncOf(w3, "a")), g);
    var w6 := HealFinds(w5, 0, "a", "ip", g);
    var w7 := Promotes(w6, 0, "a", "ip", IncOf(w5, "a"), g);
    assert !WorkerHolds(w7.kv.workers, "p", "a") && "p" in w7.kv.workers;
    NeededBy(NoHealer, w7, g);
  }

  // ---- the rebuild ----

  lemma {:induction false} CheckpointReads(w: World, id: nat, sid: Sid, g: Ground) returns (w': World)
    requires Reaches(w, g) && id in w.clients && w.clients[id] == CheckpointStart(sid) && sid in w.kv.sessions
    requires Suspendable(w.kv.sessions[sid])
    ensures Reaches(w', g) && w'.kv == w.kv
    ensures w'.clients == w.clients[id := Checkpointing(Copy(w.kv.sessions[sid], IncOf(w, sid)))]
  {
    w' := Acts(w, id, CheckpointStart(sid), Going(true, "", "", SPEC), g);
  }

  lemma {:induction false} CheckpointAnswered(w: World, id: nat, cur: Copy, g: Ground) returns (w': World)
    requires Reaches(w, g) && id in w.clients && w.clients[id] == Checkpointing(cur)
    ensures Reaches(w', g) && w'.kv == w.kv
    ensures w'.clients == w.clients[id := Writing(ToCheckpointed(cur.e, Going(true, "", "", SPEC).reply), 0, cur)]
  {
    w' := Acts(w, id, Checkpointing(cur), Going(true, "", "", SPEC), g);
  }

  /** The checkpointed entry, still Running on its worker, goes to the mirror. */
  lemma {:induction false} CheckpointMirrored(w: World, id: nat, sid: Sid, inc: nat, g: Ground)
    returns (w': World, m: SessionEntry)
    requires Reaches(w, g) && id in w.clients && sid in w.kv.sessions && w.kv.sessions[sid].sid == sid
    requires var e := w.kv.sessions[sid];
      w.clients[id] == Writing(ToCheckpointed(e, Going(true, "", "", SPEC).reply), 0, Copy(e, inc))
    ensures Reaches(w', g) && w'.kv.workers == w.kv.workers && w'.clients == w.clients - {id}
    ensures m in w'.mirrored && m.sid == sid && m.state == w.kv.sessions[sid].state
    ensures m.workerPod == w.kv.sessions[sid].workerPod
  {
    var ch := Going(true, "", "", SPEC);
    var plan, copy := ToCheckpointed(w.kv.sessions[sid], ch.reply), Copy(w.kv.sessions[sid], inc);
    WriteEffect(w, plan, copy, ch);
    m := Edit(plan, copy.e, ch.now);
    w' := Acts(w, id, Writing(plan, 0, copy), ch, g);
  }

  lemma {:induction false} Reclaims(w: World, id: nat, v: WorkerEntry, g: Ground) returns (w': World)
    requires Reaches(w, g) && id in w.clients && w.clients[id] == ReclaimCheck(v) && v.sid !in w.kv.sessions
    ensures Reaches(w', g) && w'.kv == w.kv && w'.clients == w.clients[id := Releasing(v.sid, v.pod, v.pool, Finish)]
    ensures w'.mirrored == w.mirrored
  {
    w' := Acts(w, id, ReclaimCheck(v), Going(true, "", "", SPEC), g);
  }

  lemma {:induction false} CreateReads(w: World, id: nat, e: SessionEntry, g: Ground) returns (w': World)
    requires Reaches(w, g) && id in w.clients && w.clients[id] == CreateStart(e) && e.sid !in w.kv.sessions
    ensures Reaches(w', g) && w'.kv == w.kv
    ensures w'.clients == w.clients[id := Writing(ToCreated(e), MAX_TRIES - 1, Copy(e, IncOf(w, e.sid)))]
  {
    w' := Acts(w, id, CreateStart(e), Going(true, "", "", SPEC), g);
  }

  lemma {:induction false} CreateWrites(w: World, id: nat, e: SessionEntry, inc: nat, g: Ground) returns (w': World)
    requires Reaches(w, g) && id in w.clients && e.sid !in w.kv.sessions && e.version == 0
    requires w.clients[id] == Writing(ToCreated(e), MAX_TRIES - 1, Copy(e, inc))
    ensures Reaches(w', g) && w'.kv.workers == w.kv.workers
    ensures w'.kv.sessions == w.kv.sessions[e.sid := e.(version := 1)]
  {
    w' := Acts(w, id, Writing(ToCreated(e), MAX_TRIES - 1, Copy(e, inc)), Going(true, "", "", SPEC), g);
  }

  /** A Running session is checkpointed, and so mirrored. */
  lemma {:induction false} Checkpoints(w: World, sid: Sid, g: Ground) returns (w': World, m: SessionEntry)
    requires Reaches(w, g) && w.clients.Keys == {} && sid != "" && sid in w.kv.sessions
    requires w.kv.sessions[sid].sid == sid && Suspendable(w.kv.sessions[sid])
    ensures Reaches(w', g) && w'.kv.workers == w.kv.workers && w'.clients.Keys == {}
    ensures m in w'.mirrored && m.sid == sid && m.state.Running? && m.workerPod == w.kv.sessions[sid].workerPod
  {
    var w1 := Spawns(w, 0, CheckpointStart(sid), g);
    var w2 := CheckpointReads(w1, 0, sid, g);
    var w3 := CheckpointAnswered(w2, 0, Copy(w.kv.sessions[sid], IncOf(w1, sid)), g);
    w', m := CheckpointMirrored(w3, 0, sid, IncOf(w1, sid), g);
  }

  /** Once the entry is gone, its worker is reclaimed as an orphan. */
  lemma {:induction false} OrphanReclaimed(w: World, pod: Pod, g: Ground) returns (w': World)
    requires Reaches(w, g) && w.clients.Keys == {} && pod in w.kv.workers && w.kv.workers[pod].state.Busy?
    requires w.kv.workers[pod].pod == pod && w.kv.workers[pod].sid != "" && w.kv.workers[pod].sid !in w.kv.sessions
    ensures Reaches(w', g) && w'.kv == ReleaseWorker(w.kv, pod, w.kv.workers[pod].pool)
    ensures w'.clients.Keys == {} && w'.mirrored == w.mirrored
  {
    var v := w.kv.workers[pod];
    var w1 := Spawns(w, 0, ReclaimCheck(v), g);
    var w2 := Reclaims(w1, 0, v, g);
    w' := Frees(w2, 0, v.sid, v.pod, v.pool, Finish, g);
  }

  /** The mirrored entry is written back as it was, Running. */
  lemma {:induction false} Rebuilds(w: World, m: SessionEntry, g: Ground) returns (w': World)
    requires Reaches(w, g) && w.clients.Keys == {} && m in w.mirrored && m.sid != "" && m.sid !in w.kv.sessions
    requires NoRebuild in g.dropped
    ensures Reaches(w', g) && w'.kv.workers == w.kv.workers && m.sid in w'.kv.sessions
    ensures w'.kv.sessions[m.sid].state == m.state && w'.kv.sessions[m.sid].workerPod == m.workerPod
  {
    var e := Rebuilt(m, 0);
    assert Creatable(w, e);
    var w1 := Spawns(w, 0, CreateStart(e), g);
    var w2 := CreateReads(w1, 0, e, g);
    w' := CreateWrites(w2, 0, e, IncOf(w1, e.sid), g);
  }

  /** A checkpointed Running session loses its entry, its worker is reclaimed as an orphan, and the rebuild writes the
      mirrored entry back: Running on an idle worker. */
  lemma {:induction false} RebuildBreaksBinding(poolOf: Pod -> Pool)
    ensures Needed(NoRebuild, poolOf)
  {
    var g := Ground(poolOf, {NoRebuild});
    Start(g);
    var w1 := Registers(INIT, "p", g);
    var w2, e := ColdStart(w1, 0, "a", poolOf("p"), "p", SPEC, g);
    var w3, m := Checkpoints(w2, "a", g);
    var w4 := Expires(w3, "a", g);
    var w5 := OrphanReclaimed(w4, "p", g);
    var w6 := Rebuilds(w5, m, g);
    assert !WorkerHolds(w6.kv.workers, "p", "a") && "p" in w6.kv.workers;
    NeededBy(NoRebuild, w6, g);
  }

  // ---- what the fence does not promise ----

  lemma {:induction false} ResumeReads(w: World, id: nat, sid: Sid, g: Ground) returns (w': World)
    requires Reaches(w, g) && id in w.clients && w.clients[id] == ResumeStart(sid) && sid in w.kv.sessions
    requires Suspendable(w.kv.sessions[sid])
    ensures Reaches(w', g) && w'.kv == w.kv
    ensures w'.clients == w.clients[id := ResumeFence(Copy(w.kv.sessions[sid], IncOf(w, sid)))]
  {
    w' := Acts(w, id, ResumeStart(sid), Going(true, "", "", SPEC), g);
  }

  /** The worker cannot be read, and the resume goes on as if it were gone. */
  lemma {:induction false} ReadFails(w: World, id: nat, cur: Copy, pool: Pool, g: Ground) returns (w': World)
    requires Reaches(w, g) && id in w.clients && w.clients[id] == ResumeFence(cur)
    requires cur.e.state.Running? && cur.e.snapshotURI == ""
    ensures Reaches(w', g) && w'.kv == w.kv
    ensures w'.clients == w.clients[id := ResumeClaim(cur.e.sid, Some(cur), SPEC, pool)]
  {
    w' := Acts(w, id, ResumeFence(cur), Going(true, "", pool, SPEC).(kvError := true), g);
  }

  lemma {:induction false} ClaimsAnother(w: World, id: nat, sid: Sid, seed: Copy, pool: Pool, pod: Pod, g: Ground)
    returns (w': World)
    requires Reaches(w, g) && id in w.clients && w.clients[id] == ResumeClaim(sid, Some(seed), SPEC, pool)
    requires InSet(w.kv.idle, pool, pod) && pod in w.kv.workers
    ensures Reaches(w', g) && w'.kv == ClaimWorker(w.kv, pool, pod, sid)
  {
    w' := Acts(w, id, ResumeClaim(sid, Some(seed), SPEC, pool), Going(true, pod, pool, SPEC), g);
  }

  /** The session is Running on `p`, and both `p` and `q` are busy with it. */
  predicate TwoWorkers(kv: KV, sid: Sid, p: Pod, q: Pod) {
    && p != q && sid in kv.sessions && kv.sessions[sid].state.Running? && kv.sessions[sid].workerPod == p
    && WorkerHolds(kv.workers, p, sid) && WorkerHolds(kv.workers, q, sid)
  }

  lemma {:induction false} ClaimsASecond(w: World, id: nat, sid: Sid, pool: Pool, pod: Pod, g: Ground)
    returns (w': World)
    requires Reaches(w, g) && w.clients == map[] && sid != "" && sid in w.kv.sessions && w.kv.sessions[sid].sid == sid
    requires Suspendable(w.kv.sessions[sid]) && w.kv.sessions[sid].snapshotURI == ""
    requires InSet(w.kv.idle, pool, pod) && pod in w.kv.workers
    ensures Reaches(w', g) && w'.kv == ClaimWorker(w.kv, pool, pod, sid)
  {
    var w4 := Spawns(w, id, ResumeStart(sid), g);
    var w5 := ResumeReads(w4, id, sid, g);
    var cur := Copy(w.kv.sessions[sid], IncOf(w4, sid));
    var w6 := ReadFails(w5, id, cur, pool, g);
    w' := ClaimsAnother(w6, id, sid, cur, pool, pod, g);
  }

  lemma {:induction false} BothBusy(kv: KV, pool: Pool, p: Pod, q: Pod, sid: Sid)
    requires p != q && p != "" && q != "" && WorkerHolds(kv.workers, p, sid)
    requires InSet(kv.idle, pool, q) && q in kv.workers
    ensures var after := ClaimWorker(kv, pool, q, sid);
      WorkerHolds(after.workers, p, sid) && WorkerHolds(after.workers, q, sid) && after.sessions == kv.sessions
  {
  }

  /** A run that meets every hypothesis in which one failed read lets a resume claim a second worker for a session that
      is Running on a live one: two workers are busy with it at once. */
  lemma {:induction false} FailedReadClaimsASecondWorker(poolOf: Pod -> Pool)
    ensures exists steps :: AllowedRun(INIT, steps, poolOf) && TwoWorkers(Final(INIT, steps, poolOf).kv, "a", "p", "q")
  {
    var g := Ground(poolOf, {});
    Start(g);
    var w1 := Registers(INIT, "p", g);
    var w2 := Registers(w1, "q", g);
    StillIdle(w2.kv, poolOf("p"), "p", poolOf("q"), "q", "a");
    var w3, e := ColdStart(w2, 0, "a", poolOf("p"), "p", SPEC, g);
    var w4 := ClaimsASecond(w3, 0, "a", poolOf("q"), "q", g);
    BothBusy(w3.kv, poolOf("q"), "p", "q", "a");
    ReachedByRun(w4, g);
  }
}
