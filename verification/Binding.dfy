/** Binding safety: over every run in which operations on one session do not overlap, a removed pod name is not
    registered again, and the delete-time release, the healer and the rebuild are out of the step set, a Running
    session whose worker entry exists is exactly the session that worker is busy with. */
module Binding {
  import opened Records
  import opened Assign
  import opened Protocol
  import opened Lineage

  // ---- the hypotheses ----

  /** Everything but the creation of an absent entry is an operation on its session. */
  predicate IsOperation(c: Client) {
    !c.CreateStart? && !(c.Writing? && c.plan.ToCreated?)
  }

  ghost predicate NoOverlap(w: World) {
    forall i <- w.clients, j <- w.clients | i != j && IsOperation(w.clients[i]) && IsOperation(w.clients[j]) ::
      ClientSid(w.clients[i]) != ClientSid(w.clients[j])
  }

  /** What binding safety asks of a run beyond what the protocol enforces. */
  datatype Hypothesis = NoOverlapping | NoReregistration | NoDeleteRelease | NoHealer | NoRebuild

  /** A step that meets every hypothesis but those dropped. */
  ghost predicate AllowedBut(w: World, st: Step, dropped: set<Hypothesis>) {
    && Enabled(w, st)
    && (st.Spawn? ==>
          && (st.c.DeleteStart? ==> NoDeleteRelease in dropped)
          && (st.c.HealStart? ==> NoHealer in dropped)
          && (st.c.CreateStart? ==> (st.c.e.version == 0 && st.c.e.state.Suspended?) || NoRebuild in dropped)
          && (IsOperation(st.c) ==> Alone(w, ClientSid(st.c)) || NoOverlapping in dropped))
    && (st.Register? ==> st.pod !in w.retired || NoReregistration in dropped)
  }

  /** No operation on the session is under way. */
  ghost predicate Alone(w: World, sid: Sid) {
    forall id <- w.clients | IsOperation(w.clients[id]) :: ClientSid(w.clients[id]) != sid
  }

  ghost predicate Allowed(w: World, st: Step) {
    AllowedBut(w, st, {})
  }

  ghost predicate AllowedRunBut(w: World, steps: seq<Step>, poolOf: Pod -> Pool, dropped: set<Hypothesis>)
    decreases |steps|
  {
    steps == [] ||
    (AllowedBut(w, steps[0], dropped) && AllowedRunBut(Next(w, steps[0], poolOf), steps[1..], poolOf, dropped))
  }

  ghost predicate AllowedRun(w: World, steps: seq<Step>, poolOf: Pod -> Pool) {
    AllowedRunBut(w, steps, poolOf, {})
  }

  // ---- the invariant ----

  /** `sid` may count on `pod`: it is known, and if its entry exists it is busy with `sid`. */
  predicate Owns(workers: map<Pod, WorkerEntry>, retired: set<Pod>, sid: Sid, pod: Pod) {
    pod == "" || (pod in workers && workers[pod].state.Busy? && workers[pod].sid == sid) ||
    (pod !in workers && pod in retired)
  }

  /** The session is not Running on `pod`. */
  predicate Away(sessions: map<Sid, SessionEntry>, sid: Sid, pod: Pod) {
    sid in sessions && sessions[sid].state.Running? ==> sessions[sid].workerPod != pod || pod == ""
  }

  predicate Stopped(sessions: map<Sid, SessionEntry>, sid: Sid) {
    sid in sessions ==> !sessions[sid].state.Running?
  }

  /** Not Running, and bound to `pod` if bound at all. */
  predicate BoundHere(sessions: map<Sid, SessionEntry>, sid: Sid, pod: Pod) {
    Stopped(sessions, sid) && (sid in sessions ==> sessions[sid].workerPod == "" || sessions[sid].workerPod == pod)
  }

  predicate PlanOwns(sessions: map<Sid, SessionEntry>, workers: map<Pod, WorkerEntry>, retired: set<Pod>,
                     plan: Plan, called: bool) {
    match plan
    case ToResuming(sid, w, _) =>
      Owns(workers, retired, sid, w.pod) && Away(sessions, sid, w.pod) && (called ==> BoundHere(sessions, sid, w.pod))
    case ToRunning(sid, w, _) => Owns(workers, retired, sid, w.pod) && BoundHere(sessions, sid, w.pod)
    case ToSuspending(e, _) => Owns(workers, retired, e.sid, e.workerPod) && (called ==> Stopped(sessions, e.sid))
    case ToSuspended(e, _, _) => Owns(workers, retired, e.sid, e.workerPod) && Stopped(sessions, e.sid)
    case ToCheckpointed(e, _) => Owns(workers, retired, e.sid, e.workerPod)
    case ToRolledBack(_) => true
    case ToCreated(e) => e.state.Suspended?
    case _ => false
  }

  predicate CopyOwns(workers: map<Pod, WorkerEntry>, retired: set<Pod>, e: SessionEntry) {
    e.state.Running? ==> Owns(workers, retired, e.sid, e.workerPod)
  }

  predicate ClientOwns(sessions: map<Sid, SessionEntry>, workers: map<Pod, WorkerEntry>, retired: set<Pod>, c: Client) {
    match c
    case ResumeFence(cur) => Owns(workers, retired, cur.e.sid, cur.e.workerPod) && cur.e.state.Running?
    case ResumeClaim(sid, seed, _, _) =>
      seed.Some? ==> seed.value.e.sid == sid && CopyOwns(workers, retired, seed.value.e)
    case Checkpointing(cur) => Owns(workers, retired, cur.e.sid, cur.e.workerPod)
    case ReclaimCheck(v) => Owns(workers, retired, v.sid, v.pod) && v.sid != ""
    case Reading(plan, _) => PlanOwns(sessions, workers, retired, plan, false) && !plan.ToCreated?
    case Calling(plan) => PlanOwns(sessions, workers, retired, plan, true)
    case Writing(plan, _, local) =>
      && PlanOwns(sessions, workers, retired, plan, false)
      && local.e.sid == PlanSid(plan)
      && CopyOwns(workers, retired, local.e)
      && (plan.ToRunning? ==> local.e.workerPod == "" || local.e.workerPod == plan.w.pod)
      && (plan.ToCreated? ==> local.e == plan.e)
    case Releasing(sid, pod, _, _) => Owns(workers, retired, sid, pod) && Away(sessions, sid, pod)
    case HealStart(_) => false
    case Healing(_) => false
    case DeleteStart(_) => false
    case CreateStart(e) => e.state.Suspended? && e.version == 0
    case _ => true
  }

  ghost predicate RunningOwned(sessions: map<Sid, SessionEntry>, workers: map<Pod, WorkerEntry>, retired: set<Pod>) {
    forall sid <- sessions | sessions[sid].state.Running? :: Owns(workers, retired, sid, sessions[sid].workerPod)
  }

  ghost predicate BindInv(w: World, poolOf: Pod -> Pool) {
    && Shape(w, poolOf)
    && NoOverlap(w)
    && RunningOwned(w.kv.sessions, w.kv.workers, w.retired)
    && (forall id <- w.clients :: ClientOwns(w.kv.sessions, w.kv.workers, w.retired, w.clients[id]))
  }

  // ---- what one script leaves to the clients that did not run it ----

  /** The session keeps its entry up to the stamp, loses it, or becomes Suspended and unbound. */
  predicate Softer(sessions: map<Sid, SessionEntry>, sessions': map<Sid, SessionEntry>, sid: Sid) {
    || sid !in sessions'
    || (sid in sessions && SameButActivity(sessions[sid], sessions'[sid]))
    || (sessions'[sid].state.Suspended? && sessions'[sid].workerPod == "")
  }

  ghost predicate OwnsKept(workers: map<Pod, WorkerEntry>, retired: set<Pod>,
                           workers': map<Pod, WorkerEntry>, retired': set<Pod>, sid: Sid) {
    forall pod | Owns(workers, retired, sid, pod) :: Owns(workers', retired', sid, pod)
  }

  lemma {:induction false} ClientFrame(sessions: map<Sid, SessionEntry>, workers: map<Pod, WorkerEntry>,
                                       retired: set<Pod>,
                                       sessions': map<Sid, SessionEntry>, workers': map<Pod, WorkerEntry>,
                                       retired': set<Pod>, c: Client)
    requires ClientOwns(sessions, workers, retired, c)
    requires Softer(sessions, sessions', ClientSid(c)) && OwnsKept(workers, retired, workers', retired', ClientSid(c))
    ensures ClientOwns(sessions', workers', retired', c)
  {
  }

  // ---- ownership survives every step but the owner's own release ----

  predicate IsReleaseOf(w: World, st: Step, sid: Sid, pod: Pod) {
    && st.Do? && st.id in w.clients && !st.ch.kvError
    && w.clients[st.id].Releasing? && w.clients[st.id].sid == sid && w.clients[st.id].pod == pod
  }

  lemma {:induction false} ClaimKeepsOwns(kv: KV, retired: set<Pod>, pool: Pool, drawn: Pod, owner: Sid, sid: Sid,
                                          pod: Pod)
    requires IdleExact(kv.idle, kv.workers) && Owns(kv.workers, retired, sid, pod)
    ensures Owns(ClaimWorker(kv, pool, drawn, owner).workers, retired, sid, pod)
  {
    if InSet(kv.idle, pool, drawn) {
      assert IdleIn(kv.workers, pool, drawn);
    }
  }

  lemma {:induction false} ReleaseKeepsOwns(kv: KV, retired: set<Pod>, owner: Sid, released: Pod, pool: Pool, sid: Sid,
                                            pod: Pod)
    requires Owns(kv.workers, retired, sid, pod) && Owns(kv.workers, retired, owner, released) && "" !in kv.workers
    requires !(sid == owner && pod == released)
    ensures Owns(ReleaseWorker(kv, released, pool).workers, retired, sid, pod)
  {
  }

  /** Ownership through one script: a release must not be the owner's own, a registration must be of a fresh name. */
  lemma {:induction false} ScriptKeepsOwns(kv: KV, retired: set<Pod>, op: Op, retired': set<Pod>, sid: Sid, pod: Pod)
    requires IdleExact(kv.idle, kv.workers) && "" !in kv.workers && Owns(kv.workers, retired, sid, pod)
    requires retired <= retired' && (op.Remove? ==> op.pod in retired' || op.pod !in kv.workers)
    requires op.Upsert? ==> op.w.state.Idle? && op.w.pod !in retired && op.w.pod != ""
    requires op.Release? ==>
      exists owner :: Owns(kv.workers, retired, owner, op.pod) && !(sid == owner && pod == op.pod)
    ensures Owns(Apply(kv, op).workers, retired', sid, pod)
  {
    match op
    case Claim(pool, drawn, owner) => ClaimKeepsOwns(kv, retired, pool, drawn, owner, sid, pod);
    case Release(released, pool) =>
      var owner :| Owns(kv.workers, retired, owner, released) && !(sid == owner && pod == released);
      ReleaseKeepsOwns(kv, retired, owner, released, pool, sid, pod);
    case _ =>
  }

  lemma {:induction false} StepKeepsOwns(w: World, st: Step, poolOf: Pod -> Pool, sid: Sid, pod: Pod)
    requires BindInv(w, poolOf) && Allowed(w, st) && Owns(w.kv.workers, w.retired, sid, pod)
    requires !IsReleaseOf(w, st, sid, pod)
    ensures var w' := Next(w, st, poolOf); Owns(w'.kv.workers, w'.retired, sid, pod)
  {
    StepIsOneScript(w, st, poolOf);
    var op := StepOp(w, st, poolOf);
    StepRetires(w, st, poolOf);
    if op.Some? {
      StepOpFits(w, st, poolOf, sid, pod);
      ScriptKeepsOwns(w.kv, w.retired, op.value, Next(w, st, poolOf).retired, sid, pod);
    }
  }

  lemma {:induction false} StepRetires(w: World, st: Step, poolOf: Pod -> Pool)
    ensures w.retired <= Next(w, st, poolOf).retired
  {
  }

  /** What a step's script may be, as ownership needs it. */
  lemma {:induction false} StepOpFits(w: World, st: Step, poolOf: Pod -> Pool, sid: Sid, pod: Pod)
    requires BindInv(w, poolOf) && Allowed(w, st) && !IsReleaseOf(w, st, sid, pod) && StepOp(w, st, poolOf).Some?
    ensures var op := StepOp(w, st, poolOf).value;
      && (op.Remove? ==> op.pod in Next(w, st, poolOf).retired || op.pod !in w.kv.workers)
      && (op.Upsert? ==> op.w.state.Idle? && op.w.pod !in w.retired && op.w.pod != "")
      && (op.Release? ==>
            exists owner :: Owns(w.kv.workers, w.retired, owner, op.pod) && !(sid == owner && pod == op.pod))
  {
    if st.Do? {
      assert ClientOwns(w.kv.sessions, w.kv.workers, w.retired, w.clients[st.id]);
    }
  }

  // ---- the client that acts ----

  /** The state an acting client reads. */
  ghost predicate ActorPre(w: World, c: Client, poolOf: Pod -> Pool) {
    && TableInv(w.kv) && EntriesOk(w.kv.sessions, poolOf) && PodsOk(w.kv.workers, poolOf)
    && RunningOwned(w.kv.sessions, w.kv.workers, w.retired)
    && ClientOk(c, poolOf) && ClientOwns(w.kv.sessions, w.kv.workers, w.retired, c)
  }

  lemma {:induction false} ReaderResume(w: World, c: Client, ch: Choice, poolOf: Pod -> Pool)
    requires ActorPre(w, c, poolOf) && (c.ResumeStart? || c.ResumeFence?)
    ensures ActResume(w, c, ch).next.Some? ==>
      ClientOwns(w.kv.sessions, w.kv.workers, w.retired, ActResume(w, c, ch).next.value)
  {
  }

  lemma {:induction false} ReaderStart(w: World, c: Client, ch: Choice, poolOf: Pod -> Pool)
    requires ActorPre(w, c, poolOf) && (c.SuspendStart? || c.TerminateStart? || c.CheckpointStart? || c.Checkpointing?)
    ensures ActStart(w, c, ch).next.Some? ==>
      ClientOwns(w.kv.sessions, w.kv.workers, w.retired, ActStart(w, c, ch).next.value)
  {
  }

  lemma {:induction false} ReaderOther(w: World, c: Client, ch: Choice, poolOf: Pod -> Pool)
    requires ActorPre(w, c, poolOf) && (c.ReclaimCheck? || c.CreateStart? || c.Calling?)
    ensures ActOther(w, c, ch).next.Some? ==>
      ClientOwns(w.kv.sessions, w.kv.workers, w.retired, ActOther(w, c, ch).next.value)
  {
  }

  lemma {:induction false} ReaderLoop(w: World, c: Client, ch: Choice, poolOf: Pod -> Pool)
    requires ActorPre(w, c, poolOf) && c.Reading?
    ensures ActLoop(w, c, ch).next.Some? ==>
      ClientOwns(w.kv.sessions, w.kv.workers, w.retired, ActLoop(w, c, ch).next.value)
  {
  }

  lemma {:induction false} Loser(w: World, c: Client, ch: Choice, poolOf: Pod -> Pool)
    requires ActorPre(w, c, poolOf) && c.Writing? && !Wins(w, c, ch)
    ensures ActLoop(w, c, ch).next.Some? ==>
      ClientOwns(w.kv.sessions, w.kv.workers, w.retired, ActLoop(w, c, ch).next.value)
  {
  }

  lemma {:induction false} Claimer(w: World, c: Client, ch: Choice, poolOf: Pod -> Pool)
    requires ActorPre(w, c, poolOf) && c.ResumeClaim?
    ensures var eff := ActResume(w, c, ch);
      eff.next.Some? ==> ClientOwns(eff.kv.sessions, eff.kv.workers, w.retired, eff.next.value)
  {
    if !ch.kvError && InSet(w.kv.idle, c.pool, ch.drawn) {
      assert IdleIn(w.kv.workers, c.pool, ch.drawn);
      if c.seed.Some? && c.seed.value.e.state.Running? {
        ClaimKeepsOwns(w.kv, w.retired, c.pool, ch.drawn, c.sid, c.sid, c.seed.value.e.workerPod);
      }
    }
  }

  lemma {:induction false} Winner(w: World, c: Client, ch: Choice, poolOf: Pod -> Pool)
    requires ActorPre(w, c, poolOf) && Wins(w, c, ch)
    ensures var eff := ActLoop(w, c, ch);
      && (eff.next.Some? ==> ClientOwns(eff.kv.sessions, eff.kv.workers, w.retired, eff.next.value))
      && CopyOwns(eff.kv.workers, w.retired, eff.kv.sessions[PlanSid(c.plan)])
      && (!IsOperation(c) ==> Softer(w.kv.sessions, eff.kv.sessions, PlanSid(c.plan)))
  {
    EditKeepsEntryOk(c.plan, c.local.e, ch.now, poolOf);
  }

  lemma {:induction false} ActOwns(w: World, c: Client, ch: Choice, poolOf: Pod -> Pool)
    requires ActorPre(w, c, poolOf)
    ensures var eff := Act(w, c, ch);
      eff.next.Some? ==> ClientOwns(eff.kv.sessions, eff.kv.workers, w.retired, eff.next.value)
  {
    if c.ResumeStart? || c.ResumeFence? {
      ReaderResume(w, c, ch, poolOf);
    } else if c.ResumeClaim? {
      Claimer(w, c, ch, poolOf);
    } else if c.SuspendStart? || c.TerminateStart? || c.CheckpointStart? || c.Checkpointing? {
      ReaderStart(w, c, ch, poolOf);
    } else if c.ReclaimCheck? || c.CreateStart? || c.Calling? {
      ReaderOther(w, c, ch, poolOf);
    } else if c.Reading? {
      ReaderLoop(w, c, ch, poolOf);
    } else if c.Writing? {
      if Wins(w, c, ch) {
        Winner(w, c, ch, poolOf);
      } else {
        Loser(w, c, ch, poolOf);
      }
    }
  }

  /** An action never changes whose session the client works on. */
  predicate SameWork(c: Client, next: Option<Client>) {
    next.Some? ==> ClientSid(next.value) == ClientSid(c) && (IsOperation(next.value) ==> IsOperation(c))
  }

  lemma {:induction false} ResumeSameWork(w: World, c: Client, ch: Choice, poolOf: Pod -> Pool)
    requires KeyedSessions(w.kv.sessions) && ClientOk(c, poolOf)
    requires c.ResumeStart? || c.ResumeFence? || c.ResumeClaim?
    ensures SameWork(c, ActResume(w, c, ch).next)
  {
  }

  lemma {:induction false} StartSameWork(w: World, c: Client, ch: Choice, poolOf: Pod -> Pool)
    requires KeyedSessions(w.kv.sessions) && ClientOk(c, poolOf)
    requires Begins(c)
    ensures SameWork(c, ActStart(w, c, ch).next)
  {
  }

  lemma {:induction false} OtherSameWork(w: World, c: Client, ch: Choice, poolOf: Pod -> Pool)
    requires KeyedSessions(w.kv.sessions) && ClientOk(c, poolOf)
    requires Concludes(c)
    ensures SameWork(c, ActOther(w, c, ch).next)
  {
  }

  lemma {:induction false} LoopSameWork(w: World, c: Client, ch: Choice, poolOf: Pod -> Pool)
    requires KeyedSessions(w.kv.sessions) && ClientOk(c, poolOf)
    requires c.Reading? || c.Writing?
    ensures SameWork(c, ActLoop(w, c, ch).next)
  {
  }

  lemma {:induction false} NextSameWork(w: World, c: Client, ch: Choice, poolOf: Pod -> Pool)
    requires KeyedSessions(w.kv.sessions) && ClientOk(c, poolOf)
    ensures SameWork(c, Act(w, c, ch).next)
  {
    if c.ResumeStart? || c.ResumeFence? || c.ResumeClaim? {
      ResumeSameWork(w, c, ch, poolOf);
    } else if Begins(c) {
      StartSameWork(w, c, ch, poolOf);
    } else if c.Reading? || c.Writing? {
      LoopSameWork(w, c, ch, poolOf);
    } else {
      OtherSameWork(w, c, ch, poolOf);
    }
  }

  lemma {:induction false} StepKeepsNoOverlap(w: World, st: Step, poolOf: Pod -> Pool)
    requires BindInv(w, poolOf) && Allowed(w, st)
    ensures NoOverlap(Next(w, st, poolOf))
  {
    if st.Do? {
      assert ClientOk(w.clients[st.id], poolOf);
      NextSameWork(w, w.clients[st.id], st.ch, poolOf);
    }
  }

  // ---- the clients that do not act, and the table ----

  /** A step never hardens the entry of a session unless an operation on that session acts. */
  lemma {:induction false} StepSoftens(w: World, st: Step, poolOf: Pod -> Pool, sid: Sid)
    requires BindInv(w, poolOf) && Allowed(w, st)
    requires st.Do? && IsOperation(w.clients[st.id]) ==> ClientSid(w.clients[st.id]) != sid
    ensures Softer(w.kv.sessions, Next(w, st, poolOf).kv.sessions, sid)
  {
    if st.Do? && Wins(w, w.clients[st.id], st.ch) && PlanSid(w.clients[st.id].plan) == sid {
      assert ActorPre(w, w.clients[st.id], poolOf);
      Winner(w, w.clients[st.id], st.ch, poolOf);
    } else if sid in Next(w, st, poolOf).kv.sessions {
      UnwrittenStays(w, st, poolOf, sid);
    }
  }

  lemma {:induction false} BystanderKept(w: World, st: Step, poolOf: Pod -> Pool, id: nat)
    requires BindInv(w, poolOf) && Allowed(w, st) && id in w.clients && !(st.Do? && st.id == id)
    ensures var w' := Next(w, st, poolOf); ClientOwns(w'.kv.sessions, w'.kv.workers, w'.retired, w.clients[id])
  {
    var c, w' := w.clients[id], Next(w, st, poolOf);
    assert ClientOwns(w.kv.sessions, w.kv.workers, w.retired, c);
    if IsOperation(c) {
      StepSoftens(w, st, poolOf, ClientSid(c));
      forall pod | Owns(w.kv.workers, w.retired, ClientSid(c), pod)
        ensures Owns(w'.kv.workers, w'.retired, ClientSid(c), pod)
      {
        StepKeepsOwns(w, st, poolOf, ClientSid(c), pod);
      }
      ClientFrame(w.kv.sessions, w.kv.workers, w.retired, w'.kv.sessions, w'.kv.workers, w'.retired, c);
    }
  }

  lemma {:induction false} StepKeepsRunningOwned(w: World, st: Step, poolOf: Pod -> Pool)
    requires BindInv(w, poolOf) && Allowed(w, st)
    ensures var w' := Next(w, st, poolOf); RunningOwned(w'.kv.sessions, w'.kv.workers, w'.retired)
  {
    var w' := Next(w, st, poolOf);
    forall sid | sid in w'.kv.sessions && w'.kv.sessions[sid].state.Running?
      ensures Owns(w'.kv.workers, w'.retired, sid, w'.kv.sessions[sid].workerPod)
    {
      RunningStaysOwned(w, st, poolOf, sid);
    }
  }

  lemma {:induction false} WrittenIsOwned(w: World, st: Step, poolOf: Pod -> Pool, sid: Sid)
    requires BindInv(w, poolOf) && Allowed(w, st) && st.Do?
    requires Wins(w, w.clients[st.id], st.ch) && PlanSid(w.clients[st.id].plan) == sid
    requires var w' := Next(w, st, poolOf); sid in w'.kv.sessions && w'.kv.sessions[sid].state.Running?
    ensures var w' := Next(w, st, poolOf); Owns(w'.kv.workers, w'.retired, sid, w'.kv.sessions[sid].workerPod)
  {
    assert ActorPre(w, w.clients[st.id], poolOf);
    Winner(w, w.clients[st.id], st.ch, poolOf);
    StepKeepsTable(w, st, poolOf);
  }

  lemma {:induction false} UnwrittenIsOwned(w: World, st: Step, poolOf: Pod -> Pool, sid: Sid)
    requires BindInv(w, poolOf) && Allowed(w, st) && sid in w.kv.sessions && w.kv.sessions[sid].state.Running?
    ensures var w' := Next(w, st, poolOf); Owns(w'.kv.workers, w'.retired, sid, w.kv.sessions[sid].workerPod)
  {
    if st.Do? {
      assert ClientOwns(w.kv.sessions, w.kv.workers, w.retired, w.clients[st.id]);
    }
    if w.kv.sessions[sid].workerPod != "" {
      StepKeepsOwns(w, st, poolOf, sid, w.kv.sessions[sid].workerPod);
    }
  }

  lemma {:induction false} RunningStaysOwned(w: World, st: Step, poolOf: Pod -> Pool, sid: Sid)
    requires BindInv(w, poolOf) && Allowed(w, st)
    requires var w' := Next(w, st, poolOf); sid in w'.kv.sessions && w'.kv.sessions[sid].state.Running?
    ensures var w' := Next(w, st, poolOf); Owns(w'.kv.workers, w'.retired, sid, w'.kv.sessions[sid].workerPod)
  {
    if st.Do? && Wins(w, w.clients[st.id], st.ch) && PlanSid(w.clients[st.id].plan) == sid {
      WrittenIsOwned(w, st, poolOf, sid);
    } else {
      UnwrittenStays(w, st, poolOf, sid);
      UnwrittenIsOwned(w, st, poolOf, sid);
    }
  }

  lemma {:induction false} StepKeepsClientsOwn(w: World, st: Step, poolOf: Pod -> Pool)
    requires BindInv(w, poolOf) && Allowed(w, st)
    ensures var w' := Next(w, st, poolOf);
      forall id <- w'.clients :: ClientOwns(w'.kv.sessions, w'.kv.workers, w'.retired, w'.clients[id])
  {
    var w' := Next(w, st, poolOf);
    forall id | id in w'.clients ensures ClientOwns(w'.kv.sessions, w'.kv.workers, w'.retired, w'.clients[id]) {
      if st.Do? && st.id == id {
        assert ActorPre(w, w.clients[id], poolOf);
        ActOwns(w, w.clients[id], st.ch, poolOf);
      } else if id in w.clients {
        BystanderKept(w, st, poolOf, id);
      }
    }
  }

  lemma {:induction false} StepKeepsBindInv(w: World, st: Step, poolOf: Pod -> Pool)
    requires BindInv(w, poolOf) && Allowed(w, st)
    ensures BindInv(Next(w, st, poolOf), poolOf)
  {
    StepKeepsShape(w, st, poolOf);
    StepKeepsNoOverlap(w, st, poolOf);
    StepKeepsRunningOwned(w, st, poolOf);
    StepKeepsClientsOwn(w, st, poolOf);
  }

  lemma {:induction false} ReachableBindInv(w: World, steps: seq<Step>, poolOf: Pod -> Pool)
    requires BindInv(w, poolOf) && AllowedRun(w, steps, poolOf)
    ensures BindInv(Final(w, steps, poolOf), poolOf)
    decreases |steps|
  {
    if steps != [] {
      StepKeepsBindInv(w, steps[0], poolOf);
      ReachableBindInv(Next(w, steps[0], poolOf), steps[1..], poolOf);
    }
  }

  // ---- the theorems ----

  /** A Running session whose worker entry exists is the session that worker is busy with. */
  ghost predicate BindingSafe(kv: KV) {
    forall sid <- kv.sessions | kv.sessions[sid].state.Running? && kv.sessions[sid].workerPod in kv.workers ::
      WorkerHolds(kv.workers, kv.sessions[sid].workerPod, sid)
  }

  /** Over every allowed run from the empty table the binding is safe, and no two Running sessions share an existing
      worker. */
  lemma {:induction false} BindingIsSafe(steps: seq<Step>, poolOf: Pod -> Pool)
    requires AllowedRun(INIT, steps, poolOf)
    ensures var kv := Final(INIT, steps, poolOf).kv;
      && BindingSafe(kv)
      && forall a, b | a in kv.sessions && b in kv.sessions && a != b &&
                       kv.sessions[a].state.Running? && kv.sessions[b].state.Running? &&
                       kv.sessions[a].workerPod in kv.workers ::
           kv.sessions[a].workerPod != kv.sessions[b].workerPod
  {
    EmptyTableInv();
    ReachableBindInv(INIT, steps, poolOf);
  }

  /** A resume that read a Running session and reaches the fence takes the fast path exactly when it could read the
      worker and the worker's entry exists; a failed read sends it past a live worker. */
  lemma {:induction false} FenceIsExact(steps: seq<Step>, poolOf: Pod -> Pool, id: nat, ch: Choice)
    requires AllowedRun(INIT, steps, poolOf)
    requires var w := Final(INIT, steps, poolOf); id in w.clients && w.clients[id].ResumeFence?
    ensures var w := Final(INIT, steps, poolOf); var cur := w.clients[id].cur;
      && cur.e.state.Running?
      && (FastPath(w, cur, ch) <==> !ch.kvError && cur.e.workerPod in w.kv.workers)
      && Act(w, w.clients[id], ch) == Effect(w.kv, if FastPath(w, cur, ch) then None else PastFence(cur, ch))
  {
    EmptyTableInv();
    ReachableBindInv(INIT, steps, poolOf);
    var w := Final(INIT, steps, poolOf);
    assert ClientOwns(w.kv.sessions, w.kv.workers, w.retired, w.clients[id]);
  }
}
