/** Restores that fail, in every interleaving of the protocol: any number of them, each failing at any of its scripts,
    leave the suspended session as it was and give back every worker they claimed. */
module FailedRestores {
  import opened Records
  import opened Assign
  import opened Mutations
  import opened Protocol
  import opened Lineage
  import Binding
  import Copies

  /** A session at rest: Suspended, restorable, bound to no worker. */
  predicate Resting(e: SessionEntry) {
    e.state.Suspended? && e.snapshotURI != "" && e.workerPod == "" && e.workerPodIP == "" && e.pool != ""
  }

  /** The same entry, up to its version and its activity stamp. */
  predicate Same(e: SessionEntry, base: SessionEntry) {
    e == base.(version := e.version, lastActiveAt := e.lastActiveAt)
  }

  /** The same entry, marked Resuming on some worker. */
  predicate Marked(e: SessionEntry, base: SessionEntry) {
    e == base.(state := Resuming, workerPod := e.workerPod, workerPodIP := e.workerPodIP, version := e.version,
               lastActiveAt := e.lastActiveAt)
  }

  predicate Current(copy: Copy, stored: SessionEntry) {
    copy.e == stored.(lastActiveAt := copy.e.lastActiveAt)
  }

  predicate PlanPhase(plan: Plan, stored: SessionEntry, base: SessionEntry) {
    match plan
    case ToResuming(_, v, b) => Same(stored, base) && b == RestoreSpec(base) && v.pool == base.pool
    case ToRunning(_, v, b) => Marked(stored, base) && b.restore && v.pool == base.pool
    case ToRolledBack(_) => Same(stored, base) || Marked(stored, base)
    case _ => false
  }

  /** How the stored entry stands at each program counter of a restore. */
  predicate Phase(c: Client, stored: SessionEntry, base: SessionEntry) {
    match c
    case ResumeStart(_) => Same(stored, base)
    case ResumeClaim(_, seed, b, pool) =>
      Same(stored, base) && seed.Some? && Current(seed.value, stored) && b == RestoreSpec(base) && pool == base.pool
    case Writing(plan, _, local) => Current(local, stored) && PlanPhase(plan, stored, base)
    case Reading(plan, _) => !plan.ToResuming? && PlanPhase(plan, stored, base)
    case Calling(plan) => plan.ToResuming? && Marked(stored, base) && plan.b.restore && plan.w.pool == base.pool
    case Releasing(_, _, pool, after) =>
      after.ThenRollBack? && pool == base.pool && (Same(stored, base) || Marked(stored, base))
    case _ => false
  }

  /** Clients of the session that end without writing it: reclaim, terminate and suspend requests that find it not
      Running, and creations that find it present. */
  predicate Bystander(c: Client) {
    match c
    case SuspendStart(_, _) => true
    case CheckpointStart(_) => true
    case TerminateStart(_) => true
    case ReclaimCheck(_) => true
    case CreateStart(_) => true
    case Writing(plan, _, _) => plan.ToCreated?
    case Releasing(_, _, _, after) => after.Finish?
    case Removing(_, _, _) => true
    case _ => false
  }

  predicate Restorer(w: World, id: nat, sid: Sid) {
    id in w.clients && ClientSid(w.clients[id]) == sid && !Bystander(w.clients[id])
  }

  /** No restore of the session is under way. */
  ghost predicate Settled(w: World, sid: Sid) {
    forall id <- w.clients :: !Restorer(w, id, sid)
  }

  /** The step keeps to restores that fail: one at a time, the entry is read, the Running write never succeeds, and the
      release and the rollback are not refused by the store. Nothing else writes or deletes the session. All other
      clients, and the workers, do as they please. */
  ghost predicate Failing(w: World, st: Step, sid: Sid) {
    && Enabled(w, st)
    && match st
       case Spawn(_, c) => ClientSid(c) == sid ==> Bystander(c) || (c.ResumeStart? && Settled(w, sid))
       case Do(id, ch) => ClientSid(w.clients[id]) == sid ==> FailingAct(w.clients[id], ch)
       case Expire(gone) => gone != sid
       case _ => true
  }

  predicate FailingAct(c: Client, ch: Choice) {
    match c
    case ResumeStart(_) => !ch.kvError
    case Reading(plan, _) => plan.ToRolledBack? ==> !ch.kvError
    case Writing(plan, _, _) => (plan.ToRunning? ==> ch.kvError) && (plan.ToRolledBack? ==> !ch.kvError)
    case Releasing(_, _, _, after) => after.ThenRollBack? ==> !ch.kvError
    case _ => true
  }

  ghost predicate FailingRun(w: World, steps: seq<Step>, sid: Sid, poolOf: Pod -> Pool)
    decreases |steps|
  {
    steps == [] || (Failing(w, steps[0], sid) && FailingRun(Next(w, steps[0], poolOf), steps[1..], sid, poolOf))
  }

  ghost predicate Accounted(w: World, sid: Sid, base: SessionEntry) {
    && sid in w.kv.sessions
    && (forall id <- w.clients :: Restorer(w, id, sid) ==> Phase(w.clients[id], w.kv.sessions[sid], base))
    && (forall i <- w.clients, j <- w.clients :: Restorer(w, i, sid) && Restorer(w, j, sid) ==> i == j)
    && (Settled(w, sid) ==> Same(w.kv.sessions[sid], base))
  }

  // ---- one action of a client of the session ----

  /** What an action leaves: the entry in the phase of the next program counter, or at rest when there is none. */
  ghost predicate Lands(eff: Effect, sid: Sid, base: SessionEntry) {
    && sid in eff.kv.sessions
    && match eff.next
       case None => Same(eff.kv.sessions[sid], base)
       case Some(c) => Phase(c, eff.kv.sessions[sid], base) && ClientSid(c) == sid && !Bystander(c)
  }

  lemma {:induction false} ResumeLands(w: World, c: Client, ch: Choice, sid: Sid, base: SessionEntry)
    requires WorkerInv(w.kv) && sid in w.kv.sessions && Resting(base) && ClientSid(c) == sid
    requires c.ResumeStart? || c.ResumeClaim?
    requires Phase(c, w.kv.sessions[sid], base) && FailingAct(c, ch)
    ensures Lands(ActResume(w, c, ch), sid, base)
  {
    if c.ResumeClaim? && InSet(w.kv.idle, c.pool, ch.drawn) {
      assert IdleIn(w.kv.workers, c.pool, ch.drawn);
    }
  }

  lemma {:induction false} MarkingMarks(e: SessionEntry, base: SessionEntry, v: WorkerEntry)
    requires Same(e, base) && v.pool == base.pool
    ensures Marked(MarkResuming(e, v, RestoreSpec(base)), base)
  {
  }

  lemma {:induction false} RollingBackRests(e: SessionEntry, base: SessionEntry)
    requires Resting(base) && (Same(e, base) || Marked(e, base))
    ensures Same(RollBack(e), base)
  {
  }

  lemma {:induction false} WriteLands(w: World, c: Client, ch: Choice, sid: Sid, base: SessionEntry)
    requires KeyedSessions(w.kv.sessions) && sid in w.kv.sessions && Resting(base) && ClientSid(c) == sid
    requires c.Writing? && Phase(c, w.kv.sessions[sid], base) && FailingAct(c, ch)
    ensures Lands(ActLoop(w, c, ch), sid, base)
  {
    if c.plan.ToResuming? {
      MarkingMarks(c.local.e, base, c.plan.w);
    } else if c.plan.ToRolledBack? {
      RollingBackRests(c.local.e, base);
    }
  }

  lemma {:induction false} ReadLands(w: World, c: Client, ch: Choice, sid: Sid, base: SessionEntry)
    requires sid in w.kv.sessions && ClientSid(c) == sid
    requires c.Reading? && Phase(c, w.kv.sessions[sid], base) && FailingAct(c, ch)
    ensures Lands(ActLoop(w, c, ch), sid, base)
  {
  }

  lemma {:induction false} CallLands(w: World, c: Client, ch: Choice, sid: Sid, base: SessionEntry)
    requires sid in w.kv.sessions && ClientSid(c) == sid && (c.Calling? || c.Releasing?)
    requires Phase(c, w.kv.sessions[sid], base) && FailingAct(c, ch)
    ensures Lands(ActOther(w, c, ch), sid, base)
  {
  }

  lemma {:induction false} RestorerLands(w: World, c: Client, ch: Choice, sid: Sid, base: SessionEntry)
    requires TableInv(w.kv) && sid in w.kv.sessions && Resting(base) && ClientSid(c) == sid
    requires Phase(c, w.kv.sessions[sid], base) && FailingAct(c, ch)
    ensures Lands(Act(w, c, ch), sid, base)
  {
    if c.ResumeStart? || c.ResumeClaim? {
      ResumeLands(w, c, ch, sid, base);
    } else if c.Writing? {
      WriteLands(w, c, ch, sid, base);
    } else if c.Reading? {
      ReadLands(w, c, ch, sid, base);
    } else {
      CallLands(w, c, ch, sid, base);
    }
  }

  /** The action leaves every session as it is, and the client ends or goes on as a bystander. */
  ghost predicate Passes(w: World, eff: Effect, sid: Sid) {
    && eff.kv.sessions == w.kv.sessions
    && (eff.next.Some? ==> Bystander(eff.next.value) && ClientSid(eff.next.value) == sid)
  }

  lemma {:induction false} StartPasses(w: World, c: Client, ch: Choice, sid: Sid)
    requires sid in w.kv.sessions && ClientSid(c) == sid && !w.kv.sessions[sid].state.Running?
    requires c.SuspendStart? || c.CheckpointStart? || c.TerminateStart?
    ensures Passes(w, ActStart(w, c, ch), sid)
  {
  }

  lemma {:induction false} OtherPasses(w: World, c: Client, ch: Choice, sid: Sid)
    requires sid in w.kv.sessions && ClientSid(c) == sid && Bystander(c)
    requires c.ReclaimCheck? || c.CreateStart? || c.Releasing? || c.Removing?
    ensures Passes(w, ActOther(w, c, ch), sid)
  {
  }

  lemma {:induction false} CreationPasses(w: World, c: Client, ch: Choice, sid: Sid, poolOf: Pod -> Pool)
    requires KeyedSessions(w.kv.sessions) && sid in w.kv.sessions && ClientSid(c) == sid
    requires c.Writing? && c.plan.ToCreated? && ClientOk(c, poolOf)
    ensures Passes(w, ActLoop(w, c, ch), sid)
  {
  }

  lemma {:induction false} BystanderPasses(w: World, c: Client, ch: Choice, sid: Sid, poolOf: Pod -> Pool)
    requires KeyedSessions(w.kv.sessions) && sid in w.kv.sessions && ClientSid(c) == sid
    requires Bystander(c) && ClientOk(c, poolOf) && !w.kv.sessions[sid].state.Running?
    ensures Passes(w, Act(w, c, ch), sid)
  {
    if c.SuspendStart? || c.CheckpointStart? || c.TerminateStart? {
      StartPasses(w, c, ch, sid);
    } else if c.Writing? {
      CreationPasses(w, c, ch, sid, poolOf);
    } else {
      OtherPasses(w, c, ch, sid);
    }
  }

  // ---- one step ----

  lemma {:induction false} OthersKeepTheKey(w: World, st: Step, sid: Sid, poolOf: Pod -> Pool)
    requires KeyedSessions(w.kv.sessions) && sid in w.kv.sessions && Failing(w, st, sid)
    requires st.Do? ==> ClientSid(w.clients[st.id]) != sid
    ensures sid in Next(w, st, poolOf).kv.sessions
  {
    Copies.UndeletedFollows(w, st, sid, poolOf);
  }

  lemma {:induction false} OthersLeaveIt(w: World, st: Step, sid: Sid, poolOf: Pod -> Pool)
    requires Shape(w, poolOf) && sid in w.kv.sessions && Failing(w, st, sid)
    requires st.Do? ==> ClientSid(w.clients[st.id]) != sid
    ensures var sessions := Next(w, st, poolOf).kv.sessions;
      sid in sessions && SameButActivity(w.kv.sessions[sid], sessions[sid])
  {
    OthersKeepTheKey(w, st, sid, poolOf);
    UnwrittenStays(w, st, poolOf, sid);
  }

  lemma {:induction false} StampKeepsPhase(c: Client, a: SessionEntry, b: SessionEntry, base: SessionEntry)
    requires SameButActivity(a, b)
    ensures Phase(c, a, base) ==> Phase(c, b, base)
    ensures Same(a, base) ==> Same(b, base)
  {
  }

  /** A step of others neither adds, changes nor ends a restore of the session. */
  lemma {:induction false} OthersLeaveRestorers(w: World, st: Step, sid: Sid, id: nat, poolOf: Pod -> Pool)
    requires Shape(w, poolOf) && Enabled(w, st)
    requires st.Do? ==> ClientSid(w.clients[st.id]) != sid
    requires st.Spawn? ==> ClientSid(st.c) != sid
    ensures var w' := Next(w, st, poolOf);
      (Restorer(w', id, sid) <==> Restorer(w, id, sid)) && (Restorer(w, id, sid) ==> w'.clients[id] == w.clients[id])
  {
    if st.Do? {
      assert ClientOk(w.clients[st.id], poolOf);
      Binding.NextSameWork(w, w.clients[st.id], st.ch, poolOf);
    }
  }

  lemma {:induction false} OtherStep(w: World, st: Step, sid: Sid, base: SessionEntry, poolOf: Pod -> Pool)
    requires Shape(w, poolOf) && Accounted(w, sid, base) && Failing(w, st, sid)
    requires st.Do? ==> ClientSid(w.clients[st.id]) != sid
    requires st.Spawn? ==> ClientSid(st.c) != sid
    ensures Accounted(Next(w, st, poolOf), sid, base)
  {
    var w' := Next(w, st, poolOf);
    OthersLeaveIt(w, st, sid, poolOf);
    forall id: nat
      ensures Restorer(w', id, sid) <==> Restorer(w, id, sid)
      ensures Restorer(w, id, sid) ==> w'.clients[id] == w.clients[id]
    {
      OthersLeaveRestorers(w, st, sid, id, poolOf);
    }
    StaysAccounted(w, w', sid, base);
  }

  lemma {:induction false} StaysAccounted(w: World, w': World, sid: Sid, base: SessionEntry)
    requires Accounted(w, sid, base) && sid in w'.kv.sessions
    requires SameButActivity(w.kv.sessions[sid], w'.kv.sessions[sid])
    requires forall id: nat :: Restorer(w', id, sid) <==> Restorer(w, id, sid)
    requires forall id: nat | Restorer(w, id, sid) && Restorer(w', id, sid) :: w'.clients[id] == w.clients[id]
    ensures Accounted(w', sid, base)
  {
    forall id <- w'.clients | Restorer(w', id, sid)
      ensures Phase(w'.clients[id], w'.kv.sessions[sid], base)
    {
      StampKeepsPhase(w.clients[id], w.kv.sessions[sid], w'.kv.sessions[sid], base);
    }
    if Settled(w', sid) {
      assert Settled(w, sid);
      assert Same(w'.kv.sessions[sid], base);
    }
  }

  lemma {:induction false} SpawnStep(w: World, st: Step, sid: Sid, base: SessionEntry, poolOf: Pod -> Pool)
    requires Accounted(w, sid, base) && st.Spawn? && ClientSid(st.c) == sid && Failing(w, st, sid)
    ensures Accounted(Next(w, st, poolOf), sid, base)
  {
    var w' := Next(w, st, poolOf);
    assert forall id <- w.clients :: Restorer(w', id, sid) <==> Restorer(w, id, sid);
    assert w'.clients[st.id] == st.c;
  }

  lemma {:induction false} RestorerStep(w: World, st: Step, sid: Sid, base: SessionEntry, poolOf: Pod -> Pool)
    requires Shape(w, poolOf) && Accounted(w, sid, base) && Resting(base) && Failing(w, st, sid)
    requires st.Do? && Restorer(w, st.id, sid)
    ensures Accounted(Next(w, st, poolOf), sid, base)
  {
    var w' := Next(w, st, poolOf);
    RestorerLands(w, w.clients[st.id], st.ch, sid, base);
    assert forall id <- w'.clients | id != st.id && Restorer(w', id, sid) :: Restorer(w, id, sid);
    assert st.id in w'.clients ==> Restorer(w', st.id, sid);
  }

  lemma {:induction false} BystanderStep(w: World, st: Step, sid: Sid, base: SessionEntry, poolOf: Pod -> Pool)
    requires Shape(w, poolOf) && Accounted(w, sid, base) && Resting(base) && Failing(w, st, sid)
    requires st.Do? && ClientSid(w.clients[st.id]) == sid && Bystander(w.clients[st.id])
    ensures Accounted(Next(w, st, poolOf), sid, base)
  {
    NeverRunning(w, sid, base);
    assert ClientOk(w.clients[st.id], poolOf);
    BystanderPasses(w, w.clients[st.id], st.ch, sid, poolOf);
    StaysAccounted(w, Next(w, st, poolOf), sid, base);
  }

  lemma {:induction false} NeverRunning(w: World, sid: Sid, base: SessionEntry)
    requires Accounted(w, sid, base) && Resting(base)
    ensures !w.kv.sessions[sid].state.Running?
  {
    if !Settled(w, sid) {
      var id :| id in w.clients && Restorer(w, id, sid);
      assert Phase(w.clients[id], w.kv.sessions[sid], base);
    }
  }

  lemma {:induction false} StepKeepsAccounted(w: World, st: Step, sid: Sid, base: SessionEntry, poolOf: Pod -> Pool)
    requires Shape(w, poolOf) && Accounted(w, sid, base) && Resting(base) && Failing(w, st, sid)
    ensures Shape(Next(w, st, poolOf), poolOf) && Accounted(Next(w, st, poolOf), sid, base)
  {
    StepKeepsShape(w, st, poolOf);
    if st.Do? && ClientSid(w.clients[st.id]) == sid {
      if Bystander(w.clients[st.id]) {
        BystanderStep(w, st, sid, base, poolOf);
      } else {
        RestorerStep(w, st, sid, base, poolOf);
      }
    } else if st.Spawn? && ClientSid(st.c) == sid {
      SpawnStep(w, st, sid, base, poolOf);
    } else {
      OtherStep(w, st, sid, base, poolOf);
    }
  }

  // ---- whole runs ----

  lemma {:induction false} RunKeepsAccounted(w: World, steps: seq<Step>, sid: Sid, base: SessionEntry,
                                             poolOf: Pod -> Pool)
    requires Shape(w, poolOf) && Accounted(w, sid, base) && Resting(base) && FailingRun(w, steps, sid, poolOf)
    ensures Shape(Final(w, steps, poolOf), poolOf) && Accounted(Final(w, steps, poolOf), sid, base)
    decreases |steps|
  {
    if steps != [] {
      StepKeepsAccounted(w, steps[0], sid, base, poolOf);
      RunKeepsAccounted(Next(w, steps[0], poolOf), steps[1..], sid, base, poolOf);
    }
  }

  // ---- the workers the restores claimed ----

  /** The restore has claimed the worker and not yet released it. */
  predicate Holding(c: Client, pod: Pod) {
    match c
    case Writing(plan, _, _) => (plan.ToResuming? || plan.ToRunning?) && plan.w.pod == pod
    case Reading(plan, _) => plan.ToRunning? && plan.w.pod == pod
    case Calling(plan) => plan.ToResuming? && plan.w.pod == pod
    case Releasing(_, held, _, after) => after.ThenRollBack? && held == pod
    case _ => false
  }

  predicate Claims(w: World, st: Step, sid: Sid) {
    && st.Do? && st.id in w.clients && w.clients[st.id].ResumeClaim? && w.clients[st.id].sid == sid
    && !st.ch.kvError && ClaimSucceeds(w.kv, w.clients[st.id].pool, st.ch.drawn)
  }

  /** The step releases the worker: right after it the worker is idle in its pool, unless its entry was removed. */
  predicate GivesBack(w: World, st: Step, id: nat, pod: Pod, poolOf: Pod -> Pool) {
    && st.Do? && st.id == id && StepOp(w, st, poolOf) == Some(Op.Release(pod, poolOf(pod)))
    && var kv := Next(w, st, poolOf).kv;
       if pod in w.kv.workers then IdleIn(kv.workers, poolOf(pod), pod) && InSet(kv.idle, poolOf(pod), pod)
       else pod !in kv.workers
  }

  ghost predicate GivenBack(w: World, steps: seq<Step>, id: nat, pod: Pod, poolOf: Pod -> Pool)
    decreases |steps|
  {
    && steps != []
    && (GivesBack(w, steps[0], id, pod, poolOf) || GivenBack(Next(w, steps[0], poolOf), steps[1..], id, pod, poolOf))
  }

  /** Every claim in the run is followed, in the run, by the release of that worker. */
  ghost predicate AllGivenBack(w: World, steps: seq<Step>, sid: Sid, poolOf: Pod -> Pool)
    decreases |steps|
  {
    steps == [] ||
    (var w' := Next(w, steps[0], poolOf);
     && (Claims(w, steps[0], sid) ==> GivenBack(w', steps[1..], steps[0].id, steps[0].ch.drawn, poolOf))
     && AllGivenBack(w', steps[1..], sid, poolOf))
  }

  lemma {:induction false} ClaimHolds(c: Client, w: World, ch: Choice, sid: Sid, base: SessionEntry)
    requires WorkerInv(w.kv) && sid in w.kv.sessions && c.ResumeClaim? && c.sid == sid
    requires Phase(c, w.kv.sessions[sid], base) && !ch.kvError && ClaimSucceeds(w.kv, c.pool, ch.drawn)
    ensures var next := ActResume(w, c, ch).next;
      next.Some? && Holding(next.value, ch.drawn) && ClientSid(next.value) == sid && !Bystander(next.value)
  {
    assert w.kv.workers[ch.drawn].pod == ch.drawn;
  }

  lemma {:induction false} ClaimStepHolds(w: World, st: Step, sid: Sid, base: SessionEntry, poolOf: Pod -> Pool)
    requires Shape(w, poolOf) && Accounted(w, sid, base) && Claims(w, st, sid)
    ensures var w' := Next(w, st, poolOf);
      Restorer(w', st.id, sid) && Holding(w'.clients[st.id], st.ch.drawn)
  {
    assert Restorer(w, st.id, sid);
    ClaimHolds(w.clients[st.id], w, st.ch, sid, base);
  }

  lemma {:induction false} ReleaseGivesBack(w: World, st: Step, sid: Sid, pod: Pod, poolOf: Pod -> Pool)
    requires Shape(w, poolOf) && Failing(w, st, sid) && st.Do? && ClientSid(w.clients[st.id]) == sid
    requires w.clients[st.id].Releasing? && w.clients[st.id].after.ThenRollBack? && w.clients[st.id].pod == pod != ""
    ensures GivesBack(w, st, st.id, pod, poolOf)
  {
    assert ClientOk(w.clients[st.id], poolOf);
  }

  lemma {:induction false} HoldsOn(w: World, c: Client, ch: Choice, sid: Sid, base: SessionEntry, pod: Pod)
    requires sid in w.kv.sessions && ClientSid(c) == sid && KeyedSessions(w.kv.sessions)
    requires Phase(c, w.kv.sessions[sid], base) && FailingAct(c, ch) && Holding(c, pod) && !c.Releasing?
    ensures Act(w, c, ch).next.Some? && Holding(Act(w, c, ch).next.value, pod)
  {
  }

  lemma {:induction false} HolderActs(w: World, st: Step, sid: Sid, base: SessionEntry, pod: Pod, poolOf: Pod -> Pool)
    requires Shape(w, poolOf) && Accounted(w, sid, base) && Resting(base) && Failing(w, st, sid)
    requires st.Do? && Restorer(w, st.id, sid) && Holding(w.clients[st.id], pod) && !w.clients[st.id].Releasing?
    ensures var w' := Next(w, st, poolOf); Restorer(w', st.id, sid) && Holding(w'.clients[st.id], pod)
  {
    HoldsOn(w, w.clients[st.id], st.ch, sid, base, pod);
    RestorerLands(w, w.clients[st.id], st.ch, sid, base);
  }

  lemma {:induction false} HolderSteps(w: World, st: Step, sid: Sid, base: SessionEntry, id: nat, pod: Pod,
                                       poolOf: Pod -> Pool)
    requires Shape(w, poolOf) && Accounted(w, sid, base) && Resting(base) && Failing(w, st, sid)
    requires Restorer(w, id, sid) && Holding(w.clients[id], pod) && pod != ""
    ensures var w' := Next(w, st, poolOf);
      GivesBack(w, st, id, pod, poolOf) || (Restorer(w', id, sid) && Holding(w'.clients[id], pod))
  {
    if st.Do? && st.id == id {
      if w.clients[id].Releasing? {
        ReleaseGivesBack(w, st, sid, pod, poolOf);
      } else {
        HolderActs(w, st, sid, base, pod, poolOf);
      }
    }
  }

  lemma {:induction false} HolderGivesBack(w: World, steps: seq<Step>, sid: Sid, base: SessionEntry, id: nat, pod: Pod,
                                           poolOf: Pod -> Pool)
    requires Shape(w, poolOf) && Accounted(w, sid, base) && Resting(base) && FailingRun(w, steps, sid, poolOf)
    requires Restorer(w, id, sid) && Holding(w.clients[id], pod) && pod != "" && Settled(Final(w, steps, poolOf), sid)
    ensures GivenBack(w, steps, id, pod, poolOf)
    decreases |steps|
  {
    if steps != [] {
      StepKeepsAccounted(w, steps[0], sid, base, poolOf);
      HolderSteps(w, steps[0], sid, base, id, pod, poolOf);
      if !GivesBack(w, steps[0], id, pod, poolOf) {
        HolderGivesBack(Next(w, steps[0], poolOf), steps[1..], sid, base, id, pod, poolOf);
      }
    }
  }

  lemma {:induction false} ClaimsGivenBack(w: World, steps: seq<Step>, sid: Sid, base: SessionEntry,
                                           poolOf: Pod -> Pool)
    requires Shape(w, poolOf) && Accounted(w, sid, base) && Resting(base) && FailingRun(w, steps, sid, poolOf)
    requires Settled(Final(w, steps, poolOf), sid)
    ensures AllGivenBack(w, steps, sid, poolOf)
    decreases |steps|
  {
    if steps != [] {
      var st, w' := steps[0], Next(w, steps[0], poolOf);
      StepKeepsAccounted(w, st, sid, base, poolOf);
      if Claims(w, st, sid) {
        ClaimStepHolds(w, st, sid, base, poolOf);
        HolderGivesBack(w', steps[1..], sid, base, st.id, st.ch.drawn, poolOf);
      }
      ClaimsGivenBack(w', steps[1..], sid, base, poolOf);
    }
  }

  // ---- the two results, over every run ----

  /** After any number of failed restores the entry is the same up to its version and its activity stamp, so the next
      resume asks for the same restore from the same pool. */
  lemma {:induction false} FailedRestoresChangeNothing(w: World, steps: seq<Step>, sid: Sid, ch: Choice,
                                                       poolOf: Pod -> Pool)
    requires Shape(w, poolOf) && sid in w.kv.sessions && Resting(w.kv.sessions[sid])
    requires Settled(w, sid) && FailingRun(w, steps, sid, poolOf)
    requires Settled(Final(w, steps, poolOf), sid) && !ch.kvError
    ensures var base, end := w.kv.sessions[sid], Final(w, steps, poolOf);
      && sid in end.kv.sessions && Same(end.kv.sessions[sid], base)
      && Act(end, ResumeStart(sid), ch).next ==
         Some(ResumeClaim(sid, ReadCopy(end, sid), RestoreSpec(base), base.pool))
  {
    RunKeepsAccounted(w, steps, sid, w.kv.sessions[sid], poolOf);
  }

  /** And every worker they claimed went back to its pool, whatever else happened to the table. */
  lemma {:induction false} ClaimedWorkersComeBack(w: World, steps: seq<Step>, sid: Sid, poolOf: Pod -> Pool)
    requires Shape(w, poolOf) && sid in w.kv.sessions && Resting(w.kv.sessions[sid])
    requires Settled(w, sid) && FailingRun(w, steps, sid, poolOf) && Settled(Final(w, steps, poolOf), sid)
    ensures AllGivenBack(w, steps, sid, poolOf)
  {
    ClaimsGivenBack(w, steps, sid, w.kv.sessions[sid], poolOf);
  }
}
