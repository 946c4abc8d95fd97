/** What the workflows set out on and what they owe: a workflow acts only on a session it read in the right state, and
    every worker or entry it has undertaken to give back, take out or erase is given back, taken out or erased. */
module Workflows {
  import opened Records
  import opened Assign
  import opened Protocol
  import opened Lineage
  import opened Copies

  // ---- what a workflow set out on ----

  /** The entry a suspend or a terminate read when it began. */
  ghost predicate BegunOn(e: SessionEntry, kind: Kind) {
    e.state.Running? && if kind.ForTerminate? then e.workerPod == kind.pod else e.workerPodIP != ""
  }

  ghost predicate PlanBegun(plan: Plan) {
    match plan
    case ToSuspending(e, kind) => BegunOn(e, kind)
    case ToSuspended(e, kind, _) => BegunOn(e, kind)
    case ToCheckpointed(e, _) => e.state.Running? && e.workerPodIP != ""
    case ToPromoted(_, ip) => ip != ""
    case _ => true
  }

  /** A suspend, a checkpoint and the fence are for sessions read Running with an address, a terminate for one read
      Running on the very pod it takes out, a heal for one read Resuming with an address. */
  ghost predicate Begun(c: Client) {
    match c
    case SuspendStart(_, kind) => !kind.ForTerminate?
    case ResumeFence(cur) => cur.e.state.Running? && cur.e.workerPodIP != ""
    case Checkpointing(cur) => cur.e.state.Running? && cur.e.workerPodIP != ""
    case Healing(cur) => cur.e.state.Resuming? && cur.e.workerPodIP != ""
    case Reading(plan, _) => PlanBegun(plan)
    case Writing(plan, _, _) => PlanBegun(plan)
    case Calling(plan) => PlanBegun(plan)
    case _ => true
  }

  lemma {:induction false} ActBegun(w: World, c: Client, ch: Choice)
    requires Begun(c)
    ensures Act(w, c, ch).next.Some? ==> Begun(Act(w, c, ch).next.value)
  {
    if c.ResumeStart? || c.ResumeFence? || c.ResumeClaim? {
      ResumeBegun(w, c, ch);
    } else if Begins(c) {
      StartBegun(w, c, ch);
    } else if c.Reading? || c.Writing? {
      LoopBegun(w, c, ch);
    } else {
      OtherBegun(w, c, ch);
    }
  }

  lemma {:induction false} ResumeBegun(w: World, c: Client, ch: Choice)
    requires Begun(c) && (c.ResumeStart? || c.ResumeFence? || c.ResumeClaim?)
    ensures ActResume(w, c, ch).next.Some? ==> Begun(ActResume(w, c, ch).next.value)
  {
  }

  lemma {:induction false} StartBegun(w: World, c: Client, ch: Choice)
    requires Begun(c) && Begins(c)
    ensures ActStart(w, c, ch).next.Some? ==> Begun(ActStart(w, c, ch).next.value)
  {
  }

  lemma {:induction false} LoopBegun(w: World, c: Client, ch: Choice)
    requires Begun(c) && (c.Reading? || c.Writing?)
    ensures ActLoop(w, c, ch).next.Some? ==> Begun(ActLoop(w, c, ch).next.value)
  {
  }

  lemma {:induction false} OtherBegun(w: World, c: Client, ch: Choice)
    requires Begun(c) && Concludes(c)
    ensures ActOther(w, c, ch).next.Some? ==> Begun(ActOther(w, c, ch).next.value)
  {
  }

  ghost predicate AllBegun(w: World) {
    forall id <- w.clients :: Begun(w.clients[id])
  }

  /** In every reachable world every workflow under way set out on the session it should. */
  lemma {:induction false} WorkflowsBeginRight(w: World, steps: seq<Step>, poolOf: Pod -> Pool)
    requires AllBegun(w) && Run(w, steps, poolOf)
    ensures AllBegun(Final(w, steps, poolOf))
    decreases |steps|
  {
    if steps != [] {
      StepKeepsBegun(w, steps[0], poolOf);
      WorkflowsBeginRight(Next(w, steps[0], poolOf), steps[1..], poolOf);
    }
  }

  lemma {:induction false} StepKeepsBegun(w: World, st: Step, poolOf: Pod -> Pool)
    requires AllBegun(w) && Enabled(w, st)
    ensures AllBegun(Next(w, st, poolOf))
  {
    if st.Do? {
      ActBegun(w, w.clients[st.id], st.ch);
    }
  }

  ghost predicate ReadRunning(w: World, sid: Sid, ch: Choice) {
    !ch.kvError && sid in w.kv.sessions && w.kv.sessions[sid].state.Running?
  }

  /** And each goes on exactly when it reads that: a suspend or checkpoint of a Running session with an address, a
      terminate with a suspend first if the session is Running on its pod, a heal of a Resuming session with an address,
      by what its worker answers; seeding and rebuild stop at an entry that is there. */
  lemma {:induction false} WorkflowsStart(w: World, c: Client, ch: Choice)
    ensures c.SuspendStart? ==>
      Act(w, c, ch).next ==
      if ReadRunning(w, c.sid, ch) && w.kv.sessions[c.sid].workerPodIP != ""
      then Some(Reading(ToSuspending(w.kv.sessions[c.sid], c.kind), 0)) else None
    ensures c.TerminateStart? ==>
      Act(w, c, ch).next ==
      if ReadRunning(w, c.w.sid, ch) && w.kv.sessions[c.w.sid].workerPod == c.w.pod
      then Some(Reading(ToSuspending(w.kv.sessions[c.w.sid], ForTerminate(c.w.pod, c.w.pool)), 0))
      else Some(Removing(c.w.sid, c.w.pod, c.w.pool))
    ensures c.CheckpointStart? ==>
      Act(w, c, ch).next ==
      if ReadRunning(w, c.sid, ch) && w.kv.sessions[c.sid].workerPodIP != ""
      then Some(Checkpointing(Copy(w.kv.sessions[c.sid], IncOf(w, c.sid)))) else None
    ensures c.HealStart? ==>
      Act(w, c, ch).next ==
      if !ch.kvError && c.sid in w.kv.sessions && w.kv.sessions[c.sid].state.Resuming?
         && w.kv.sessions[c.sid].workerPodIP != ""
      then Some(Healing(Copy(w.kv.sessions[c.sid], IncOf(w, c.sid)))) else None
    ensures c.Healing? ==>
      Act(w, c, ch).next ==
      if ch.ok then Some(Reading(ToPromoted(c.cur.e.sid, c.cur.e.workerPodIP), 0))
      else if c.cur.e.snapshotURI != "" then Some(Reading(ToHealed(c.cur.e.sid), 0)) else None
    ensures c.CreateStart? && !ch.kvError && c.e.sid in w.kv.sessions ==> Act(w, c, ch).next == None
  {
  }

  // ---- restore or cold start ----

  /** What a resume goes on with: the recorded snapshot and pool of a session read Suspended, or of a stale Running one,
      if it has a snapshot; else the plan for a cold start, if there is one. */
  ghost predicate GoesOnWith(next: Option<Client>, sid: Sid, read: Option<SessionEntry>, ch: Choice) {
    if read.Some? && (read.value.state.Suspended? || read.value.state.Running?) && read.value.snapshotURI != "" then
      && (next.Some? <==> read.value.pool != "")
      && (next.Some? ==>
            && next.value.ResumeClaim? && next.value.sid == sid && next.value.pool == read.value.pool
            && Replays(next.value.b, read.value))
    else
      && (next.Some? <==> ch.coldPlan.Some?)
      && (next.Some? ==>
            && next.value.ResumeClaim? && next.value.sid == sid && next.value.pool == ch.coldPlan.value.0
            && !next.value.b.restore && next.value.b.image == ch.coldPlan.value.1.image)
  }

  /** A resume fences a session read Running with an address; otherwise it restores a Suspended one from its snapshot
      and cold-starts everything else. A read that fails counts as no entry. */
  lemma {:induction false} ResumeChooses(w: World, sid: Sid, ch: Choice)
    ensures var next := Act(w, ResumeStart(sid), ch).next;
      var read := if !ch.kvError && sid in w.kv.sessions then Some(w.kv.sessions[sid]) else None;
      if read.Some? && read.value.state.Running? && read.value.workerPodIP != "" then
        next.Some? && next.value.ResumeFence? && next.value.cur.e == read.value
      else if read.Some? && read.value.state.Running? then
        GoesOnWith(next, sid, None, ch)
      else GoesOnWith(next, sid, read, ch)
  {
  }

  /** Past the fence, a session with a snapshot is restored from it, and only one without is cold-started. */
  lemma {:induction false} PastFenceRestores(w: World, cur: Copy, ch: Choice)
    requires cur.e.state.Running? && !FastPath(w, cur, ch)
    ensures GoesOnWith(Act(w, ResumeFence(cur), ch).next, cur.e.sid, Some(cur.e), ch)
  {
  }

  // ---- what a workflow owes ----

  /** The script the client has undertaken to run: to release a worker, to take one out, or to delete an entry. */
  ghost predicate Owes(c: Client, duty: Op) {
    match duty
    case Release(pod, pool) => c.Releasing? && c.pod == pod && c.pool == pool
    case Delete(sid) => (c.Releasing? && c.after.ThenDelete? && c.sid == sid) || (c.Deleting? && c.sid == sid)
    case Remove(pod, pool) =>
      || (c.TerminateStart? && c.w.pod == pod && c.w.pool == pool)
      || (c.Removing? && c.pod == pod && c.pool == pool)
      || ((c.Reading? || c.Writing?) && PlanTakesOut(c.plan, pod, pool))
      || (c.Calling? && c.plan.ToSuspending? && PlanTakesOut(c.plan, pod, pool))
    case _ => false
  }

  ghost predicate PlanTakesOut(plan: Plan, pod: Pod, pool: Pool) {
    (plan.ToSuspending? || plan.ToSuspended?) && plan.kind == ForTerminate(pod, pool)
  }

  /** An action runs the script owed, or leaves the client owing it, unless the store fails it. */
  lemma {:induction false} ActDischarges(w: World, c: Client, ch: Choice, duty: Op)
    requires Owes(c, duty) && (ch.kvError ==> !c.Releasing? && !c.Deleting? && !c.Removing?)
    ensures ActOp(w, c, ch) == Some(duty) || (Act(w, c, ch).next.Some? && Owes(Act(w, c, ch).next.value, duty))
  {
    if c.Reading? || c.Writing? {
      LoopDischarges(w, c, ch, duty);
    } else if c.TerminateStart? {
      assert duty.Remove?;
    } else {
      OtherDischarges(w, c, ch, duty);
    }
  }

  lemma {:induction false} LoopDischarges(w: World, c: Client, ch: Choice, duty: Op)
    requires Owes(c, duty) && (c.Reading? || c.Writing?)
    ensures ActLoop(w, c, ch).next.Some? && Owes(ActLoop(w, c, ch).next.value, duty)
  {
  }

  lemma {:induction false} OtherDischarges(w: World, c: Client, ch: Choice, duty: Op)
    requires Owes(c, duty) && (c.Calling? || c.Releasing? || c.Deleting? || c.Removing?)
    requires ch.kvError ==> c.Calling?
    ensures ActOp(w, c, ch) == Some(duty) ||
            (ActOther(w, c, ch).next.Some? && Owes(ActOther(w, c, ch).next.value, duty))
  {
  }

  /** The client's own scripts are not refused by the store. */
  ghost predicate Served(steps: seq<Step>, id: nat) {
    forall i | 0 <= i < |steps| :: steps[i].Do? && steps[i].id == id ==> !steps[i].ch.kvError
  }

  /** Somewhere in the run the client runs the script. */
  ghost predicate Discharged(w: World, steps: seq<Step>, id: nat, duty: Op, poolOf: Pod -> Pool)
    decreases |steps|
  {
    && steps != []
    && (|| (steps[0].Do? && steps[0].id == id && StepOp(w, steps[0], poolOf) == Some(duty))
        || Discharged(Next(w, steps[0], poolOf), steps[1..], id, duty, poolOf))
  }

  /** Whatever a client owes it has done by the time it is gone, through any steps of the others. */
  lemma {:induction false} DutiesAreDischarged(w: World, steps: seq<Step>, id: nat, duty: Op, poolOf: Pod -> Pool)
    requires Run(w, steps, poolOf) && Served(steps, id)
    requires id in w.clients && Owes(w.clients[id], duty) && id !in Final(w, steps, poolOf).clients
    ensures Discharged(w, steps, id, duty, poolOf)
    decreases |steps|
  {
    if steps != [] {
      var st := steps[0];
      if st.Do? && st.id == id {
        ActDischarges(w, w.clients[id], st.ch, duty);
      }
      if !(st.Do? && st.id == id && StepOp(w, st, poolOf) == Some(duty)) {
        DutiesAreDischarged(Next(w, st, poolOf), steps[1..], id, duty, poolOf);
      }
    }
  }

  /** Who takes a duty on: a terminate to take its worker out, from the start; a suspend whose write won, a resume that
      failed after its claim, and a reclaim of an orphaned binding, to give the worker back; a reset that was answered,
      and a delete of a bound session, to give the worker back and erase the entry. */
  lemma {:induction false} DutiesAreTaken(w: World, c: Client, ch: Choice)
    ensures c.TerminateStart? ==> Owes(c, Op.Remove(c.w.pod, c.w.pool))
    ensures Protocol.Wins(w, c, ch) && c.plan.ToSuspended? && !c.plan.kind.ForTerminate? ==>
      var next := Act(w, c, ch).next;
      next.Some? && Owes(next.value, Op.Release(c.plan.e.workerPod, c.plan.e.pool))
    ensures c.Calling? && !ch.ok && c.plan.ToResuming? ==>
      var next := Act(w, c, ch).next;
      next.Some? && Owes(next.value, Op.Release(c.plan.w.pod, c.plan.w.pool))
    ensures (c.Reading? || c.Writing?) && ch.kvError && (c.plan.ToResuming? || c.plan.ToRunning?) ==>
      var next := Act(w, c, ch).next;
      next.Some? && Owes(next.value, Op.Release(c.plan.w.pod, c.plan.w.pool))
    ensures c.ReclaimCheck? ==>
      var next := Act(w, c, ch).next;
      && (next.Some? <==> !ch.kvError && Anomalous(w.kv, c.w))
      && (next.Some? ==> Owes(next.value, Op.Release(c.w.pod, c.w.pool)))
    ensures c.Calling? && ch.ok && c.plan.ToSuspending? && c.plan.kind.ForReset? ==>
      var next := Act(w, c, ch).next;
      && next.Some? && Owes(next.value, Op.Release(c.plan.e.workerPod, c.plan.e.pool))
      && Owes(next.value, Op.Delete(c.plan.e.sid))
    ensures c.DeleteStart? && !ch.kvError && c.sid in w.kv.sessions ==>
      var next, e := Act(w, c, ch).next, w.kv.sessions[c.sid];
      && next.Some? && Owes(next.value, Op.Delete(c.sid))
      && (e.workerPod != "" ==> Owes(next.value, Op.Release(e.workerPod, e.pool)))
  {
  }
}
