/** Stale copies: what a winning compare-and-set says about the entry it replaces, in every interleaving. */
module Copies {
  import opened Records
  import opened Assign
  import opened Mutations
  import opened Protocol
  import opened Lineage
  import CasLoop

  /** The copy is the stored entry up to the activity stamp or, where it may be edited, resume()'s edit of it. */
  predicate IsCopyOf(e: SessionEntry, stored: SessionEntry, edited: bool) {
    SameButActivity(e, stored) || (edited && SameButActivity(e, StaleRunningEdit(stored)))
  }

  /** Against the table it came from: never ahead of it, and equal versions mean equal entries. */
  predicate Linked(sessions: map<Sid, SessionEntry>, e: SessionEntry, edited: bool) {
    if e.sid in sessions then
      && e.version <= sessions[e.sid].version
      && (e.version == sessions[e.sid].version ==> IsCopyOf(e, sessions[e.sid], edited))
    else e.version == 0
  }

  predicate CopyOk(sessions: map<Sid, SessionEntry>, incs: map<Sid, nat>, c: Copy, edited: bool) {
    && c.inc <= IncIn(incs, c.e.sid)
    && (c.inc == IncIn(incs, c.e.sid) ==> Linked(sessions, c.e, edited))
  }

  /** The copy a client may still write. */
  function Held(c: Client): Option<Copy> {
    match c
    case ResumeFence(cur) => Some(cur)
    case ResumeClaim(_, seed, _, _) => seed
    case Checkpointing(cur) => Some(cur)
    case Writing(_, _, local) => Some(local)
    case _ => None
  }

  /** Only a resume edits its copy before writing it. */
  predicate MayEdit(c: Client) {
    c.ResumeClaim? || (c.Writing? && c.plan.ToResuming?)
  }

  ghost predicate HeldOk(sessions: map<Sid, SessionEntry>, incs: map<Sid, nat>, c: Client) {
    Held(c).Some? ==> CopyOk(sessions, incs, Held(c).value, MayEdit(c))
  }

  ghost predicate CopiesOk(w: World) {
    forall id <- w.clients :: HeldOk(w.kv.sessions, w.incs, w.clients[id])
  }

  /** Everything that holds in every reachable world. */
  ghost predicate Inv(w: World, poolOf: Pod -> Pool) {
    Shape(w, poolOf) && CopiesOk(w)
  }

  // ---- a step either deletes a key, and says so by its incarnation, or leaves copies of it linked ----

  ghost predicate Evolves(sessions: map<Sid, SessionEntry>, incs: map<Sid, nat>,
                          sessions': map<Sid, SessionEntry>, incs': map<Sid, nat>) {
    forall sid ::
      || IncIn(incs', sid) > IncIn(incs, sid)
      || (IncIn(incs', sid) == IncIn(incs, sid) && CasLoop.EntryFollows(sessions, sessions', sid))
  }

  lemma {:induction false} CopyStaysOk(sessions: map<Sid, SessionEntry>, incs: map<Sid, nat>,
                                       sessions': map<Sid, SessionEntry>, incs': map<Sid, nat>, c: Copy,
                                       edited: bool)
    requires Evolves(sessions, incs, sessions', incs') && KeyedSessions(sessions')
    requires CopyOk(sessions, incs, c, edited)
    ensures CopyOk(sessions', incs', c, edited)
  {
    assert IncIn(incs', c.e.sid) > IncIn(incs, c.e.sid) || CasLoop.EntryFollows(sessions, sessions', c.e.sid);
  }

  lemma {:induction false} DeleteBumps(w: World, st: Step, sid: Sid, poolOf: Pod -> Pool)
    requires StepOp(w, st, poolOf) == Some(Delete(sid))
    ensures IncOf(Next(w, st, poolOf), sid) > IncOf(w, sid)
  {
  }

  lemma {:induction false} UndeletedKeepsIncarnation(w: World, st: Step, sid: Sid, poolOf: Pod -> Pool)
    requires Enabled(w, st) && StepOp(w, st, poolOf) != Some(Delete(sid))
    ensures IncOf(Next(w, st, poolOf), sid) == IncOf(w, sid)
  {
  }

  lemma {:induction false} UndeletedFollows(w: World, st: Step, sid: Sid, poolOf: Pod -> Pool)
    requires KeyedSessions(w.kv.sessions) && StepOp(w, st, poolOf) != Some(Delete(sid))
    ensures CasLoop.EntryFollows(w.kv.sessions, Next(w, st, poolOf).kv.sessions, sid)
  {
    StepIsOneScript(w, st, poolOf);
    var op := StepOp(w, st, poolOf);
    if op.Some? {
      CasLoop.ApplyFollows(w.kv, op.value, sid);
    }
  }

  lemma {:induction false} StepEvolves(w: World, st: Step, poolOf: Pod -> Pool)
    requires Shape(w, poolOf) && Enabled(w, st)
    ensures var w' := Next(w, st, poolOf); Evolves(w.kv.sessions, w.incs, w'.kv.sessions, w'.incs)
  {
    var w' := Next(w, st, poolOf);
    forall sid
      ensures IncIn(w'.incs, sid) > IncIn(w.incs, sid) ||
              (IncIn(w'.incs, sid) == IncIn(w.incs, sid) && CasLoop.EntryFollows(w.kv.sessions, w'.kv.sessions, sid))
    {
      if StepOp(w, st, poolOf) == Some(Delete(sid)) {
        DeleteBumps(w, st, sid, poolOf);
      } else {
        UndeletedKeepsIncarnation(w, st, sid, poolOf);
        UndeletedFollows(w, st, sid, poolOf);
      }
    }
  }

  lemma {:induction false} ReadCopyOk(w: World, sid: Sid)
    requires KeyedSessions(w.kv.sessions)
    ensures ReadCopy(w, sid).Some? ==> CopyOk(w.kv.sessions, w.incs, ReadCopy(w, sid).value, false)
  {
  }

  lemma {:induction false} UnversionedCopyOk(w: World, e: SessionEntry)
    requires KeyedSessions(w.kv.sessions) && e.version == 0
    ensures CopyOk(w.kv.sessions, w.incs, Copy(e, IncOf(w, e.sid)), false)
  {
  }

  lemma {:induction false} EditedCopyOk(sessions: map<Sid, SessionEntry>, incs: map<Sid, nat>, c: Copy)
    requires CopyOk(sessions, incs, c, false)
    ensures CopyOk(sessions, incs, c.(e := StaleRunningEdit(c.e)), true)
  {
  }

  lemma {:induction false} ResumeHeldOk(w: World, c: Client, ch: Choice)
    requires KeyedSessions(w.kv.sessions) && HeldOk(w.kv.sessions, w.incs, c)
    requires c.ResumeStart? || c.ResumeFence? || c.ResumeClaim?
    ensures ActResume(w, c, ch).next.Some? ==> HeldOk(w.kv.sessions, w.incs, ActResume(w, c, ch).next.value)
  {
    match c
    case ResumeStart(sid) => ReadCopyOk(w, sid);
    case ResumeFence(cur) => EditedCopyOk(w.kv.sessions, w.incs, cur);
    case ResumeClaim(_, _, _, _) =>
  }

  lemma {:induction false} LoopHeldOk(w: World, c: Client, ch: Choice)
    requires KeyedSessions(w.kv.sessions)
    requires c.Reading? || c.Writing?
    ensures ActLoop(w, c, ch).next.Some? ==> HeldOk(w.kv.sessions, w.incs, ActLoop(w, c, ch).next.value)
  {
    ReadCopyOk(w, PlanSid(c.plan));
    UnversionedCopyOk(w, FreshEntry(PlanSid(c.plan)));
  }

  lemma {:induction false} StartHeldOk(w: World, c: Client, ch: Choice)
    requires KeyedSessions(w.kv.sessions) && HeldOk(w.kv.sessions, w.incs, c)
    requires Begins(c)
    ensures ActStart(w, c, ch).next.Some? ==> HeldOk(w.kv.sessions, w.incs, ActStart(w, c, ch).next.value)
  {
    if c.CheckpointStart? {
      ReadCopyOk(w, c.sid);
    }
  }

  /** The copies a client action takes are linked to the table it reads. */
  lemma {:induction false} NextHeldOk(w: World, c: Client, ch: Choice)
    requires KeyedSessions(w.kv.sessions) && HeldOk(w.kv.sessions, w.incs, c)
    requires c.CreateStart? ==> c.e.version == 0
    ensures Act(w, c, ch).next.Some? ==> HeldOk(w.kv.sessions, w.incs, Act(w, c, ch).next.value)
  {
    if c.ResumeStart? || c.ResumeFence? || c.ResumeClaim? {
      ResumeHeldOk(w, c, ch);
    } else if c.Reading? || c.Writing? {
      LoopHeldOk(w, c, ch);
    } else if Begins(c) {
      StartHeldOk(w, c, ch);
    } else if c.CreateStart? {
      UnversionedCopyOk(w, c.e);
    }
  }

  lemma {:induction false} StepKeepsCopies(w: World, st: Step, poolOf: Pod -> Pool)
    requires Inv(w, poolOf) && Enabled(w, st)
    ensures CopiesOk(Next(w, st, poolOf))
  {
    var w' := Next(w, st, poolOf);
    StepEvolves(w, st, poolOf);
    StepKeepsTable(w, st, poolOf);
    forall id | id in w'.clients ensures HeldOk(w'.kv.sessions, w'.incs, w'.clients[id]) {
      var c' := w'.clients[id];
      assert HeldOk(w.kv.sessions, w.incs, c') by {
        if id in w.clients {
          assert HeldOk(w.kv.sessions, w.incs, w.clients[id]) && ClientOk(w.clients[id], poolOf);
          if st.Do? && st.id == id {
            NextHeldOk(w, w.clients[id], st.ch);
          }
        }
      }
      if Held(c').Some? {
        CopyStaysOk(w.kv.sessions, w.incs, w'.kv.sessions, w'.incs, Held(c').value, MayEdit(c'));
      }
    }
  }

  lemma {:induction false} StepKeepsInv(w: World, st: Step, poolOf: Pod -> Pool)
    requires Inv(w, poolOf) && Enabled(w, st)
    ensures Inv(Next(w, st, poolOf), poolOf)
  {
    StepKeepsShape(w, st, poolOf);
    StepKeepsCopies(w, st, poolOf);
  }

  /** Every reachable world, under full interleaving of every client, satisfies the invariant: the idle and deadline
      indexes are exact, and every Suspended entry has a snapshot and no worker. */
  lemma {:induction false} ReachableInv(w: World, steps: seq<Step>, poolOf: Pod -> Pool)
    requires Inv(w, poolOf) && Run(w, steps, poolOf)
    ensures Inv(Final(w, steps, poolOf), poolOf)
    decreases |steps|
  {
    if steps != [] {
      StepKeepsInv(w, steps[0], poolOf);
      ReachableInv(Next(w, steps[0], poolOf), steps[1..], poolOf);
    }
  }

  lemma {:induction false} InitInv(poolOf: Pod -> Pool)
    ensures Inv(INIT, poolOf)
  {
    EmptyTableInv();
  }

  /** In every reachable world a stored Suspended entry can be restored and holds no worker. */
  lemma {:induction false} SuspendedIsRestorable(steps: seq<Step>, poolOf: Pod -> Pool, sid: Sid)
    requires Run(INIT, steps, poolOf)
    ensures var kv := Final(INIT, steps, poolOf).kv;
      sid in kv.sessions && kv.sessions[sid].state.Suspended? ==>
        kv.sessions[sid].snapshotURI != "" && kv.sessions[sid].workerPod == "" && kv.sessions[sid].workerPodIP == ""
  {
    InitInv(poolOf);
    ReachableInv(INIT, steps, poolOf);
  }

  /** The request asks for the recorded snapshot on the engine that wrote it, with everything else as recorded. */
  ghost predicate Replays(b: BindSpec, e: SessionEntry) {
    && b.restore && b.snapshot == e.snapshotURI && b.runtime == e.runtime && b.engineVersion == e.engineVersion
    && b.image == e.image && b.ports == e.ports && b.health == e.health && b.roleARN == e.iamRoleARN
    && b.egressMbps == e.egressMbps && b.ingressMbps == e.ingressMbps
    && b.idleTimeoutSeconds == e.idleTimeoutSeconds
    && b.checkpointIntervalSeconds == e.checkpointIntervalSeconds
  }

  /** So a resume that reads Suspended restores that very snapshot, or claims nothing: it never cold-starts. */
  lemma {:induction false} SuspendedNeverColdStarts(steps: seq<Step>, poolOf: Pod -> Pool, sid: Sid, ch: Choice)
    requires Run(INIT, steps, poolOf) && !ch.kvError
    requires var kv := Final(INIT, steps, poolOf).kv; sid in kv.sessions && kv.sessions[sid].state.Suspended?
    ensures var w := Final(INIT, steps, poolOf);
      var next := Act(w, ResumeStart(sid), ch).next;
      && (next.Some? <==> w.kv.sessions[sid].pool != "")
      && (next.Some? ==>
            && next.value.ResumeClaim? && next.value.pool == w.kv.sessions[sid].pool
            && Replays(next.value.b, w.kv.sessions[sid]) && next.value.b.snapshot != "")
  {
    SuspendedIsRestorable(steps, poolOf, sid);
  }

  // ---- guarded writers ----

  /** The write a client is about to make wins, and its key was not deleted since it read its copy. */
  ghost predicate WinsOnCurrent(w: World, c: Client, ch: Choice) {
    Protocol.Wins(w, c, ch) && c.local.inc == IncOf(w, c.local.e.sid)
  }

  /** A winning write on the current incarnation replaces the entry its copy mirrors; with version 0 it creates. */
  lemma {:induction false} WinReplacesCopy(w: World, id: nat, ch: Choice, poolOf: Pod -> Pool)
    requires Inv(w, poolOf) && id in w.clients && WinsOnCurrent(w, w.clients[id], ch)
    ensures var local := w.clients[id].local.e;
      if local.sid in w.kv.sessions then IsCopyOf(local, w.kv.sessions[local.sid], MayEdit(w.clients[id]))
      else local.version == 0
  {
    var c := w.clients[id];
    assert HeldOk(w.kv.sessions, w.incs, c) && ClientOk(c, poolOf);
    EditKeepsEntryOk(c.plan, c.local.e, ch.now, poolOf);
  }

  /** A winning write of the session holds a copy of its current incarnation. */
  ghost predicate WritesCurrent(w: World, st: Step, sid: Sid)
    requires Enabled(w, st)
  {
    st.Do? && Protocol.Wins(w, w.clients[st.id], st.ch) && ClientSid(w.clients[st.id]) == sid ==>
      WinsOnCurrent(w, w.clients[st.id], st.ch)
  }

  /** A recorded snapshot is never lost by a step that does not delete the key. */
  lemma {:induction false} SnapshotNeverLost(w: World, st: Step, poolOf: Pod -> Pool, sid: Sid)
    requires Inv(w, poolOf) && Enabled(w, st)
    requires WritesCurrent(w, st, sid) && sid in w.kv.sessions && w.kv.sessions[sid].snapshotURI != ""
    ensures var kv := Next(w, st, poolOf).kv;
      if sid in kv.sessions then kv.sessions[sid].snapshotURI != ""
      else StepOp(w, st, poolOf) == Some(Delete(sid))
  {
    StepIsOneScript(w, st, poolOf);
    var op := StepOp(w, st, poolOf);
    if op.Some? && op.value != Delete(sid) {
      if op.value.Cas? && op.value.e.sid == sid {
        WrittenSnapshot(w, st, poolOf, sid);
      }
      UnwrittenSnapshotStays(w.kv, op.value, sid);
    }
  }

  /** Each step leaves the key in place, and writes it only from a copy of its current incarnation. */
  ghost predicate CurrentRun(w: World, steps: seq<Step>, poolOf: Pod -> Pool, sid: Sid)
    decreases |steps|
  {
    steps == [] ||
    (&& Enabled(w, steps[0]) && WritesCurrent(w, steps[0], sid) && StepOp(w, steps[0], poolOf) != Some(Delete(sid))
     && CurrentRun(Next(w, steps[0], poolOf), steps[1..], poolOf, sid))
  }

  /** A recorded snapshot is never lost over any such run. */
  lemma {:induction false} SnapshotSurvivesRun(w: World, steps: seq<Step>, poolOf: Pod -> Pool, sid: Sid)
    requires Inv(w, poolOf) && CurrentRun(w, steps, poolOf, sid)
    requires sid in w.kv.sessions && w.kv.sessions[sid].snapshotURI != ""
    ensures var kv := Final(w, steps, poolOf).kv; sid in kv.sessions && kv.sessions[sid].snapshotURI != ""
    decreases |steps|
  {
    if steps != [] {
      SnapshotNeverLost(w, steps[0], poolOf, sid);
      StepKeepsInv(w, steps[0], poolOf);
      SnapshotSurvivesRun(Next(w, steps[0], poolOf), steps[1..], poolOf, sid);
    }
  }

  ghost predicate NeverDeletes(w: World, steps: seq<Step>, poolOf: Pod -> Pool, sid: Sid)
    decreases |steps|
  {
    steps == [] ||
    (&& StepOp(w, steps[0], poolOf) != Some(Delete(sid))
     && NeverDeletes(Next(w, steps[0], poolOf), steps[1..], poolOf, sid))
  }

  /** While a key has never been deleted every copy of it is of its one incarnation, so no stale copy can win. */
  lemma {:induction false} UndeletedRunIsCurrent(w: World, steps: seq<Step>, poolOf: Pod -> Pool, sid: Sid)
    requires Inv(w, poolOf) && IncOf(w, sid) == 0 && Run(w, steps, poolOf) && NeverDeletes(w, steps, poolOf, sid)
    ensures CurrentRun(w, steps, poolOf, sid)
    decreases |steps|
  {
    if steps != [] {
      UndeletedWritesCurrent(w, steps[0], sid, poolOf);
      StepKeepsInv(w, steps[0], poolOf);
      UndeletedKeepsIncarnation(w, steps[0], sid, poolOf);
      UndeletedRunIsCurrent(Next(w, steps[0], poolOf), steps[1..], poolOf, sid);
    }
  }

  lemma {:induction false} UndeletedWritesCurrent(w: World, st: Step, sid: Sid, poolOf: Pod -> Pool)
    requires Inv(w, poolOf) && Enabled(w, st) && IncOf(w, sid) == 0
    ensures WritesCurrent(w, st, sid)
  {
    if st.Do? && w.clients[st.id].Writing? {
      assert HeldOk(w.kv.sessions, w.incs, w.clients[st.id]) && ClientOk(w.clients[st.id], poolOf);
    }
  }

  lemma {:induction false} WrittenSnapshot(w: World, st: Step, poolOf: Pod -> Pool, sid: Sid)
    requires Inv(w, poolOf) && Enabled(w, st) && WritesCurrent(w, st, sid)
    requires sid in w.kv.sessions && w.kv.sessions[sid].snapshotURI != ""
    requires var op := StepOp(w, st, poolOf); op.Some? && op.value.Cas? && op.value.e.sid == sid
    ensures StepOp(w, st, poolOf).value.e.snapshotURI != ""
  {
    var c := w.clients[st.id];
    assert ClientOk(c, poolOf);
    EditKeepsEntryOk(c.plan, c.local.e, st.ch.now, poolOf);
    WinReplacesCopy(w, st.id, st.ch, poolOf);
    WinKeepsSnapshot(c, st.ch, w.kv.sessions, poolOf);
  }

  lemma {:induction false} UnwrittenSnapshotStays(kv: KV, op: Op, sid: Sid)
    requires sid in kv.sessions && op != Delete(sid)
    requires op.Cas? && op.e.sid == sid ==> op.e.snapshotURI != ""
    requires kv.sessions[sid].snapshotURI != ""
    ensures sid in Apply(kv, op).sessions && Apply(kv, op).sessions[sid].snapshotURI != ""
  {
  }

  lemma {:induction false} WinKeepsSnapshot(c: Client, ch: Choice, sessions: map<Sid, SessionEntry>,
                                            poolOf: Pod -> Pool)
    requires c.Writing? && ClientOk(c, poolOf)
    requires c.local.e.sid in sessions ==> IsCopyOf(c.local.e, sessions[c.local.e.sid], MayEdit(c))
    requires KeyedSessions(sessions)
    requires c.local.e.sid in sessions && sessions[c.local.e.sid].snapshotURI != ""
    ensures Edit(c.plan, c.local.e, ch.now).snapshotURI != ""
  {
  }
}
