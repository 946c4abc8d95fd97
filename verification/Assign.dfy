/** The assignment table: every state change is one atomic script.
    `KV` is the table as a value and the functions on it say what each script does. */
module Assign {
  import opened Records

  datatype KV = KV(
    sessions: map<Sid, SessionEntry>,
    workers: map<Pod, WorkerEntry>,
    idle: map<Pool, set<Pod>>,
    all: map<Pool, set<Pod>>,
    suspendDue: map<Sid, int>,
    checkpointDue: map<Sid, int>)

  const EMPTY_KV := KV(map[], map[], map[], map[], map[], map[])

  /** A set key that does not exist reads as the empty set. */
  function Members(sets: map<Pool, set<Pod>>, pool: Pool): set<Pod> {
    if pool in sets then sets[pool] else {}
  }

  predicate InSet(sets: map<Pool, set<Pod>>, pool: Pool, pod: Pod) {
    pod in Members(sets, pool)
  }

  function AddMember(sets: map<Pool, set<Pod>>, pool: Pool, pod: Pod): (r: map<Pool, set<Pod>>)
    ensures forall pool', pod' :: InSet(r, pool', pod') <==> InSet(sets, pool', pod') || (pool' == pool && pod' == pod)
  {
    sets[pool := Members(sets, pool) + {pod}]
  }

  function RemoveMember(sets: map<Pool, set<Pod>>, pool: Pool, pod: Pod): (r: map<Pool, set<Pod>>)
    ensures forall pool', pod' :: InSet(r, pool', pod') <==> InSet(sets, pool', pod') && !(pool' == pool && pod' == pod)
  {
    sets[pool := Members(sets, pool) - {pod}]
  }

  // ---- session scripts ----

  /** An absent key counts as version 0. */
  function VersionOf(kv: KV, sid: Sid): int {
    if sid in kv.sessions then kv.sessions[sid].version else 0
  }

  predicate AutoSuspends(e: SessionEntry) {
    e.state.Running? && e.lastActiveAt > 0 && e.idleTimeoutSeconds > 0
  }

  function SuspendDeadline(e: SessionEntry): int {
    e.lastActiveAt + e.idleTimeoutSeconds * 1000
  }

  predicate AutoCheckpoints(e: SessionEntry) {
    e.state.Running? && e.checkpointIntervalSeconds > 0
  }

  function CheckpointBase(e: SessionEntry, now: int): int {
    if e.lastCheckpointAt != 0 then e.lastCheckpointAt
    else if e.lastActiveAt != 0 then e.lastActiveAt
    else now
  }

  predicate CasWins(kv: KV, e: SessionEntry) {
    VersionOf(kv, e.sid) == e.version
  }

  /** The compare-and-set script: nothing happens unless the stored version is `e.version`. */
  function CasSession(kv: KV, e: SessionEntry, now: int): KV {
    if !CasWins(kv, e) then kv
    else
      kv.(sessions := kv.sessions[e.sid := e.(version := e.version + 1)],
          suspendDue := if AutoSuspends(e) then kv.suspendDue[e.sid := SuspendDeadline(e)] else kv.suspendDue - {e.sid},
          checkpointDue := if AutoCheckpoints(e)
                           then kv.checkpointDue[e.sid := CheckpointBase(e, now) + e.checkpointIntervalSeconds * 1000]
                           else kv.checkpointDue - {e.sid})
  }

  /** The activity stamp: sets one field, leaves the version alone, slides the suspend deadline. */
  function StampActive(kv: KV, sid: Sid, ms: int): KV {
    if sid !in kv.sessions then kv
    else
      var e := kv.sessions[sid].(lastActiveAt := ms);
      kv.(sessions := kv.sessions[sid := e],
          suspendDue := if e.state.Running? && e.idleTimeoutSeconds > 0
                        then kv.suspendDue[sid := SuspendDeadline(e)] else kv.suspendDue)
  }

  function DeleteSession(kv: KV, sid: Sid): KV {
    kv.(sessions := kv.sessions - {sid}, suspendDue := kv.suspendDue - {sid}, checkpointDue := kv.checkpointDue - {sid})
  }

  // ---- worker scripts ----

  predicate IsBusy(kv: KV, pod: Pod) {
    pod in kv.workers && kv.workers[pod].state.Busy?
  }

  predicate IsIdle(kv: KV, pod: Pod) {
    pod in kv.workers && kv.workers[pod].state.Idle?
  }

  /** The registration script: an idle registration of a busy worker keeps the stored entry. */
  function UpsertWorker(kv: KV, w: WorkerEntry): KV {
    var joined := kv.(all := AddMember(kv.all, w.pool, w.pod));
    if w.state.Idle? then
      if IsBusy(kv, w.pod) then joined
      else joined.(workers := kv.workers[w.pod := w], idle := AddMember(kv.idle, w.pool, w.pod))
    else joined.(workers := kv.workers[w.pod := w], idle := RemoveMember(kv.idle, w.pool, w.pod))
  }

  function RemoveWorker(kv: KV, pod: Pod, pool: Pool): KV {
    kv.(workers := kv.workers - {pod}, idle := RemoveMember(kv.idle, pool, pod), all := RemoveMember(kv.all, pool, pod))
  }

  function Claimed(w: WorkerEntry, sid: Sid): WorkerEntry {
    w.(state := Busy, sid := sid, version := w.version + 1)
  }

  function Released(w: WorkerEntry): WorkerEntry {
    w.(state := Idle, sid := "", version := w.version + 1)
  }

  /** The claim script after SPOP drew `pod`; a member without an entry is dropped and nothing is claimed. */
  function ClaimWorker(kv: KV, pool: Pool, pod: Pod, sid: Sid): KV {
    if !InSet(kv.idle, pool, pod) then kv
    else
      var popped := kv.(idle := RemoveMember(kv.idle, pool, pod));
      if pod in kv.workers then popped.(workers := kv.workers[pod := Claimed(kv.workers[pod], sid)]) else popped
  }

  predicate ClaimSucceeds(kv: KV, pool: Pool, pod: Pod) {
    InSet(kv.idle, pool, pod) && pod in kv.workers
  }

  function ReleaseWorker(kv: KV, pod: Pod, pool: Pool): KV {
    if pod in kv.workers then
      kv.(workers := kv.workers[pod := Released(kv.workers[pod])], idle := AddMember(kv.idle, pool, pod))
    else kv.(idle := RemoveMember(kv.idle, pool, pod))
  }

  function EnsurePoolMember(kv: KV, pod: Pod, pool: Pool): KV {
    kv.(all := AddMember(kv.all, pool, pod))
  }

  /** PoolWorkers taken as one step: members without an entry leave the all-set. */
  function PruneMembers(kv: KV, pool: Pool): KV {
    kv.(all := kv.all[pool := set pod | pod in Members(kv.all, pool) && pod in kv.workers])
  }

  // ---- scripts as data, so that whole histories can be quantified over ----

  datatype Op =
    | Cas(e: SessionEntry, now: int)
    | Stamp(sid: Sid, ms: int)
    | Delete(sid: Sid)
    | Upsert(w: WorkerEntry)
    | Remove(pod: Pod, pool: Pool)
    | Claim(pool: Pool, pod: Pod, sid: Sid)
    | Release(pod: Pod, pool: Pool)
    | Ensure(pod: Pod, pool: Pool)
    | Prune(pool: Pool)

  function Apply(kv: KV, op: Op): KV {
    match op
    case Cas(e, now) => CasSession(kv, e, now)
    case Stamp(sid, ms) => StampActive(kv, sid, ms)
    case Delete(sid) => DeleteSession(kv, sid)
    case Upsert(w) => UpsertWorker(kv, w)
    case Remove(pod, pool) => RemoveWorker(kv, pod, pool)
    case Claim(pool, pod, sid) => ClaimWorker(kv, pool, pod, sid)
    case Release(pod, pool) => ReleaseWorker(kv, pod, pool)
    case Ensure(pod, pool) => EnsurePoolMember(kv, pod, pool)
    case Prune(pool) => PruneMembers(kv, pool)
  }

  predicate IsSessionScript(op: Op) {
    op.Cas? || op.Stamp? || op.Delete?
  }

  predicate SameSessions(a: KV, b: KV) {
    a.sessions == b.sessions && a.suspendDue == b.suspendDue && a.checkpointDue == b.checkpointDue
  }

  lemma {:induction false} UpsertKeepsSessions(kv: KV, w: WorkerEntry)
    ensures SameSessions(UpsertWorker(kv, w), kv)
  {
    var joined := kv.(all := AddMember(kv.all, w.pool, w.pod));
    assert SameSessions(joined, kv);
  }

  lemma {:induction false} ClaimKeepsSessions(kv: KV, pool: Pool, pod: Pod, sid: Sid)
    ensures SameSessions(ClaimWorker(kv, pool, pod, sid), kv)
  {
  }

  lemma {:induction false} ReleaseKeepsSessions(kv: KV, pod: Pod, pool: Pool)
    ensures SameSessions(ReleaseWorker(kv, pod, pool), kv)
  {
  }

  lemma {:induction false} OnlySessionScriptsWriteSessions(kv: KV, op: Op)
    requires !IsSessionScript(op)
    ensures SameSessions(Apply(kv, op), kv)
  {
    match op
    case Upsert(w) => UpsertKeepsSessions(kv, w);
    case Claim(pool, pod, sid) => ClaimKeepsSessions(kv, pool, pod, sid);
    case Release(pod, pool) => ReleaseKeepsSessions(kv, pod, pool);
    case _ =>
  }

  lemma {:induction false} OnlyWorkerScriptsWriteWorkers(kv: KV, op: Op)
    requires IsSessionScript(op) || op.Ensure? || op.Prune?
    ensures Apply(kv, op).workers == kv.workers && Apply(kv, op).idle == kv.idle
  {
  }

  function ApplyAll(kv: KV, ops: seq<Op>): KV
    decreases |ops|
  {
    if ops == [] then kv else ApplyAll(Apply(kv, ops[0]), ops[1..])
  }

  lemma {:induction false} ApplyAllConcat(kv: KV, a: seq<Op>, b: seq<Op>)
    ensures ApplyAll(kv, a + b) == ApplyAll(ApplyAll(kv, a), b)
    decreases |a|
  {
    if a == [] {
      assert a + b == b;
    } else {
      assert (a + b)[1..] == a[1..] + b;
      ApplyAllConcat(Apply(kv, a[0]), a[1..], b);
    }
  }

  predicate PoolMatches(kv: KV, pod: Pod, pool: Pool) {
    pod in kv.workers ==> kv.workers[pod].pool == pool
  }

  /** What the callers owe a script: a pod keeps its pool, and stamps carry a unix time. */
  predicate Legal(kv: KV, op: Op) {
    match op
    case Stamp(_, ms) => ms > 0
    case Upsert(w) => PoolMatches(kv, w.pod, w.pool)
    case Remove(pod, pool) => PoolMatches(kv, pod, pool)
    case Release(pod, pool) => PoolMatches(kv, pod, pool)
    case _ => true
  }

  predicate LegalRun(kv: KV, ops: seq<Op>)
    decreases |ops|
  {
    ops == [] || (Legal(kv, ops[0]) && LegalRun(Apply(kv, ops[0]), ops[1..]))
  }

  // ---- the table's invariant ----

  ghost predicate KeyedSessions(sessions: map<Sid, SessionEntry>) {
    forall sid <- sessions :: sessions[sid].sid == sid && sessions[sid].version >= 1
  }

  ghost predicate KeyedWorkers(workers: map<Pod, WorkerEntry>) {
    forall pod <- workers :: workers[pod].pod == pod
  }

  predicate IdleIn(workers: map<Pod, WorkerEntry>, pool: Pool, pod: Pod) {
    pod in workers && workers[pod].state.Idle? && workers[pod].pool == pool
  }

  /** Each pool's idle set is exactly the pods of that pool whose entry is idle. */
  ghost predicate IdleExact(idle: map<Pool, set<Pod>>, workers: map<Pod, WorkerEntry>) {
    forall pool, pod :: InSet(idle, pool, pod) <==> IdleIn(workers, pool, pod)
  }

  ghost predicate Registered(all: map<Pool, set<Pod>>, workers: map<Pod, WorkerEntry>) {
    forall pod <- workers :: InSet(all, workers[pod].pool, pod)
  }

  predicate AutoSuspendsIn(sessions: map<Sid, SessionEntry>, sid: Sid) {
    sid in sessions && AutoSuspends(sessions[sid])
  }

  predicate AutoCheckpointsIn(sessions: map<Sid, SessionEntry>, sid: Sid) {
    sid in sessions && AutoCheckpoints(sessions[sid])
  }

  /** The suspend index is exactly what a full scan would compute. */
  ghost predicate SuspendExact(sessions: map<Sid, SessionEntry>, due: map<Sid, int>) {
    && (forall sid :: sid in due <==> AutoSuspendsIn(sessions, sid))
    && (forall sid <- due :: due[sid] == sessions[sid].lastActiveAt + sessions[sid].idleTimeoutSeconds * 1000)
  }

  /** Membership of the checkpoint index is exact; its score is exact once a checkpoint was recorded. */
  ghost predicate CheckpointExact(sessions: map<Sid, SessionEntry>, due: map<Sid, int>) {
    && (forall sid :: sid in due <==> AutoCheckpointsIn(sessions, sid))
    && (forall sid <- due | sessions[sid].lastCheckpointAt != 0 ::
          due[sid] == sessions[sid].lastCheckpointAt + sessions[sid].checkpointIntervalSeconds * 1000)
  }

  ghost predicate SessionsOk(sessions: map<Sid, SessionEntry>, suspendDue: map<Sid, int>,
                             checkpointDue: map<Sid, int>) {
    KeyedSessions(sessions) && SuspendExact(sessions, suspendDue) && CheckpointExact(sessions, checkpointDue)
  }

  ghost predicate WorkersOk(workers: map<Pod, WorkerEntry>, idle: map<Pool, set<Pod>>, all: map<Pool, set<Pod>>) {
    KeyedWorkers(workers) && IdleExact(idle, workers) && Registered(all, workers)
  }

  ghost predicate SessionInv(kv: KV) {
    SessionsOk(kv.sessions, kv.suspendDue, kv.checkpointDue)
  }

  ghost predicate WorkerInv(kv: KV) {
    WorkersOk(kv.workers, kv.idle, kv.all)
  }

  ghost predicate TableInv(kv: KV) {
    SessionInv(kv) && WorkerInv(kv)
  }

  lemma {:induction false} EmptyTableInv()
    ensures TableInv(EMPTY_KV)
  {
  }

  // ---- session scripts keep the deadline indexes exact ----

  lemma {:induction false} CasKeepsSuspendExact(kv: KV, e: SessionEntry, now: int)
    requires SuspendExact(kv.sessions, kv.suspendDue)
    ensures SuspendExact(CasSession(kv, e, now).sessions, CasSession(kv, e, now).suspendDue)
  {
  }

  lemma {:induction false} CasKeepsCheckpointExact(kv: KV, e: SessionEntry, now: int)
    requires CheckpointExact(kv.sessions, kv.checkpointDue)
    ensures CheckpointExact(CasSession(kv, e, now).sessions, CasSession(kv, e, now).checkpointDue)
  {
  }

  lemma {:induction false} CasKeepsSessionInv(kv: KV, e: SessionEntry, now: int)
    requires SessionInv(kv)
    ensures SessionInv(CasSession(kv, e, now))
  {
    CasKeepsSuspendExact(kv, e, now);
    CasKeepsCheckpointExact(kv, e, now);
  }

  lemma {:induction false} StampKeepsSessionInv(kv: KV, sid: Sid, ms: int)
    requires SessionInv(kv) && ms > 0
    ensures SessionInv(StampActive(kv, sid, ms))
  {
  }

  lemma {:induction false} DeleteKeepsSessionInv(kv: KV, sid: Sid)
    requires SessionInv(kv)
    ensures SessionInv(DeleteSession(kv, sid))
  {
  }

  // ---- worker scripts keep the idle index exact ----

  lemma {:induction false} IdleExactAdd(idle: map<Pool, set<Pod>>, workers: map<Pod, WorkerEntry>, w: WorkerEntry,
                                        pod: Pod)
    requires IdleExact(idle, workers) && w.state.Idle?
    requires pod in workers ==> workers[pod].pool == w.pool
    ensures IdleExact(AddMember(idle, w.pool, pod), workers[pod := w])
  {
    forall pool', pod'
      ensures InSet(AddMember(idle, w.pool, pod), pool', pod') <==> IdleIn(workers[pod := w], pool', pod')
    {
      assert InSet(idle, pool', pod') <==> IdleIn(workers, pool', pod');
    }
  }

  lemma {:induction false} IdleExactDrop(idle: map<Pool, set<Pod>>, workers: map<Pod, WorkerEntry>,
                                         workers': map<Pod, WorkerEntry>, pool: Pool, pod: Pod)
    requires IdleExact(idle, workers)
    requires pod in workers ==> workers[pod].pool == pool
    requires workers' - {pod} == workers - {pod}
    requires pod in workers' ==> workers'[pod].state.Busy?
    ensures IdleExact(RemoveMember(idle, pool, pod), workers')
  {
    forall pool', pod'
      ensures InSet(RemoveMember(idle, pool, pod), pool', pod') <==> IdleIn(workers', pool', pod')
    {
      assert InSet(idle, pool', pod') <==> IdleIn(workers, pool', pod');
      assert pod' in workers - {pod} <==> pod' in workers' - {pod};
    }
  }

  lemma {:induction false} UpsertKeepsWorkerInv(kv: KV, w: WorkerEntry)
    requires WorkerInv(kv) && PoolMatches(kv, w.pod, w.pool)
    ensures WorkerInv(UpsertWorker(kv, w))
  {
    if w.state.Idle? {
      IdleExactAdd(kv.idle, kv.workers, w, w.pod);
    } else {
      IdleExactDrop(kv.idle, kv.workers, kv.workers[w.pod := w], w.pool, w.pod);
    }
  }

  lemma {:induction false} RemoveKeepsWorkerInv(kv: KV, pod: Pod, pool: Pool)
    requires WorkerInv(kv) && PoolMatches(kv, pod, pool)
    ensures WorkerInv(RemoveWorker(kv, pod, pool))
  {
    IdleExactDrop(kv.idle, kv.workers, kv.workers - {pod}, pool, pod);
  }

  lemma {:induction false} ClaimKeepsWorkerInv(kv: KV, pool: Pool, pod: Pod, sid: Sid)
    requires WorkerInv(kv)
    ensures WorkerInv(ClaimWorker(kv, pool, pod, sid))
  {
    if InSet(kv.idle, pool, pod) {
      assert IdleIn(kv.workers, pool, pod);
      IdleExactDrop(kv.idle, kv.workers, kv.workers[pod := Claimed(kv.workers[pod], sid)], pool, pod);
    }
  }

  lemma {:induction false} ReleaseKeepsWorkerInv(kv: KV, pod: Pod, pool: Pool)
    requires WorkerInv(kv) && PoolMatches(kv, pod, pool)
    ensures WorkerInv(ReleaseWorker(kv, pod, pool))
  {
    if pod in kv.workers {
      IdleExactAdd(kv.idle, kv.workers, Released(kv.workers[pod]), pod);
    } else {
      IdleExactDrop(kv.idle, kv.workers, kv.workers, pool, pod);
    }
  }

  lemma {:induction false} MembershipKeepsWorkerInv(kv: KV, pod: Pod, pool: Pool)
    requires WorkerInv(kv)
    ensures WorkerInv(EnsurePoolMember(kv, pod, pool))
    ensures WorkerInv(PruneMembers(kv, pool))
  {
  }

  lemma {:induction false} ApplyKeepsSessionInv(kv: KV, op: Op)
    requires SessionInv(kv) && Legal(kv, op)
    ensures SessionInv(Apply(kv, op))
  {
    match op
    case Cas(e, now) => CasKeepsSessionInv(kv, e, now);
    case Stamp(sid, ms) => StampKeepsSessionInv(kv, sid, ms);
    case Delete(sid) => DeleteKeepsSessionInv(kv, sid);
    case _ => OnlySessionScriptsWriteSessions(kv, op);
  }

  lemma {:induction false} ApplyKeepsWorkerInv(kv: KV, op: Op)
    requires WorkerInv(kv) && Legal(kv, op)
    ensures WorkerInv(Apply(kv, op))
  {
    match op
    case Upsert(w) => UpsertKeepsWorkerInv(kv, w);
    case Remove(pod, pool) => RemoveKeepsWorkerInv(kv, pod, pool);
    case Claim(pool, pod, sid) => ClaimKeepsWorkerInv(kv, pool, pod, sid);
    case Release(pod, pool) => ReleaseKeepsWorkerInv(kv, pod, pool);
    case Ensure(pod, pool) => MembershipKeepsWorkerInv(kv, pod, pool);
    case Prune(pool) => MembershipKeepsWorkerInv(kv, "", pool);
    case _ =>
  }

  /** The indexes stay exact through every mix of scripts, in any order. */
  lemma {:induction false} RunKeepsTableInv(kv: KV, ops: seq<Op>)
    requires TableInv(kv) && LegalRun(kv, ops)
    ensures TableInv(ApplyAll(kv, ops))
    decreases |ops|
  {
    if ops != [] {
      ApplyKeepsSessionInv(kv, ops[0]);
      ApplyKeepsWorkerInv(kv, ops[0]);
      RunKeepsTableInv(Apply(kv, ops[0]), ops[1..]);
    }
  }

  /** Busy counts are never negative: idle is a subset of all, so is its size. */
  lemma {:induction false} IdleWithinAll(kv: KV, pool: Pool)
    requires TableInv(kv)
    ensures Members(kv.idle, pool) <= Members(kv.all, pool)
    ensures |Members(kv.idle, pool)| <= |Members(kv.all, pool)|
  {
    forall pod | pod in Members(kv.idle, pool) ensures pod in Members(kv.all, pool) {
      assert InSet(kv.idle, pool, pod) && IdleIn(kv.workers, pool, pod);
      assert InSet(kv.all, pool, pod);
    }
    SubsetSize(Members(kv.idle, pool), Members(kv.all, pool));
  }

  lemma {:induction false} SubsetSize<T>(a: set<T>, b: set<T>)
    requires a <= b
    ensures |a| <= |b|
  {
    assert b == a + (b - a);
  }

  // ---- claim exclusivity over whole histories ----

  predicate Releases(op: Op, pod: Pod) {
    op.Release? && op.pod == pod
  }

  predicate Removes(op: Op, pod: Pod) {
    op.Remove? && op.pod == pod
  }

  predicate RegistersIdle(op: Op, pod: Pod) {
    op.Upsert? && op.w.pod == pod && op.w.state.Idle?
  }

  predicate ClaimedAt(kv: KV, ops: seq<Op>, i: nat, pod: Pod)
    requires i < |ops|
  {
    ops[i].Claim? && ops[i].pod == pod && ClaimSucceeds(ApplyAll(kv, ops[..i]), ops[i].pool, pod)
  }

  /** One script makes a pod idle only by releasing it or by registering it while absent. */
  lemma {:induction false} TurnsIdleOnlyBy(kv: KV, op: Op, pod: Pod)
    requires !IsIdle(kv, pod) && IsIdle(Apply(kv, op), pod)
    ensures Releases(op, pod) || (RegistersIdle(op, pod) && pod !in kv.workers)
  {
  }

  lemma {:induction false} VanishesOnlyBy(kv: KV, op: Op, pod: Pod)
    requires pod in kv.workers && pod !in Apply(kv, op).workers
    ensures Removes(op, pod)
  {
  }

  /** Without a release, a pod becomes idle only by a registration while it is absent. */
  lemma {:induction false} BecomesIdleOnlyBy(kv: KV, ops: seq<Op>, pod: Pod)
    returns (k: int, l: nat)
    requires !IsIdle(kv, pod) && IsIdle(ApplyAll(kv, ops), pod)
    requires forall i | 0 <= i < |ops| :: !Releases(ops[i], pod)
    ensures l < |ops| && RegistersIdle(ops[l], pod)
    ensures k == -1 ==> pod !in kv.workers
    ensures -1 <= k < l && (k >= 0 ==> Removes(ops[k], pod))
    decreases |ops|
  {
    var next := Apply(kv, ops[0]);
    if IsIdle(next, pod) {
      TurnsIdleOnlyBy(kv, ops[0], pod);
      k, l := -1, 0;
    } else {
      var k', l' := BecomesIdleOnlyBy(next, ops[1..], pod);
      k, l := k' + 1, l' + 1;
      if k' == -1 {
        if pod in kv.workers {
          VanishesOnlyBy(kv, ops[0], pod);
        } else {
          k := -1;
        }
      }
    }
  }

  /** The script neither registers nor removes the pod. */
  predicate LeavesRegistered(op: Op, pod: Pod) {
    !(op.Upsert? && op.w.pod == pod) && !Removes(op, pod)
  }

  lemma {:induction false} ScriptMovesVersion(kv: KV, op: Op, pod: Pod)
    requires pod in kv.workers && LeavesRegistered(op, pod)
    ensures var after := Apply(kv, op).workers;
      && pod in after && after[pod].version >= kv.workers[pod].version
      && (after[pod].version == kv.workers[pod].version ==> after[pod] == kv.workers[pod])
  {
    if IsSessionScript(op) || op.Ensure? || op.Prune? {
      OnlyWorkerScriptsWriteWorkers(kv, op);
    }
  }

  /** Every claim and release moves a worker's version on, so a version seen again, with no registration or removal in
      between, is the same binding, never given up. */
  lemma {:induction false} SameVersionSameBinding(kv: KV, ops: seq<Op>, pod: Pod)
    requires pod in kv.workers && forall i | 0 <= i < |ops| :: LeavesRegistered(ops[i], pod)
    ensures var after := ApplyAll(kv, ops).workers;
      && pod in after && after[pod].version >= kv.workers[pod].version
      && (after[pod].version == kv.workers[pod].version ==> after[pod] == kv.workers[pod])
    decreases |ops|
  {
    if ops != [] {
      ScriptMovesVersion(kv, ops[0], pod);
      SameVersionSameBinding(Apply(kv, ops[0]), ops[1..], pod);
    }
  }

  lemma {:induction false} ClaimMakesBusy(kv: KV, op: Op)
    requires op.Claim? && ClaimSucceeds(kv, op.pool, op.pod)
    ensures IsBusy(Apply(kv, op), op.pod)
  {
  }

  lemma {:induction false} PrefixLegal(kv: KV, ops: seq<Op>, n: nat)
    requires n <= |ops| && LegalRun(kv, ops)
    ensures LegalRun(kv, ops[..n])
    decreases n
  {
    if n > 0 {
      PrefixLegal(Apply(kv, ops[0]), ops[1..], n - 1);
      assert ops[..n][1..] == ops[1..][..n - 1];
    }
  }

  /** Between two successful claims of one pod there is a release of it, or a removal of it followed by a fresh
      registration, whatever else the history holds. */
  lemma {:induction false} ClaimsAreExclusive(kv: KV, ops: seq<Op>, i: nat, j: nat, pod: Pod)
    requires TableInv(kv) && LegalRun(kv, ops)
    requires i < j < |ops| && ClaimedAt(kv, ops, i, pod) && ClaimedAt(kv, ops, j, pod)
    ensures exists k | i < k < j ::
      Releases(ops[k], pod) ||
      (Removes(ops[k], pod) && exists l | k < l < j :: RegistersIdle(ops[l], pod))
  {
    var at, after := ApplyAll(kv, ops[..i]), ApplyAll(kv, ops[..i + 1]);
    var between := ops[i + 1..j];
    assert ops[..i + 1] == ops[..i] + [ops[i]];
    ApplyAllConcat(kv, ops[..i], [ops[i]]);
    assert ApplyAll(at, [ops[i]]) == Apply(at, ops[i]);
    ClaimMakesBusy(at, ops[i]);
    assert ops[..j] == ops[..i + 1] + between;
    ApplyAllConcat(kv, ops[..i + 1], between);
    PrefixLegal(kv, ops, j);
    RunKeepsTableInv(kv, ops[..j]);
    assert IdleIn(ApplyAll(kv, ops[..j]).workers, ops[j].pool, pod);
    if m :| 0 <= m < |between| && Releases(between[m], pod) {
      assert Releases(ops[i + 1 + m], pod);
    } else {
      var k, l := BecomesIdleOnlyBy(after, between, pod);
      assert Removes(ops[i + 1 + k], pod) && RegistersIdle(ops[i + 1 + l], pod);
    }
  }
}
