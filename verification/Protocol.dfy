/** The session protocol at script granularity: any number of clients, each with its own program counter and its own,
    possibly stale, copy of an entry, interleaving over the one table. Worker replies, store errors and the member
    SPOP draws are choices. */
module Protocol {
  import opened Records
  import opened Assign
  import opened Mutations

  /** An entry as read, with the incarnation of its key: versions restart after a delete, incarnations do not. */
  datatype Copy = Copy(e: SessionEntry, inc: nat)

  datatype Kind = ForSuspend | ForReset | ForTerminate(pod: Pod, pool: Pool)

  /** What a compare-and-set loop is for. */
  datatype Plan =
    | ToResuming(sid: Sid, w: WorkerEntry, b: BindSpec)
    | ToRunning(sid: Sid, w: WorkerEntry, b: BindSpec)
    | ToRolledBack(sid: Sid)
    | ToSuspending(e: SessionEntry, kind: Kind)
    | ToSuspended(e: SessionEntry, kind: Kind, reply: SnapshotReply)
    | ToCheckpointed(e: SessionEntry, reply: SnapshotReply)
    | ToHealed(sid: Sid)
    | ToPromoted(sid: Sid, ip: string)
    | ToCreated(e: SessionEntry)

  datatype AfterRelease = Finish | ThenRollBack | ThenDelete

  /** A client, named by what it does next. */
  datatype Client =
    | ResumeStart(sid: Sid)
    | ResumeFence(cur: Copy)
    | ResumeClaim(sid: Sid, seed: Option<Copy>, b: BindSpec, pool: Pool)
    | SuspendStart(sid: Sid, kind: Kind)
    | TerminateStart(w: WorkerEntry)
    | CheckpointStart(sid: Sid)
    | Checkpointing(cur: Copy)
    | HealStart(sid: Sid)
    | Healing(cur: Copy)
    | DeleteStart(sid: Sid)
    | ReclaimCheck(w: WorkerEntry)
    | CreateStart(e: SessionEntry)
    | Reading(plan: Plan, tries: nat)
    | Writing(plan: Plan, tries: nat, local: Copy)
    | Calling(plan: Plan)
    | Releasing(sid: Sid, pod: Pod, pool: Pool, after: AfterRelease)
    | Deleting(sid: Sid)
    | Removing(sid: Sid, pod: Pod, pool: Pool)

  function PlanSid(plan: Plan): Sid {
    match plan
    case ToSuspending(e, _) => e.sid
    case ToSuspended(e, _, _) => e.sid
    case ToCheckpointed(e, _) => e.sid
    case ToCreated(e) => e.sid
    case _ => plan.sid
  }

  function ClientSid(c: Client): Sid {
    match c
    case ResumeFence(cur) => cur.e.sid
    case Checkpointing(cur) => cur.e.sid
    case Healing(cur) => cur.e.sid
    case TerminateStart(w) => w.sid
    case ReclaimCheck(w) => w.sid
    case CreateStart(e) => e.sid
    case Reading(plan, _) => PlanSid(plan)
    case Writing(plan, _, _) => PlanSid(plan)
    case Calling(plan) => PlanSid(plan)
    case _ => c.sid
  }

  /** The entry a loop writes, given the copy it holds. */
  function Edit(plan: Plan, e: SessionEntry, now: int): SessionEntry {
    match plan
    case ToResuming(_, w, b) => MarkResuming(e, w, b)
    case ToRunning(_, w, _) => MarkRunning(e, w.podIP)
    case ToRolledBack(_) => RollBack(e)
    case ToSuspending(_, _) => MarkSuspending(e)
    case ToSuspended(_, _, reply) => MarkSuspended(e, reply)
    case ToCheckpointed(_, reply) => Checkpointed(e, reply, now)
    case ToHealed(_) => Unbound(e).(state := Suspended)
    case ToPromoted(_, _) => e.(state := Running)
    case ToCreated(seed) => seed
  }

  /** What a loop re-checks on every copy before it writes; the loop stops when it fails. */
  predicate Guard(plan: Plan, e: SessionEntry) {
    match plan
    case ToCheckpointed(seen, _) => e.state.Running? && e.workerPod == seen.workerPod
    case ToHealed(_) => e.state.Resuming? && e.snapshotURI != ""
    case ToPromoted(_, ip) => e.state.Resuming? && e.workerPodIP == ip
    case _ => true
  }

  predicate CreatesMissing(plan: Plan) {
    plan.ToResuming? || plan.ToRunning? || plan.ToRolledBack?
  }

  datatype Choice = Choice(
    kvError: bool,
    ok: bool,
    drawn: Pod,
    now: int,
    reply: SnapshotReply,
    coldPlan: Option<(Pool, BindSpec)>)

  datatype World = World(
    kv: KV,
    mirrored: set<SessionEntry>,
    retired: set<Pod>,
    incs: map<Sid, nat>,
    clients: map<nat, Client>)

  const INIT := World(EMPTY_KV, {}, {}, map[], map[])

  function IncIn(incs: map<Sid, nat>, sid: Sid): nat {
    if sid in incs then incs[sid] else 0
  }

  function IncOf(w: World, sid: Sid): nat {
    IncIn(w.incs, sid)
  }

  function ReadCopy(w: World, sid: Sid): Option<Copy> {
    if sid in w.kv.sessions then Some(Copy(w.kv.sessions[sid], IncOf(w, sid))) else None
  }

  datatype Effect = Effect(kv: KV, next: Option<Client>)

  // ---- where a client goes next ----

  /** Restore from the recorded snapshot if the copy is Suspended with one; otherwise cold start from the plan. */
  function Branch(sid: Sid, cur: Option<Copy>, ch: Choice): Option<Client> {
    if cur.Some? && cur.value.e.state.Suspended? && cur.value.e.snapshotURI != "" then
      if cur.value.e.pool == "" then None
      else Some(ResumeClaim(sid, cur, RestoreSpec(cur.value.e), cur.value.e.pool))
    else if ch.coldPlan.None? then None
    else Some(ResumeClaim(sid, cur, ch.coldPlan.value.1.(restore := false), ch.coldPlan.value.0))
  }

  function OnSuccess(plan: Plan): Option<Client> {
    match plan
    case ToResuming(_, _, _) => Some(Calling(plan))
    case ToSuspending(_, _) => Some(Calling(plan))
    case ToSuspended(e, kind, _) =>
      if kind.ForTerminate? then Some(Removing(e.sid, kind.pod, kind.pool))
      else Some(Releasing(e.sid, e.workerPod, e.pool, Finish))
    case _ => None
  }

  function OnFailure(plan: Plan): Option<Client> {
    match plan
    case ToResuming(sid, w, b) => Some(Releasing(sid, w.pod, w.pool, if b.restore then ThenRollBack else Finish))
    case ToRunning(sid, w, b) => Some(Releasing(sid, w.pod, w.pool, if b.restore then ThenRollBack else Finish))
    case ToSuspending(e, kind) => if kind.ForTerminate? then Some(Removing(e.sid, kind.pod, kind.pool)) else None
    case ToSuspended(e, kind, _) => if kind.ForTerminate? then Some(Removing(e.sid, kind.pod, kind.pool)) else None
    case _ => None
  }

  function AfterCall(plan: Plan, ch: Choice): Option<Client> {
    if !ch.ok then OnFailure(plan)
    else
      match plan
      case ToResuming(sid, w, b) => Some(Reading(ToRunning(sid, w, b), 0))
      case ToSuspending(e, kind) =>
        if kind.ForReset? then Some(Releasing(e.sid, e.workerPod, e.pool, ThenDelete))
        else Some(Reading(ToSuspended(e, kind, ch.reply), 0))
      case _ => None
  }

  predicate Suspendable(e: SessionEntry) {
    e.state.Running? && e.workerPodIP != ""
  }

  /** The reclaim rule: the session is gone, Suspended, or bound to another pod. */
  predicate Anomalous(kv: KV, w: WorkerEntry) {
    || w.sid == ""
    || w.sid !in kv.sessions
    || kv.sessions[w.sid].state.Suspended?
    || (kv.sessions[w.sid].workerPod != "" && kv.sessions[w.sid].workerPod != w.pod)
  }

  function AfterRead(w: World, plan: Plan, tries: nat): Option<Client> {
    var got := ReadCopy(w, PlanSid(plan));
    if got.None? then
      if CreatesMissing(plan) then Some(Writing(plan, tries, Copy(FreshEntry(PlanSid(plan)), IncOf(w, PlanSid(plan)))))
      else OnFailure(plan)
    else if Guard(plan, got.value.e) then Some(Writing(plan, tries, got.value))
    else None
  }

  // ---- one atomic action of a client ----

  predicate Begins(c: Client) {
    || c.SuspendStart? || c.TerminateStart? || c.CheckpointStart? || c.Checkpointing? || c.HealStart? || c.Healing?
  }

  predicate Concludes(c: Client) {
    || c.DeleteStart? || c.ReclaimCheck? || c.CreateStart? || c.Calling? || c.Releasing? || c.Deleting? || c.Removing?
  }

  /** The fence: the recorded worker could be read and still holds the session, so the resume answers with it. */
  predicate FastPath(w: World, cur: Copy, ch: Choice) {
    !ch.kvError && WorkerHolds(w.kv.workers, cur.e.workerPod, cur.e.sid)
  }

  /** What a resume past the fence goes on with: the stale Running copy, edited in memory. */
  function PastFence(cur: Copy, ch: Choice): Option<Client> {
    Branch(cur.e.sid, Some(cur.(e := StaleRunningEdit(cur.e))), ch)
  }

  function ActResume(w: World, c: Client, ch: Choice): Effect
    requires c.ResumeStart? || c.ResumeFence? || c.ResumeClaim?
  {
    match c
    case ResumeStart(sid) =>
      var cur := if ch.kvError then None else ReadCopy(w, sid);
      if cur.Some? && Suspendable(cur.value.e) then Effect(w.kv, Some(ResumeFence(cur.value)))
      else Effect(w.kv, Branch(sid, cur, ch))
    case ResumeFence(cur) =>
      Effect(w.kv, if FastPath(w, cur, ch) then None else PastFence(cur, ch))
    case ResumeClaim(sid, seed, b, pool) =>
      if ch.kvError || !InSet(w.kv.idle, pool, ch.drawn) then Effect(w.kv, None)
      else
        var after := ClaimWorker(w.kv, pool, ch.drawn, sid);
        if ch.drawn !in w.kv.workers then Effect(after, None)
        else
          var plan := ToResuming(sid, after.workers[ch.drawn], b);
          Effect(after, if seed.Some? then Some(Writing(plan, 0, seed.value)) else Some(Reading(plan, 0)))
  }

  function ActStart(w: World, c: Client, ch: Choice): Effect
    requires Begins(c)
  {
    match c
    case SuspendStart(sid, kind) =>
      var cur := ReadCopy(w, sid);
      Effect(w.kv, if !ch.kvError && cur.Some? && Suspendable(cur.value.e)
                   then Some(Reading(ToSuspending(cur.value.e, kind), 0)) else None)
    case TerminateStart(v) =>
      var cur := ReadCopy(w, v.sid);
      Effect(w.kv, if !ch.kvError && cur.Some? && cur.value.e.state.Running? && cur.value.e.workerPod == v.pod
                   then Some(Reading(ToSuspending(cur.value.e, ForTerminate(v.pod, v.pool)), 0))
                   else Some(Removing(v.sid, v.pod, v.pool)))
    case CheckpointStart(sid) =>
      var cur := ReadCopy(w, sid);
      Effect(w.kv, if !ch.kvError && cur.Some? && Suspendable(cur.value.e)
                   then Some(Checkpointing(cur.value)) else None)
    case Checkpointing(cur) =>
      Effect(w.kv, if ch.ok then Some(Writing(ToCheckpointed(cur.e, ch.reply), 0, cur)) else None)
    case HealStart(sid) =>
      var cur := ReadCopy(w, sid);
      Effect(w.kv, if !ch.kvError && cur.Some? && cur.value.e.state.Resuming? && cur.value.e.workerPodIP != ""
                   then Some(Healing(cur.value)) else None)
    case Healing(cur) =>
      Effect(w.kv, if ch.ok then Some(Reading(ToPromoted(cur.e.sid, cur.e.workerPodIP), 0))
                   else if cur.e.snapshotURI != "" then Some(Reading(ToHealed(cur.e.sid), 0))
                   else None)
  }

  function ActOther(w: World, c: Client, ch: Choice): Effect
    requires Concludes(c)
  {
    match c
    case DeleteStart(sid) =>
      var cur := ReadCopy(w, sid);
      Effect(w.kv, if ch.kvError || cur.None? then None
                   else if cur.value.e.workerPod != ""
                   then Some(Releasing(sid, cur.value.e.workerPod, cur.value.e.pool, ThenDelete))
                   else Some(Deleting(sid)))
    case ReclaimCheck(v) =>
      Effect(w.kv, if !ch.kvError && Anomalous(w.kv, v) then Some(Releasing(v.sid, v.pod, v.pool, Finish)) else None)
    case CreateStart(e) =>
      Effect(w.kv, if !ch.kvError && e.sid in w.kv.sessions then None
                   else Some(Writing(ToCreated(e), MAX_TRIES - 1, Copy(e, IncOf(w, e.sid)))))
    case Calling(plan) => Effect(w.kv, AfterCall(plan, ch))
    case Releasing(sid, pod, pool, after) =>
      Effect(if ch.kvError then w.kv else ReleaseWorker(w.kv, pod, pool),
             match after
             case Finish => None
             case ThenRollBack => Some(Reading(ToRolledBack(sid), 0))
             case ThenDelete => Some(Deleting(sid)))
    case Deleting(sid) => Effect(if ch.kvError then w.kv else DeleteSession(w.kv, sid), None)
    case Removing(_, pod, pool) => Effect(if ch.kvError then w.kv else RemoveWorker(w.kv, pod, pool), None)
  }

  function ActLoop(w: World, c: Client, ch: Choice): Effect
    requires c.Reading? || c.Writing?
  {
    match c
    case Reading(plan, tries) => Effect(w.kv, if ch.kvError then OnFailure(plan) else AfterRead(w, plan, tries))
    case Writing(plan, tries, local) =>
      if ch.kvError then Effect(w.kv, OnFailure(plan))
      else if CasWins(w.kv, Edit(plan, local.e, ch.now)) then
        Effect(CasSession(w.kv, Edit(plan, local.e, ch.now), ch.now), OnSuccess(plan))
      else Effect(w.kv, if tries + 1 < MAX_TRIES then Some(Reading(plan, tries + 1)) else OnFailure(plan))
  }

  function Act(w: World, c: Client, ch: Choice): Effect {
    match c
    case ResumeStart(_) => ActResume(w, c, ch)
    case ResumeFence(_) => ActResume(w, c, ch)
    case ResumeClaim(_, _, _, _) => ActResume(w, c, ch)
    case SuspendStart(_, _) => ActStart(w, c, ch)
    case TerminateStart(_) => ActStart(w, c, ch)
    case CheckpointStart(_) => ActStart(w, c, ch)
    case Checkpointing(_) => ActStart(w, c, ch)
    case HealStart(_) => ActStart(w, c, ch)
    case Healing(_) => ActStart(w, c, ch)
    case Reading(_, _) => ActLoop(w, c, ch)
    case Writing(_, _, _) => ActLoop(w, c, ch)
    case _ => ActOther(w, c, ch)
  }

  /** Is this action a write that won? */
  predicate Wins(w: World, c: Client, ch: Choice) {
    c.Writing? && !ch.kvError && CasWins(w.kv, Edit(c.plan, c.local.e, ch.now))
  }

  /** Entries handed to the durable mirror: Suspended ones but those seeded or rebuilt, and the checkpointer's. They may
      reach it late or never. */
  function Mirrors(w: World, c: Client, ch: Choice): set<SessionEntry> {
    if Wins(w, c, ch) && !c.plan.ToCreated?
       && (c.plan.ToCheckpointed? || Edit(c.plan, c.local.e, ch.now).state.Suspended?)
    then {Edit(c.plan, c.local.e, ch.now)} else {}
  }

  // ---- steps of the whole system ----

  datatype Step =
    | Spawn(id: nat, c: Client)
    | Do(id: nat, ch: Choice)
    | Register(pod: Pod, ip: string, version: int)
    | Join(pod: Pod)
    | Unregister(pod: Pod)
    | Touch(sid: Sid, ms: int)
    | Expire(sid: Sid)
    | PrunePool(pool: Pool)

  function Bump(incs: map<Sid, nat>, sid: Sid): map<Sid, nat> {
    incs[sid := IncIn(incs, sid) + 1]
  }

  /** The names whose entry has been removed. */
  function Retire(w: World, pod: Pod): set<Pod> {
    if pod in w.kv.workers then w.retired + {pod} else w.retired
  }

  function Next(w: World, st: Step, poolOf: Pod -> Pool): World {
    match st
    case Spawn(id, c) => w.(clients := w.clients[id := c])
    case Do(id, ch) =>
      if id !in w.clients then w
      else
        var c := w.clients[id];
        var eff := Act(w, c, ch);
        World(eff.kv,
              w.mirrored + Mirrors(w, c, ch),
              if c.Removing? && !ch.kvError then Retire(w, c.pod) else w.retired,
              if c.Deleting? && !ch.kvError then Bump(w.incs, c.sid) else w.incs,
              if eff.next.Some? then w.clients[id := eff.next.value] else w.clients - {id})
    case Register(pod, ip, version) =>
      w.(kv := UpsertWorker(w.kv, WorkerEntry(pod, poolOf(pod), ip, Idle, "", version)))
    case Join(pod) => w.(kv := EnsurePoolMember(w.kv, pod, poolOf(pod)))
    case Unregister(pod) => w.(kv := RemoveWorker(w.kv, pod, poolOf(pod)), retired := Retire(w, pod))
    case Touch(sid, ms) => w.(kv := StampActive(w.kv, sid, ms))
    case Expire(sid) => w.(kv := DeleteSession(w.kv, sid), incs := Bump(w.incs, sid))
    case PrunePool(pool) => w.(kv := PruneMembers(w.kv, pool))
  }

  /** What the rebuild writes for a mirrored entry: the fields the mirror does not carry come back empty. */
  function Rebuilt(m: SessionEntry, lastActiveAt: int): SessionEntry {
    FreshEntry(m.sid).(state := m.state, pool := m.pool, workerPodIP := m.workerPodIP, workerPod := m.workerPod,
                       image := m.image, snapshotURI := m.snapshotURI, runtime := m.runtime,
                       engineVersion := m.engineVersion, iamRoleARN := m.iamRoleARN, ports := m.ports,
                       health := m.health, lastActiveAt := lastActiveAt)
  }

  /** Fork seeding creates a Suspended entry on a promoted base; rebuild re-creates a mirrored one. */
  ghost predicate Creatable(w: World, e: SessionEntry) {
    || (e.version == 0 && e.state.Suspended? && e.snapshotURI != "" && e.workerPod == "" && e.workerPodIP == "")
    || (exists m <- w.mirrored :: e == Rebuilt(m, e.lastActiveAt))
  }

  /** The program counters a client can start from. Terminate and reclaim start from a worker entry just read. */
  ghost predicate Initial(w: World, c: Client) {
    && ClientSid(c) != ""
    && match c
       case ResumeStart(_) => true
       case SuspendStart(_, kind) => !kind.ForTerminate?
       case CheckpointStart(_) => true
       case HealStart(_) => true
       case DeleteStart(_) => true
       case TerminateStart(v) => v.pod in w.kv.workers && w.kv.workers[v.pod] == v && v.state.Busy?
       case ReclaimCheck(v) => v.pod in w.kv.workers && w.kv.workers[v.pod] == v && v.state.Busy?
       case CreateStart(e) => Creatable(w, e)
       case _ => false
  }

  /** Every step any interleaving can take. A worker's snapshot reply is never empty. */
  ghost predicate Enabled(w: World, st: Step) {
    match st
    case Spawn(id, c) => id !in w.clients && Initial(w, c)
    case Do(id, ch) => id in w.clients && ch.reply.snapshot != ""
    case Register(pod, _, _) => pod != ""
    case Touch(_, ms) => ms > 0
    case _ => true
  }

  /** A run: every step enabled where it is taken. */
  ghost predicate Run(w: World, steps: seq<Step>, poolOf: Pod -> Pool)
    decreases |steps|
  {
    steps == [] || (Enabled(w, steps[0]) && Run(Next(w, steps[0], poolOf), steps[1..], poolOf))
  }

  function Final(w: World, steps: seq<Step>, poolOf: Pod -> Pool): World
    decreases |steps|
  {
    if steps == [] then w else Final(Next(w, steps[0], poolOf), steps[1..], poolOf)
  }
}
