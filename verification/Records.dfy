/** The records of the assignment table: sessions, workers and their states. */
module Records {

  datatype Option<+T> = None | Some(value: T)

  /** The outcome of a read: a value, a definite absence, or an error. */
  datatype Lookup<+T> = Found(value: T) | NotFound | Failed

  /** How often a writer tries its compare-and-set. */
  const MAX_TRIES: nat := 5

  /** A second, in the nanoseconds of a clock. */
  const SECOND: int := 1_000_000_000

  type Sid = string
  type Pod = string
  type Pool = string

  /** `Unset` is the empty string: the state of an entry created by a mutation that sets none. */
  datatype SessionState = Unset | Absent | Running | Suspending | Suspended | Resuming

  datatype Port = Port(container: int, host: int)

  /** The record stored under session:<sid>. `version` is the compare-and-set token. */
  datatype SessionEntry = SessionEntry(
    sid: Sid,
    state: SessionState,
    pool: Pool,
    workerPodIP: string,
    workerPod: Pod,
    image: string,
    snapshotURI: string,
    runtime: string,
    engineVersion: string,
    ports: seq<Port>,
    health: Option<string>,
    iamRoleARN: string,
    egressMbps: int,
    ingressMbps: int,
    idleTimeoutSeconds: int,
    checkpointIntervalSeconds: int,
    version: int,
    lastActiveAt: int,
    lastCheckpointAt: int)

  /** The zero value a writer starts from when the key is absent. */
  function FreshEntry(sid: Sid): SessionEntry {
    SessionEntry(sid, Unset, "", "", "", "", "", "", "", [], None, "", 0, 0, 0, 0, 0, 0, 0)
  }

  /** Equality that ignores the advisory activity stamp, which never bumps the version. */
  predicate SameButActivity(a: SessionEntry, b: SessionEntry) {
    a.(lastActiveAt := 0) == b.(lastActiveAt := 0)
  }

  datatype WorkerState = Idle | Busy

  /** The record stored under worker:<pod>. */
  datatype WorkerEntry = WorkerEntry(
    pod: Pod,
    pool: Pool,
    podIP: string,
    state: WorkerState,
    sid: Sid,
    version: int)

  /** The fence: the worker entry exists, is busy, and is bound to `sid`. */
  predicate WorkerHolds(workers: map<Pod, WorkerEntry>, pod: Pod, sid: Sid) {
    pod != "" && pod in workers && workers[pod].state.Busy? && workers[pod].sid == sid
  }
}
