/** The edits the workflows make to a session entry between reading it and writing it back. */
module Mutations {
  import opened Records

  /** What to bind onto a claimed worker: from the plan on a cold start, from the entry on a restore. */
  datatype BindSpec = BindSpec(
    restore: bool,
    image: string,
    ports: seq<Port>,
    health: Option<string>,
    snapshot: string,
    roleARN: string,
    runtime: string,
    engineVersion: string,
    egressMbps: int,
    ingressMbps: int,
    idleTimeoutSeconds: int,
    checkpointIntervalSeconds: int)

  /** A worker's reply to /suspend or /checkpoint. */
  datatype SnapshotReply = SnapshotReply(snapshot: string, runtime: string, engineVersion: string, image: string)

  /** The binding replayed by a restore: everything comes from the recorded entry. */
  function RestoreSpec(e: SessionEntry): BindSpec {
    BindSpec(true, e.image, e.ports, e.health, e.snapshotURI, e.iamRoleARN, e.runtime, e.engineVersion,
             e.egressMbps, e.ingressMbps, e.idleTimeoutSeconds, e.checkpointIntervalSeconds)
  }

  function Unbound(e: SessionEntry): SessionEntry {
    e.(workerPod := "", workerPodIP := "")
  }

  /** resume()'s in-memory edit of a Running entry whose worker is gone. */
  function StaleRunningEdit(cur: SessionEntry): SessionEntry {
    if cur.snapshotURI != "" then Unbound(cur).(state := Suspended) else cur
  }

  function MarkResuming(e: SessionEntry, w: WorkerEntry, b: BindSpec): SessionEntry {
    e.(state := Resuming,
       pool := w.pool,
       workerPod := w.pod,
       workerPodIP := w.podIP,
       image := b.image,
       ports := b.ports,
       health := if b.health.Some? then b.health else e.health,
       iamRoleARN := if b.roleARN != "" then b.roleARN else e.iamRoleARN,
       egressMbps := b.egressMbps,
       ingressMbps := b.ingressMbps,
       idleTimeoutSeconds := b.idleTimeoutSeconds,
       checkpointIntervalSeconds := b.checkpointIntervalSeconds)
  }

  function MarkRunning(e: SessionEntry, ip: string): SessionEntry {
    e.(state := Running, workerPodIP := ip)
  }

  /** Back to Suspended, but only while still Resuming with a snapshot. */
  function RollBack(e: SessionEntry): SessionEntry {
    if e.state.Resuming? && e.snapshotURI != "" then Unbound(e).(state := Suspended) else e
  }

  function MarkSuspending(e: SessionEntry): SessionEntry {
    e.(state := Suspending)
  }

  function MarkSuspended(e: SessionEntry, r: SnapshotReply): SessionEntry {
    Unbound(e).(state := Suspended, snapshotURI := r.snapshot, runtime := r.runtime, engineVersion := r.engineVersion,
                image := if r.image != "" then r.image else e.image)
  }

  function Checkpointed(e: SessionEntry, r: SnapshotReply, now: int): SessionEntry {
    e.(snapshotURI := r.snapshot, runtime := r.runtime, engineVersion := r.engineVersion, lastCheckpointAt := now)
  }

  /** Seeding the Resuming write with the edited in-memory copy writes what an unseeded attempt would. */
  lemma SeedWritesTheSame(cur: SessionEntry, w: WorkerEntry, b: BindSpec)
    ensures MarkResuming(StaleRunningEdit(cur), w, b) == MarkResuming(cur, w, b)
  {
  }
}
