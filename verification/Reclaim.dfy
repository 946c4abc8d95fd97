/** Returning busy workers whose binding has been orphaned for the grace. */
module Reclaim {
  import opened Records
  import opened Gates
  import opened Sweeps
  import Assign
  import Protocol

  /** What a sweep reads about one pod, and whether a release would go through. */
  datatype Visit = Visit(pod: Pod, worker: Lookup<WorkerEntry>, session: Lookup<SessionEntry>, released: bool)

  /** Why a busy binding is anomalous, or the empty string. */
  function Reason(w: WorkerEntry, session: Lookup<SessionEntry>): string {
    if w.sid == "" then "no-sid"
    else match session
      case NotFound => "orphan"
      case Failed => ""
      case Found(e) =>
        if e.state.Suspended? then "suspended"
        else if e.workerPod != "" && e.workerPod != w.pod then "rebound"
        else ""
  }

  function SightOf(v: Visit): Sight {
    if !v.worker.Found? || !v.worker.value.state.Busy? then Quiet
    else if Reason(v.worker.value, v.session) == "" then Healthy
    else Anomalous(v.worker.value.version)
  }

  /** A worker is busy with nothing that is its own to do: it names no session, or one that is gone, Suspended or bound
      to another pod. */
  ghost predicate Orphaned(v: Visit) {
    && v.worker.Found? && v.worker.value.state.Busy?
    && (|| v.worker.value.sid == ""
        || v.session.NotFound?
        || (v.session.Found? && v.session.value.state.Suspended?)
        || (v.session.Found? && v.session.value.workerPod != "" && v.session.value.workerPod != v.worker.value.pod))
  }

  /** A busy worker is looked at as anomalous exactly when it is orphaned, at the version of its entry; a session that
      could not be read proves nothing against it. */
  lemma {:induction false} SightIsOrphaned(v: Visit)
    ensures SightOf(v).Anomalous? <==> Orphaned(v)
    ensures Orphaned(v) ==> SightOf(v).version == v.worker.value.version
    ensures SightOf(v).Quiet? <==> !(v.worker.Found? && v.worker.value.state.Busy?)
  {
  }

  /** On what is read from a table this is the protocol's own reclaim rule. */
  lemma {:induction false} ReclaimRuleIsTheSame(kv: Assign.KV, pod: Pod, released: bool)
    requires pod in kv.workers && kv.workers[pod].state.Busy?
    ensures var w := kv.workers[pod];
      var session := if w.sid in kv.sessions then Found(kv.sessions[w.sid]) else NotFound;
      Orphaned(Visit(pod, Found(w), session, released)) <==> Protocol.Anomalous(kv, w)
  {
  }

  function LookOf(v: Visit, now: int): Look {
    Look(v.pod, See(SightOf(v), now, now, true, v.released))
  }

  function LooksOf(visits: seq<Visit>, now: int): seq<Look> {
    seq(|visits|, i requires 0 <= i < |visits| => LookOf(visits[i], now))
  }

  /** What has persisted is orphaned now. */
  lemma {:induction false} OnlyTheOrphaned(attempted: seq<bool>, history: seq<seq<Look>>, visits: seq<Visit>, now: int,
                                           grace: int)
    requires |attempted| == |visits| && OnlyThePersistent(attempted, history, LooksOf(visits, now), grace)
    ensures forall i | 0 <= i < |visits| :: attempted[i] ==> Orphaned(visits[i])
  {
    var looks := LooksOf(visits, now);
    forall i | 0 <= i < |visits| && attempted[i] ensures Orphaned(visits[i]) {
      LookRuns(history, looks, i, looks[i].key, grace);
      SightIsOrphaned(visits[i]);
    }
  }

  class Reclaimer {
    const grace: int
    var anomalous: map<Pod, Mark>
    ghost var history: seq<seq<Look>>

    constructor (grace: int)
      ensures this.grace == grace && Valid() && history == []
    {
      this.grace := grace;
      anomalous := map[];
      history := [];
    }

    ghost predicate Valid()
      reads this
    {
      Between(anomalous, history, grace)
    }

    /** One pod of a sweep. */
    method Visited(v: Visit, now: int, seen: set<Pod>) returns (attempted: bool, seen': set<Pod>)
      modifies this
      ensures history == old(history)
      ensures attempted <==> Due(GateOf(old(anomalous), seen, v.pod), LookOf(v, now).event, grace)
      ensures attempted ==> Orphaned(v)
      ensures Looked(old(anomalous), seen, anomalous, seen', LookOf(v, now), grace)
    {
      attempted, seen' := false, seen;
      SightIsOrphaned(v);
      if !v.worker.Found? || !v.worker.value.state.Busy? {
        return;
      }
      var w := v.worker.value;
      if Reason(w, v.session) == "" {
        anomalous := anomalous - {v.pod};
        return;
      }
      seen' := seen + {v.pod};
      if v.pod !in anomalous || anomalous[v.pod].version != w.version {
        anomalous := anomalous[v.pod := Mark(now, w.version)];
        return;
      }
      if now - anomalous[v.pod].first < grace {
        return;
      }
      attempted := true;
      if v.released {
        anomalous := anomalous - {v.pod};
      }
    }

    /** Over any run of sweeps, a release is attempted exactly when its pod was seen anomalous at one version, in every
        sweep and unbroken, for the grace. */
    method Reclaim(now: int, visits: seq<Visit>) returns (attempted: seq<bool>)
      requires Valid()
      modifies this
      ensures Valid()
      ensures grace <= 0 ==> attempted == [] && history == old(history) && anomalous == old(anomalous)
      ensures grace > 0 ==>
        && history == old(history) + [LooksOf(visits, now)] && |attempted| == |visits|
        && OnlyThePersistent(attempted, old(history), LooksOf(visits, now), grace)
        && (forall i | 0 <= i < |visits| :: attempted[i] ==> Orphaned(visits[i]))
    {
      attempted := [];
      if grace <= 0 {
        return;
      }
      ghost var looks := LooksOf(visits, now);
      var seen: set<Pod> := {};
      Begins(anomalous, history, looks, grace);
      for i := 0 to |visits|
        invariant history == old(history) && |attempted| == i
        invariant Within(anomalous, seen, history, looks, i, grace)
        invariant OnlyThePersistent(attempted, history, looks, grace)
      {
        ghost var before, seen0 := anomalous, seen;
        var due: bool;
        due, seen := Visited(visits[i], now, seen);
        Continues(before, seen0, anomalous, seen, history, looks, i, grace);
        StillOnlyThePersistent(attempted, due, history, looks, grace);
        attempted := attempted + [due];
      }
      ghost var before := anomalous;
      anomalous := Forget(anomalous, seen);
      Closes(before, seen, anomalous, history, looks, grace);
      OnlyTheOrphaned(attempted, history, visits, now, grace);
      history := history + [looks];
    }
  }
}
