/** Adopting or rolling back sessions stuck in Resuming. */
module Healer {
  import opened Records
  import opened Gates
  import opened Sweeps

  /** What the worker said when asked about the sandbox. */
  datatype Probe = Unreachable | NotRunning | Up

  /** One listed entry, the clock, and how the probe and the write that may follow would go. */
  datatype Visit = Visit(e: SessionEntry, now: int, probe: Probe, rolledBack: bool, promoted: bool)

  predicate Stuck(e: SessionEntry) {
    e.state.Resuming? && e.workerPodIP != ""
  }

  /** The heal went through: a running sandbox adopted, or a restorable one rolled back. */
  predicate Heals(v: Visit) {
    if v.probe.Up? then v.promoted else v.e.snapshotURI != "" && v.rolledBack
  }

  function LookOf(v: Visit): Look {
    Look(v.e.sid, See(if Stuck(v.e) then Anomalous(0) else Quiet, v.now, v.now, true, Heals(v)))
  }

  /** An entry is looked at as stuck exactly when it is Resuming with an address, and healed when a running sandbox was
      adopted or a restorable session rolled back. */
  lemma {:induction false} LooksRight(v: Visit)
    ensures LookOf(v).event.sight.Anomalous? <==> v.e.state.Resuming? && v.e.workerPodIP != ""
    ensures LookOf(v).event.done <==>
      (v.probe.Up? && v.promoted) || (!v.probe.Up? && v.e.snapshotURI != "" && v.rolledBack)
  {
  }

  function LooksOf(visits: seq<Visit>): seq<Look> {
    seq(|visits|, i requires 0 <= i < |visits| => LookOf(visits[i]))
  }

  class ResumingHealer {
    const grace: int
    var seenResuming: map<Sid, int>
    ghost var history: seq<seq<Look>>

    constructor (grace: int)
      ensures this.grace == grace && Valid() && history == []
    {
      this.grace := grace;
      seenResuming := map[];
      history := [];
    }

    ghost predicate Valid()
      reads this
    {
      Between(Marks(seenResuming), history, grace)
    }

    /** One entry of a sweep. */
    method Visited(v: Visit, current: set<Sid>) returns (probed: bool, healed: bool, current': set<Sid>)
      modifies this
      ensures history == old(history)
      ensures probed <==> Due(GateOf(Marks(old(seenResuming)), current, v.e.sid), LookOf(v).event, grace)
      ensures healed <==> probed && Heals(v)
      ensures Looked(Marks(old(seenResuming)), current, Marks(seenResuming), current', LookOf(v), grace)
    {
      probed, healed, current' := false, false, current;
      if !v.e.state.Resuming? || v.e.workerPodIP == "" {
        return;
      }
      current' := current + {v.e.sid};
      if v.e.sid !in seenResuming {
        seenResuming := seenResuming[v.e.sid := v.now];
        return;
      }
      if v.now - seenResuming[v.e.sid] < grace {
        return;
      }
      probed := true;
      if !v.probe.Up? {
        if v.e.snapshotURI != "" && v.rolledBack {
          seenResuming := seenResuming - {v.e.sid};
          healed := true;
        }
        return;
      }
      if v.promoted {
        seenResuming := seenResuming - {v.e.sid};
        healed := true;
      }
    }

    /** A worker is asked about a session, and the session healed, exactly when every successful sweep for the grace has
        seen it Resuming. A sweep that cannot list the sessions counts for nothing. */
    method SweepOnce(listed: Option<seq<Visit>>) returns (probed: seq<bool>, healed: nat)
      requires Valid()
      modifies this
      ensures Valid()
      ensures match listed
        case None => probed == [] && healed == 0 && history == old(history) && seenResuming == old(seenResuming)
        case Some(visits) =>
          && history == old(history) + [LooksOf(visits)] && |probed| == |visits|
          && OnlyThePersistent(probed, old(history), LooksOf(visits), grace)
          && healed == HealedBy(probed, visits)
    {
      probed, healed := [], 0;
      if listed.None? {
        return;
      }
      var visits := listed.value;
      ghost var looks := LooksOf(visits);
      var current: set<Sid> := {};
      Begins(Marks(seenResuming), history, looks, grace);
      for i := 0 to |visits|
        invariant history == old(history) && |probed| == i
        invariant Within(Marks(seenResuming), current, history, looks, i, grace)
        invariant OnlyThePersistent(probed, history, looks, grace)
        invariant healed == HealedBy(probed, visits)
      {
        ghost var before, current0 := Marks(seenResuming), current;
        var due, ok;
        due, ok, current := Visited(visits[i], current);
        Continues(before, current0, Marks(seenResuming), current, history, looks, i, grace);
        StillOnlyThePersistent(probed, due, history, looks, grace);
        HealedNext(probed, due, visits);
        probed := probed + [due];
        healed := healed + if ok then 1 else 0;
      }
      ghost var before := Marks(seenResuming);
      var kept := Forget(Marks(seenResuming), current);
      seenResuming := map sid | sid in kept :: kept[sid].first;
      MarksOfFirsts(kept);
      Closes(before, current, Marks(seenResuming), history, looks, grace);
      history := history + [looks];
    }
  }

  function Marks(seenResuming: map<Sid, int>): map<Sid, Mark> {
    map sid | sid in seenResuming :: Mark(seenResuming[sid], 0)
  }

  lemma {:induction false} MarksOfFirsts(kept: map<Sid, Mark>)
    requires forall sid <- kept :: kept[sid].version == 0
    ensures Marks(map sid | sid in kept :: kept[sid].first) == kept
  {
    assert forall sid <- kept :: Mark(kept[sid].first, 0) == kept[sid];
  }

  function HealedBy(probed: seq<bool>, visits: seq<Visit>): nat
    requires |probed| <= |visits|
  {
    if probed == [] then 0
    else
      var n := |probed| - 1;
      HealedBy(probed[..n], visits) + if probed[n] && Heals(visits[n]) then 1 else 0
  }

  lemma {:induction false} HealedNext(probed: seq<bool>, due: bool, visits: seq<Visit>)
    requires |probed| < |visits|
    ensures HealedBy(probed + [due], visits)
         == HealedBy(probed, visits) + if due && Heals(visits[|probed|]) then 1 else 0
  {
    assert (probed + [due])[..|probed|] == probed;
  }
}
