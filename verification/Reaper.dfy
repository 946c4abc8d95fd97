/** Deleting base snapshots that nothing has referenced for the grace. The grace clock lives in the base's status. */
module Reaper {
  import opened Records
  import opened Gates

  const UNREFERENCED := "Unreferenced"

  datatype Condition = Condition(kind: string, status: bool, since: int)

  /** A stored time keeps whole seconds only. */
  function Whole(t: int): (r: int)
    ensures r <= t < r + SECOND && r % SECOND == 0
  {
    t - t % SECOND
  }

  // ---- references ----

  /** A fork that has not completed its first restore. */
  predicate Waiting(child: Lookup<SessionEntry>) {
    child.NotFound? || (child.Found? && (child.value.state.Suspended? || child.value.state.Resuming?))
  }

  function CountWaiting(children: seq<Lookup<SessionEntry>>): nat {
    if children == [] then 0
    else CountWaiting(children[..|children| - 1]) + if Waiting(children[|children| - 1]) then 1 else 0
  }

  lemma {:induction false} NoneWaiting(children: seq<Lookup<SessionEntry>>)
    ensures CountWaiting(children) == 0 <==>
      forall c <- children :: !c.NotFound? && (c.Found? ==> !c.value.state.Suspended? && !c.value.state.Resuming?)
  {
    if children != [] {
      var n := |children| - 1;
      NoneWaiting(children[..n]);
      assert children == children[..n] + [children[n]];
    }
  }

  /** The reference count: -1 when there is no table to read, nothing when a read failed. */
  method RefCount(children: seq<Lookup<SessionEntry>>, table: bool) returns (refs: Option<int>)
    ensures !table ==> refs == Some(-1)
    ensures table && Failed in children ==> refs == None
    ensures table && Failed !in children ==> refs == Some(CountWaiting(children))
  {
    if !table {
      return Some(-1);
    }
    var count := 0;
    for i := 0 to |children|
      invariant count == CountWaiting(children[..i]) && Failed !in children[..i]
    {
      assert children[..i + 1][..i] == children[..i];
      var child := children[i];
      if child.NotFound? {
        count := count + 1;
        continue;
      }
      if child.Failed? {
        return None;
      }
      if child.value.state.Suspended? || child.value.state.Resuming? {
        count := count + 1;
      }
    }
    assert children[..|children|] == children;
    return Some(count);
  }

  // ---- conditions ----

  /** The first condition of a kind, or the length. */
  function IndexOf(conds: seq<Condition>, kind: string): (i: nat)
    ensures i <= |conds| && (i < |conds| ==> conds[i].kind == kind)
    ensures forall k | 0 <= k < i :: conds[k].kind != kind
  {
    if conds == [] || conds[0].kind == kind then 0 else 1 + IndexOf(conds[1..], kind)
  }

  ghost predicate Unique(conds: seq<Condition>) {
    forall i, j | 0 <= i < j < |conds| :: conds[i].kind == conds[j].kind ==> conds[i].kind != UNREFERENCED
  }

  /** Replaces the condition of the same kind, or appends. */
  method SetCondition(conds: seq<Condition>, c: Condition) returns (r: seq<Condition>)
    ensures var i := IndexOf(conds, c.kind); r == if i < |conds| then conds[i := c] else conds + [c]
  {
    for i := 0 to |conds|
      invariant forall k | 0 <= k < i :: conds[k].kind != c.kind
    {
      if conds[i].kind == c.kind {
        return conds[i := c];
      }
    }
    return conds + [c];
  }

  /** The stored grace clock: the time of the Unreferenced condition, when it is true. */
  function Clock(conds: seq<Condition>): Option<Mark> {
    var i := IndexOf(conds, UNREFERENCED);
    if i < |conds| && conds[i].status then Some(Mark(conds[i].since, 0)) else None
  }

  /** Looks for a true Unreferenced condition. */
  method FindClock(conds: seq<Condition>) returns (since: Option<int>)
    requires Unique(conds)
    ensures match Clock(conds) { case None => since == None case Some(m) => since == Some(m.first) }
  {
    for i := 0 to |conds|
      invariant forall k | 0 <= k < i :: conds[k].kind != UNREFERENCED || !conds[k].status
    {
      if conds[i].kind == UNREFERENCED && conds[i].status {
        assert IndexOf(conds, UNREFERENCED) == i;
        return Some(conds[i].since);
      }
    }
    return None;
  }

  lemma {:induction false} IndexIs(conds: seq<Condition>, i: nat)
    requires i < |conds| && conds[i].kind == UNREFERENCED && forall k | 0 <= k < i :: conds[k].kind != UNREFERENCED
    ensures IndexOf(conds, UNREFERENCED) == i
  {
  }

  /** Setting the condition sets the clock and touches no other condition. */
  lemma {:induction false} SettingMovesTheClock(conds: seq<Condition>, c: Condition, r: seq<Condition>)
    requires Unique(conds) && c.kind == UNREFERENCED
    requires var i := IndexOf(conds, c.kind); r == if i < |conds| then conds[i := c] else conds + [c]
    ensures Unique(r) && Clock(r) == if c.status then Some(Mark(c.since, 0)) else None
  {
    IndexIs(r, IndexOf(conds, c.kind));
  }

  // ---- the pass ----

  /** What a pass sees of one base: `clock` is read if the base is marked, `wrote` says whether a status write goes
      through, `deletes` whether a delete does. */
  datatype Observation = Observation(name: string, ready: bool, pinned: bool, children: seq<Lookup<SessionEntry>>,
                                     table: bool, clock: int, wrote: bool, deletes: bool)

  /** Unpinned, with every fork known to have restored. */
  ghost predicate Unreferenced(o: Observation) {
    && !o.pinned && o.table
    && forall c <- o.children :: c.Found? && !c.value.state.Suspended? && !c.value.state.Resuming?
  }

  /** The pass learns nothing of the base: it is not promoted yet, or its forks could not be read. */
  ghost predicate Skipped(o: Observation) {
    !o.ready || (o.table && Failed in o.children)
  }

  /** The pass has no status write to make: the clock is already set for an unreferenced base, or clear for another. */
  ghost predicate NothingToWrite(o: Observation, clock: Option<Mark>) {
    Skipped(o) || (Unreferenced(o) <==> clock.Some?)
  }

  /** A look is lost only if there was a write to make and it did not go through. */
  ghost function EventOf(o: Observation, now: int, dryRun: bool, clock: Option<Mark>): Event {
    See(if Skipped(o) then Quiet else if Unreferenced(o) then Anomalous(0) else Healthy,
      now, Whole(o.clock), o.wrote || NothingToWrite(o, clock), o.deletes && !dryRun)
  }

  /** A base is due when it is unreferenced now and its clock, stored or just set, is a grace old. */
  ghost predicate IsDue(conds: seq<Condition>, o: Observation, now: int, grace: int) {
    && !Skipped(o) && Unreferenced(o)
    && match Clock(conds)
       case Some(m) => now - m.first >= grace
       case None => o.wrote && now - o.clock >= grace
  }

  /** Referenced bases lose their clock, unreferenced ones keep or get one; a lost write changes nothing. */
  ghost function NextClock(clock: Option<Mark>, o: Observation): Option<Mark> {
    if Skipped(o) || !o.wrote then clock
    else if !Unreferenced(o) then None
    else if clock.Some? then clock
    else Some(Mark(Whole(o.clock), 0))
  }

  /** One base of a pass: what its stored conditions become, and whether its deletion was attempted. */
  method ReconcileBase(conds: seq<Condition>, o: Observation, now: int, grace: int, dryRun: bool)
    returns (conds': seq<Condition>, attempted: bool)
    requires Unique(conds)
    ensures Unique(conds') && (attempted <==> IsDue(conds, o, now, grace))
    ensures attempted && o.deletes && !dryRun ==> conds' == []
    ensures !(attempted && o.deletes && !dryRun) ==> Clock(conds') == NextClock(Clock(conds), o)
  {
    conds', attempted := conds, false;
    if !o.ready {
      return;
    }
    var refs := RefCount(o.children, o.table);
    if refs.None? {
      return;
    }
    NoneWaiting(o.children);
    var since := FindClock(conds);
    if o.pinned || refs.value != 0 {
      if since.Some? && o.wrote {
        var off := Condition(UNREFERENCED, false, Whole(o.clock));
        conds' := SetCondition(conds, off);
        SettingMovesTheClock(conds, off, conds');
      }
      return;
    }
    if since.None? {
      if !o.wrote {
        return;
      }
      var on := Condition(UNREFERENCED, true, Whole(o.clock));
      conds' := SetCondition(conds, on);
      SettingMovesTheClock(conds, on, conds');
      since := Some(o.clock);
    }
    if now - since.value < grace {
      return;
    }
    attempted := true;
    if !dryRun && o.deletes {
      conds' := [];
    }
  }

  class BaseReaper {
    const grace: int
    const dryRun: bool
    var status: map<string, seq<Condition>>
    ghost var logs: map<string, seq<Event>>

    constructor (grace: int, dryRun: bool)
      ensures this.grace == grace && this.dryRun == dryRun && Valid() && logs == map[]
    {
      this.grace, this.dryRun := grace, dryRun;
      status, logs := map[], map[];
    }

    ghost predicate Valid()
      reads this
    {
      AllInStep(status, logs, grace)
    }

    /** With a positive grace and a clock that does not run backwards, a base's deletion is attempted exactly when its
        clock has been held for the grace; and without every counted pass of the grace having seen it unpinned and
        unreferenced exactly when a clearing of that clock was lost. */
    method Reconcile(o: Observation, now: int) returns (attempted: bool)
      requires Valid() && grace > 0 && o.clock >= now
      modifies this
      ensures Valid()
      ensures var e := EventOf(o, now, dryRun, Clock(ConditionsOf(old(status), o.name)));
        && logs == old(logs)[o.name := LogOf(old(logs), o.name) + [e]]
        && Justified(attempted, LogOf(old(logs), o.name) + [e], grace)
    {
      var conds := ConditionsOf(status, o.name);
      ghost var log, e := LogOf(logs, o.name), EventOf(o, now, dryRun, Clock(conds));
      var conds': seq<Condition>;
      conds', attempted := ReconcileBase(conds, o, now, grace, dryRun);
      BaseInStep(log, conds, conds', o, now, grace, dryRun, attempted);
      status := status[o.name := conds'];
      logs := logs[o.name := log + [e]];
      OthersInStep(old(status), old(logs), o.name, conds', log + [e], grace);
    }
  }

  /** Deletion is attempted exactly when the clock has been held for the grace, and early, before the base has stayed
      unreferenced that long, exactly when a clear was lost in between. */
  ghost predicate Justified(attempted: bool, log: seq<Event>, grace: int) {
    && (attempted <==> Held(log, grace))
    && (attempted && !Persisted(log, grace) <==> HeldOverLostClear(log, grace))
  }

  ghost predicate AllInStep(status: map<string, seq<Condition>>, logs: map<string, seq<Event>>, grace: int) {
    forall name :: InStep(ConditionsOf(status, name), LogOf(logs, name), grace)
  }

  lemma {:induction false} OthersInStep(status: map<string, seq<Condition>>, logs: map<string, seq<Event>>,
                                        name: string, conds: seq<Condition>, log: seq<Event>, grace: int)
    requires AllInStep(status, logs, grace) && InStep(conds, log, grace)
    ensures AllInStep(status[name := conds], logs[name := log], grace)
  {
    var status', logs' := status[name := conds], logs[name := log];
    forall n ensures InStep(ConditionsOf(status', n), LogOf(logs', n), grace) {
      assert n != name ==> InStep(ConditionsOf(status, n), LogOf(logs, n), grace);
    }
  }

  lemma {:induction false} BaseInStep(log: seq<Event>, conds: seq<Condition>, conds': seq<Condition>, o: Observation,
                                      now: int, grace: int, dryRun: bool, attempted: bool)
    requires InStep(conds, log, grace) && Unique(conds') && grace > 0 && o.clock >= now
    requires attempted <==> IsDue(conds, o, now, grace)
    requires attempted && o.deletes && !dryRun ==> conds' == []
    requires !(attempted && o.deletes && !dryRun) ==> Clock(conds') == NextClock(Clock(conds), o)
    ensures var e := EventOf(o, now, dryRun, Clock(conds));
      && InStep(conds', log + [e], grace)
      && Justified(attempted, log + [e], grace)
  {
    var e := EventOf(o, now, dryRun, Clock(conds));
    FiresWhenDue(log, e, grace);
    assert Clock(conds).Some? ==> Clock(conds).value.version == 0;
  }

  function ConditionsOf(status: map<string, seq<Condition>>, name: string): seq<Condition> {
    if name in status then status[name] else []
  }

  ghost function LogOf(logs: map<string, seq<Event>>, name: string): seq<Event> {
    if name in logs then logs[name] else []
  }

  /** The stored clock is what the base's log makes it. */
  ghost predicate InStep(conds: seq<Condition>, log: seq<Event>, grace: int) {
    Unique(conds) && Clock(conds) == Run(OPEN, log, grace).mark
  }

  lemma {:induction false} FiresWhenDue(log: seq<Event>, e: Event, grace: int)
    requires e.See?
    ensures Run(OPEN, log + [e], grace) == Step(Run(OPEN, log, grace), e, grace)
    ensures Justified(Due(Run(OPEN, log, grace), e, grace), log + [e], grace)
  {
    assert (log + [e])[..|log|] == log;
    FiresExactlyWhenHeld(log + [e], grace);
    FiresEarlyExactly(log + [e], grace);
  }
}
