/** The protocol's read and write steps are the attempts of the compare-and-set loop. */
module Attempts {
  import opened Records
  import opened Assign
  import opened Protocol
  import opened Lineage
  import C = CasLoop

  /** What a plan's loop does between its read and its write. */
  function MutationOf(plan: Plan, now: int): C.Mutation {
    e => if Guard(plan, e) then Some(Edit(plan, e, now)) else None
  }

  /** The scripts a run applies to the table, in order. */
  function Scripts(w: World, steps: seq<Step>, poolOf: Pod -> Pool): seq<Op>
    decreases |steps|
  {
    if steps == [] then []
    else
      var rest := Scripts(Next(w, steps[0], poolOf), steps[1..], poolOf);
      match StepOp(w, steps[0], poolOf)
      case Some(op) => [op] + rest
      case None => rest
  }

  lemma {:induction false} RunAppliesScripts(w: World, steps: seq<Step>, poolOf: Pod -> Pool)
    ensures Final(w, steps, poolOf).kv == ApplyAll(w.kv, Scripts(w, steps, poolOf))
    decreases |steps|
  {
    if steps != [] {
      StepIsOneScript(w, steps[0], poolOf);
      RunAppliesScripts(Next(w, steps[0], poolOf), steps[1..], poolOf);
    }
  }

  ghost predicate NotActing(steps: seq<Step>, id: nat) {
    forall i | 0 <= i < |steps| :: !(steps[i].Do? && steps[i].id == id)
  }

  /** A client stays as it is while only others act. */
  lemma {:induction false} ClientWaits(w: World, steps: seq<Step>, id: nat, poolOf: Pod -> Pool)
    requires Run(w, steps, poolOf) && id in w.clients && NotActing(steps, id)
    ensures var end := Final(w, steps, poolOf); id in end.clients && end.clients[id] == w.clients[id]
    decreases |steps|
  {
    if steps != [] {
      assert !(steps[0].Do? && steps[0].id == id);
      ClientWaits(Next(w, steps[0], poolOf), steps[1..], id, poolOf);
    }
  }

  /** How the loop's outcome shows in the write step. */
  function WriteOutcome(w: World, c: Client, ch: Choice): C.Outcome
    requires c.Writing?
  {
    if ch.kvError then C.Errored
    else if Wins(w, c, ch) then C.Written(Edit(c.plan, c.local.e, ch.now))
    else C.Conflict
  }

  lemma {:induction false} EditKeepsKey(plan: Plan, now: int)
    requires !plan.ToCreated?
    ensures C.KeepsKey(MutationOf(plan, now))
  {
  }

  /** The table went from `kv`, where the loop read, to `after` as one attempt with the others' scripts `between`. */
  ghost predicate IsAttempt(kv: KV, plan: Plan, between: seq<Op>, ch: Choice, outcome: C.Outcome, after: KV) {
    C.Explains(kv, None, [C.Slot([], between, false, ch.kvError)], 0, PlanSid(plan), CreatesMissing(plan),
               MutationOf(plan, ch.now), ch.now, outcome, after)
  }

  lemma {:induction false} WriteIsAnAttempt(kv: KV, between: seq<Op>, end: World, c: Client, ch: Choice)
    requires KeyedSessions(kv.sessions) && c.Writing? && !c.plan.ToCreated? && HoldsStored(kv, c.plan, c)
    requires end.kv == ApplyAll(kv, between)
    ensures IsAttempt(kv, c.plan, between, ch, WriteOutcome(end, c, ch), ActLoop(end, c, ch).kv)
  {
    var env := [C.Slot([], between, false, ch.kvError)];
    assert env[..0] == [];
    EditKeepsKey(c.plan, ch.now);
    if Wins(end, c, ch) {
      C.CopyPinned(kv, None, env, 0, PlanSid(c.plan), MutationOf(c.plan, ch.now), Edit(c.plan, c.local.e, ch.now));
    }
  }

  /** A read that goes on to write holds the stored entry, or a new one when the plan creates it. */
  predicate HoldsStored(kv: KV, plan: Plan, c: Client) {
    c.Writing? && c.plan == plan && c.local.e == C.StoredOrFresh(kv, PlanSid(plan)) && Guard(plan, c.local.e)
  }

  lemma {:induction false} ReadTakesTheStored(w: World, id: nat, read: Choice, poolOf: Pod -> Pool)
    requires id in w.clients && w.clients[id].Reading?
    requires var after := Next(w, Do(id, read), poolOf); id in after.clients && after.clients[id].Writing?
    ensures var after := Next(w, Do(id, read), poolOf);
      after.kv == w.kv && HoldsStored(w.kv, w.clients[id].plan, after.clients[id])
  {
  }

  lemma {:induction false} StillHolds(w: World, id: nat, read: Choice, waiting: World, steps: seq<Step>, end: World,
                                      poolOf: Pod -> Pool)
    requires id in w.clients && w.clients[id].Reading?
    requires waiting == Next(w, Do(id, read), poolOf) && id in waiting.clients && waiting.clients[id].Writing?
    requires Run(waiting, steps, poolOf) && NotActing(steps, id) && end == Final(waiting, steps, poolOf)
    ensures id in end.clients && HoldsStored(w.kv, w.clients[id].plan, end.clients[id])
    ensures end.kv == ApplyAll(w.kv, Scripts(waiting, steps, poolOf))
  {
    ClientWaits(waiting, steps, id, poolOf);
    RunAppliesScripts(waiting, steps, poolOf);
    ReadTakesTheStored(w, id, read, poolOf);
  }

  /** A client's read, any steps of others, then its write: one attempt of the loop, the others' scripts between. */
  lemma {:induction false} ReadThenWriteIsAnAttempt(w: World, id: nat, read: Choice, waiting: World, steps: seq<Step>,
                                                    end: World, write: Choice, poolOf: Pod -> Pool)
    requires KeyedSessions(w.kv.sessions) && id in w.clients && w.clients[id].Reading? && !w.clients[id].plan.ToCreated?
    requires waiting == Next(w, Do(id, read), poolOf) && id in waiting.clients && waiting.clients[id].Writing?
    requires Run(waiting, steps, poolOf) && NotActing(steps, id) && end == Final(waiting, steps, poolOf)
    ensures id in end.clients && end.clients[id].Writing?
    ensures IsAttempt(w.kv, w.clients[id].plan, Scripts(waiting, steps, poolOf), write,
                      WriteOutcome(end, end.clients[id], write), Act(end, end.clients[id], write).kv)
  {
    StillHolds(w, id, read, waiting, steps, end, poolOf);
    var c := end.clients[id];
    assert Act(end, c, write) == ActLoop(end, c, write);
    WriteIsAnAttempt(w.kv, Scripts(waiting, steps, poolOf), end, c, write);
  }

  /** A write that lost on the version is tried again, from a new read, up to five times in all; then the loop fails. */
  lemma {:induction false} LostWritesRetry(w: World, c: Client, ch: Choice)
    requires c.Writing? && !ch.kvError && !Wins(w, c, ch)
    ensures Act(w, c, ch).kv == w.kv
    ensures c.tries < 4 ==> Act(w, c, ch).next == Some(Reading(c.plan, c.tries + 1))
    ensures c.tries >= 4 ==> Act(w, c, ch).next == Act(w, c, ch.(kvError := true)).next
  {
  }

  /** Over a missing key a resume or a rollback goes on from the empty entry, and every other loop fails. */
  lemma {:induction false} ReadOfMissing(w: World, c: Client, ch: Choice)
    requires c.Reading? && !ch.kvError && PlanSid(c.plan) !in w.kv.sessions
    ensures var next := Act(w, c, ch).next;
      if c.plan.ToResuming? || c.plan.ToRunning? || c.plan.ToRolledBack? then
        && next.Some? && next.value.Writing? && next.value.plan == c.plan
        && next.value.local.e ==
           SessionEntry(PlanSid(c.plan), Unset, "", "", "", "", "", "", "", [], None, "", 0, 0, 0, 0, 0, 0, 0)
      else next == Act(w, c, ch.(kvError := true)).next
  {
  }

  /** A read that does not go on to write: the store failed, the entry is missing, or the guard declined it. */
  lemma {:induction false} ReadThatStops(w: World, id: nat, read: Choice, now: int, poolOf: Pod -> Pool)
    requires id in w.clients && w.clients[id].Reading?
    requires var after := Next(w, Do(id, read), poolOf); !(id in after.clients && after.clients[id].Writing?)
    ensures var plan, kv := w.clients[id].plan, Next(w, Do(id, read), poolOf).kv;
      var outcome :=
        if read.kvError then C.Errored else if PlanSid(plan) in w.kv.sessions then C.Declined else C.Missing;
      C.Explains(w.kv, None, [C.Slot([], [], read.kvError, false)], 0, PlanSid(plan), CreatesMissing(plan),
                 MutationOf(plan, now), now, outcome, kv)
  {
  }
}
