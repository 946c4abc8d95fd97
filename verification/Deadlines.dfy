/** What the two deadline indexes say about a session over any history: how long activity puts off its suspension, and
    when its first checkpoint falls due. */
module Deadlines {
  import opened Records
  import opened Assign

  /** The script leaves the session's entry alone, or stamps it no earlier than `ms`. */
  predicate Spares(op: Op, sid: Sid, ms: int) {
    match op
    case Cas(e, _) => e.sid != sid
    case Delete(gone) => gone != sid
    case Stamp(seen, at) => seen == sid ==> at >= ms
    case _ => true
  }

  ghost predicate AllSpare(ops: seq<Op>, sid: Sid, ms: int) {
    forall i | 0 <= i < |ops| :: Spares(ops[i], sid, ms)
  }

  /** The entry is `e`, stamped at `ms` or later. */
  ghost predicate ActiveSince(kv: KV, sid: Sid, e: SessionEntry, ms: int) {
    sid in kv.sessions && kv.sessions[sid].lastActiveAt >= ms &&
    kv.sessions[sid] == e.(lastActiveAt := kv.sessions[sid].lastActiveAt)
  }

  lemma {:induction false} ScriptKeepsActive(kv: KV, op: Op, sid: Sid, e: SessionEntry, ms: int)
    requires ActiveSince(kv, sid, e, ms) && Spares(op, sid, ms)
    ensures ActiveSince(Apply(kv, op), sid, e, ms)
    ensures sid in kv.checkpointDue ==>
      sid in Apply(kv, op).checkpointDue && Apply(kv, op).checkpointDue[sid] == kv.checkpointDue[sid]
  {
    if !IsSessionScript(op) {
      OnlySessionScriptsWriteSessions(kv, op);
    }
  }

  lemma {:induction false} RunKeepsActive(kv: KV, ops: seq<Op>, sid: Sid, e: SessionEntry, ms: int)
    requires ActiveSince(kv, sid, e, ms) && AllSpare(ops, sid, ms)
    ensures ActiveSince(ApplyAll(kv, ops), sid, e, ms)
    ensures sid in kv.checkpointDue ==>
      sid in ApplyAll(kv, ops).checkpointDue && ApplyAll(kv, ops).checkpointDue[sid] == kv.checkpointDue[sid]
    decreases |ops|
  {
    if ops != [] {
      ScriptKeepsActive(kv, ops[0], sid, e, ms);
      RunKeepsActive(Apply(kv, ops[0]), ops[1..], sid, e, ms);
    }
  }

  /** Activity puts off suspension by the whole timeout: from a stamp on, through any scripts but a write or deletion of
      the session, it is not due before the stamp plus its timeout. */
  lemma {:induction false} ActivityPutsOffSuspension(kv: KV, sid: Sid, ms: int, ops: seq<Op>, now: int)
    requires TableInv(kv) && sid in kv.sessions && ms > 0
    requires LegalRun(StampActive(kv, sid, ms), ops) && AllSpare(ops, sid, ms)
    ensures var after := ApplyAll(StampActive(kv, sid, ms), ops);
      && sid in after.sessions && after.sessions[sid].lastActiveAt >= ms
      && (sid in after.suspendDue && after.suspendDue[sid] <= now ==>
            ms + kv.sessions[sid].idleTimeoutSeconds * 1000 <= now)
  {
    var stamped := StampActive(kv, sid, ms);
    StampKeepsSessionInv(kv, sid, ms);
    RunKeepsActive(stamped, ops, sid, kv.sessions[sid], ms);
    RunKeepsTableInv(stamped, ops);
  }

  /** Before its first checkpoint a session is due an interval after its last activity, or after the write that made it
      Running when it has none; stamps do not put that off. */
  lemma {:induction false} FirstCheckpointDue(kv: KV, e: SessionEntry, now: int, ops: seq<Op>, ms: int)
    requires e.version == (if e.sid in kv.sessions then kv.sessions[e.sid].version else 0) && ms <= e.lastActiveAt
    requires e.state.Running? && e.checkpointIntervalSeconds > 0 && e.lastCheckpointAt == 0
    requires AllSpare(ops, e.sid, ms)
    ensures var after := ApplyAll(CasSession(kv, e, now), ops);
      && e.sid in after.checkpointDue
      && after.checkpointDue[e.sid] ==
         (if e.lastActiveAt == 0 then now else e.lastActiveAt) + e.checkpointIntervalSeconds * 1000
  {
    RunKeepsActive(CasSession(kv, e, now), ops, e.sid, e.(version := e.version + 1), ms);
  }
}
