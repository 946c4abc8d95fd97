/** The read, mutate, compare-and-set, retry loop that every writer of a session goes through. */
module CasLoop {
  import opened Records
  import opened Assign
  import S = Store
  import M = Mutations

  /** Other clients' scripts around one attempt, before its read and between its read and its write, and whether the
      store answers the read and the write with an error. */
  datatype Slot = Slot(beforeRead: seq<Op>, beforeWrite: seq<Op>, readFails: bool, writeFails: bool)

  function Flatten(env: seq<Slot>): seq<Op> {
    if env == [] then [] else Flatten(env[..|env| - 1]) + env[|env| - 1].beforeRead + env[|env| - 1].beforeWrite
  }

  datatype Outcome = Written(entry: SessionEntry) | Declined | Missing | Errored | Conflict

  /** What a loop does between read and write: `None` means the guard failed and the loop stops. */
  type Mutation = SessionEntry -> Option<SessionEntry>

  ghost predicate KeepsKey(mutate: Mutation) {
    forall e :: mutate(e).Some? ==> mutate(e).value.sid == e.sid && mutate(e).value.version == e.version
  }

  function StoredOrFresh(kv: KV, sid: Sid): SessionEntry {
    if sid in kv.sessions then kv.sessions[sid] else FreshEntry(sid)
  }

  ghost predicate NoDelete(ops: seq<Op>, sid: Sid) {
    forall i | 0 <= i < |ops| :: ops[i] != Delete(sid)
  }

  /** `later` may follow `earlier`: versions only grow, and an equal version pins every field but the stamp. */
  ghost predicate EntryFollows(earlier: map<Sid, SessionEntry>, later: map<Sid, SessionEntry>, sid: Sid) {
    sid in earlier ==>
      && sid in later
      && earlier[sid].version <= later[sid].version
      && (earlier[sid].version == later[sid].version ==> SameButActivity(earlier[sid], later[sid]))
  }

  ghost predicate Follows(earlier: KV, later: KV, sid: Sid) {
    EntryFollows(earlier.sessions, later.sessions, sid)
  }

  lemma {:induction false} ApplyFollows(kv: KV, op: Op, sid: Sid)
    requires KeyedSessions(kv.sessions) && op != Delete(sid)
    ensures KeyedSessions(Apply(kv, op).sessions) && Follows(kv, Apply(kv, op), sid)
  {
    match op
    case Cas(e, now) => CasFollows(kv, e, now, sid);
    case Stamp(other, ms) => StampFollows(kv, other, ms, sid);
    case Delete(other) => DeleteFollows(kv, other, sid);
    case _ => OnlySessionScriptsWriteSessions(kv, op);
  }

  lemma {:induction false} DeleteFollows(kv: KV, other: Sid, sid: Sid)
    requires KeyedSessions(kv.sessions) && other != sid
    ensures KeyedSessions(DeleteSession(kv, other).sessions) && Follows(kv, DeleteSession(kv, other), sid)
  {
  }

  lemma {:induction false} CasFollows(kv: KV, e: SessionEntry, now: int, sid: Sid)
    requires KeyedSessions(kv.sessions)
    ensures KeyedSessions(Assign.CasSession(kv, e, now).sessions) && Follows(kv, Assign.CasSession(kv, e, now), sid)
  {
  }

  lemma {:induction false} StampFollows(kv: KV, other: Sid, ms: int, sid: Sid)
    requires KeyedSessions(kv.sessions)
    ensures KeyedSessions(StampActive(kv, other, ms).sessions) && Follows(kv, StampActive(kv, other, ms), sid)
  {
  }

  /** Whatever runs in between, an entry whose version has not moved is the entry that was read, up to its stamp. */
  lemma {:induction false} RunFollows(kv: KV, ops: seq<Op>, sid: Sid)
    requires KeyedSessions(kv.sessions) && NoDelete(ops, sid)
    ensures KeyedSessions(ApplyAll(kv, ops).sessions) && Follows(kv, ApplyAll(kv, ops), sid)
    decreases |ops|
  {
    if ops != [] {
      ApplyFollows(kv, ops[0], sid);
      RunFollows(Apply(kv, ops[0]), ops[1..], sid);
    }
  }

  lemma {:induction false} RunKeepsKeys(kv: KV, ops: seq<Op>)
    requires KeyedSessions(kv.sessions)
    ensures KeyedSessions(ApplyAll(kv, ops).sessions)
    decreases |ops|
  {
    if ops != [] {
      ApplyKeepsKeys(kv, ops[0]);
      RunKeepsKeys(Apply(kv, ops[0]), ops[1..]);
    }
  }

  lemma {:induction false} ApplyKeepsKeys(kv: KV, op: Op)
    requires KeyedSessions(kv.sessions)
    ensures KeyedSessions(Apply(kv, op).sessions)
  {
    if !op.Delete? {
      ApplyFollows(kv, op, "");
    }
  }

  /** A winning write means the entry read earlier is still the stored one, up to its stamp. */
  lemma {:induction false} WinPinsEntry(read: KV, ops: seq<Op>, sid: Sid)
    requires KeyedSessions(read.sessions) && NoDelete(ops, sid)
    requires VersionOf(ApplyAll(read, ops), sid) == VersionOf(read, sid)
    ensures SameButActivity(StoredOrFresh(read, sid), StoredOrFresh(ApplyAll(read, ops), sid))
  {
    RunFollows(read, ops, sid);
  }

  /** The entry a client gets by editing, with the stamp it read, the entry stored when its write runs. */
  function EditOf(mutate: Mutation, stored: SessionEntry, stampRead: int): Option<SessionEntry> {
    mutate(stored.(lastActiveAt := stampRead))
  }

  /** The copy attempt `i` works on: the seed on the first attempt, else what its own read returned. */
  function CopyOf(kv: KV, seed: Option<SessionEntry>, env: seq<Slot>, i: nat, sid: Sid): SessionEntry
    requires i < |env|
  {
    if i == 0 && seed.Some? then seed.value else StoredOrFresh(AtRead(kv, env, i), sid)
  }

  /** The store refuses attempt `i` its read. A seeded first attempt does not read. */
  predicate ReadRefused(seed: Option<SessionEntry>, env: seq<Slot>, i: nat)
    requires i < |env|
  {
    env[i].readFails && !(i == 0 && seed.Some?)
  }

  /** No delete of the key since attempt `i` got its copy. */
  ghost predicate Undeleted(seed: Option<SessionEntry>, env: seq<Slot>, i: nat, sid: Sid)
    requires i < |env|
  {
    NoDelete(env[i].beforeWrite, sid) && (i == 0 && seed.Some? ==> NoDelete(env[i].beforeRead, sid))
  }

  /** The table just before attempt `i` reads, and just before it writes. */
  function AtRead(kv: KV, env: seq<Slot>, i: nat): KV
    requires i < |env|
  {
    ApplyAll(ApplyAll(kv, Flatten(env[..i])), env[i].beforeRead)
  }

  function AtWrite(kv: KV, env: seq<Slot>, i: nat): KV
    requires i < |env|
  {
    ApplyAll(AtRead(kv, env, i), env[i].beforeWrite)
  }

  method Interfere(store: S.Store, ops: seq<Op>)
    modifies store
    ensures store.View() == ApplyAll(old(store.View()), ops)
  {
    ghost var start := store.View();
    for i := 0 to |ops|
      invariant store.View() == ApplyAll(start, ops[..i])
    {
      assert ops[..i + 1] == ops[..i] + [ops[i]];
      ApplyAllConcat(start, ops[..i], [ops[i]]);
      ghost var here := store.View();
      var table := KV(store.sessions, store.workers, store.idle, store.all, store.suspendDue, store.checkpointDue);
      var next := Apply(table, ops[i]);
      store.sessions, store.workers, store.idle := next.sessions, next.workers, next.idle;
      store.all, store.suspendDue, store.checkpointDue := next.all, next.suspendDue, next.checkpointDue;
      assert ApplyAll(here, [ops[i]]) == next;
    }
    assert ops[..|ops|] == ops;
  }

  /** In attempt `i` another writer moved the version between the copy's read and its write. */
  predicate Moved(kv: KV, seed: Option<SessionEntry>, env: seq<Slot>, i: nat, sid: Sid)
    requires i < |env|
  {
    VersionOf(AtWrite(kv, env, i), sid) != CopyOf(kv, seed, env, i, sid).version
  }

  /** Another writer moved the version under each of the first `n` attempts. */
  predicate AllMoved(kv: KV, seed: Option<SessionEntry>, env: seq<Slot>, n: nat, sid: Sid)
    requires n <= |env|
  {
    n == 0 || (Moved(kv, seed, env, n - 1, sid) && AllMoved(kv, seed, env, n - 1, sid))
  }

  lemma {:induction false} MovedNext(kv: KV, seed: Option<SessionEntry>, env: seq<Slot>, i: nat, next: nat, sid: Sid)
    requires next == i + 1 <= |env| && AllMoved(kv, seed, env, i, sid) && Moved(kv, seed, env, i, sid)
    ensures AllMoved(kv, seed, env, next, sid)
  {
  }

  lemma {:induction false} FirstMoved(kv: KV, seed: Option<SessionEntry>, env: seq<Slot>, n: nat, sid: Sid)
    requires 0 < n <= |env| && AllMoved(kv, seed, env, n, sid)
    ensures Moved(kv, seed, env, 0, sid)
  {
    if n > 1 {
      FirstMoved(kv, seed, env, n - 1, sid);
    }
  }

  /** A seed stands for the stored entry: same key, same version, and the mutation cannot tell them apart. */
  ghost predicate SeedOk(kv: KV, sid: Sid, seed: Option<SessionEntry>, mutate: Mutation) {
    seed.Some? ==>
      && sid in kv.sessions
      && seed.value.sid == sid && seed.value.version == kv.sessions[sid].version
      && forall stamp :: EditOf(mutate, seed.value, stamp) == EditOf(mutate, kv.sessions[sid], stamp)
  }

  /** What attempt `i` of a loop begun at `kv` did. A write stores the edited copy over an entry of the copy's version;
      unless the key was deleted in between, that is one atomic application of `mutate`, at the instant of the write, to
      the entry stored then, with the stamp read earlier. Every other outcome wrote nothing. */
  ghost predicate Explains(kv: KV, seed: Option<SessionEntry>, env: seq<Slot>, i: nat, sid: Sid, createMissing: bool,
                           mutate: Mutation, now: int, outcome: Outcome, after: KV)
    requires i < |env|
  {
    var copy := CopyOf(kv, seed, env, i, sid);
    match outcome
    case Written(e) =>
      && !ReadRefused(seed, env, i) && !env[i].writeFails && mutate(copy) == Some(e)
      && CasWins(AtWrite(kv, env, i), e) && after == Assign.CasSession(AtWrite(kv, env, i), e, now)
      && (Undeleted(seed, env, i, sid) ==>
            EditOf(mutate, StoredOrFresh(AtWrite(kv, env, i), sid), copy.lastActiveAt) == Some(e))
    case Declined => after == AtRead(kv, env, i) && mutate(copy).None?
    case Missing => after == AtRead(kv, env, i) && !createMissing && sid !in after.sessions
    case Errored =>
      if ReadRefused(seed, env, i) then after == AtRead(kv, env, i)
      else env[i].writeFails && after == AtWrite(kv, env, i)
    case Conflict => after == AtWrite(kv, env, i) && Moved(kv, seed, env, i, sid)
  }

  /** One attempt: take the seed or read, edit, write if the version still matches. */
  method Attempt(store: S.Store, sid: Sid, seed: Option<SessionEntry>, createMissing: bool, mutate: Mutation,
                 now: int, env: seq<Slot>, i: nat, ghost start: KV)
    returns (outcome: Outcome)
    requires i < |env| && KeyedSessions(store.View().sessions) && KeepsKey(mutate)
    requires store.View() == ApplyAll(start, Flatten(env[..i]))
    requires i == 0 ==> SeedOk(start, sid, seed, mutate)
    modifies store
    ensures Explains(start, seed, env, i, sid, createMissing, mutate, now, outcome, store.View())
    ensures outcome.Conflict? ==> KeyedSessions(store.View().sessions)
  {
    ghost var begun := store.View();
    Interfere(store, env[i].beforeRead);
    ghost var read := store.View();
    assert read == AtRead(start, env, i);
    RunKeepsKeys(begun, env[i].beforeRead);
    var e;
    if i == 0 && seed.Some? {
      e := seed.value;
    } else {
      if env[i].readFails {
        return Errored;
      }
      var got := store.GetSession(sid);
      if got.None? && !createMissing {
        return Missing;
      }
      e := if got.Some? then got.value else FreshEntry(sid);
    }
    var edited := mutate(e);
    if edited.None? {
      return Declined;
    }
    Interfere(store, env[i].beforeWrite);
    assert store.View() == AtWrite(start, env, i);
    RunKeepsKeys(read, env[i].beforeWrite);
    if env[i].writeFails {
      return Errored;
    }
    var ok := store.PutSessionCAS(edited.value, now);
    if ok {
      CopyPinned(start, seed, env, i, sid, mutate, edited.value);
      return Written(edited.value);
    }
    return Conflict;
  }

  /** A copy whose version is still stored, with no delete in between, is the stored entry to the mutation. */
  lemma {:induction false} CopyPinned(start: KV, seed: Option<SessionEntry>, env: seq<Slot>, i: nat, sid: Sid,
                                      mutate: Mutation, e: SessionEntry)
    requires i < |env| && KeepsKey(mutate) && KeyedSessions(ApplyAll(start, Flatten(env[..i])).sessions)
    requires i == 0 ==> SeedOk(start, sid, seed, mutate)
    requires mutate(CopyOf(start, seed, env, i, sid)) == Some(e) && CasWins(AtWrite(start, env, i), e)
    ensures Undeleted(seed, env, i, sid) ==>
      var stamp := CopyOf(start, seed, env, i, sid).lastActiveAt;
      EditOf(mutate, StoredOrFresh(AtWrite(start, env, i), sid), stamp) == Some(e)
  {
    var copy := CopyOf(start, seed, env, i, sid);
    RunKeepsKeys(ApplyAll(start, Flatten(env[..i])), env[i].beforeRead);
    if Undeleted(seed, env, i, sid) {
      if i == 0 && seed.Some? {
        assert env[..0] == [];
        SeedPins(start, env[i], sid, seed.value);
        assert EditOf(mutate, seed.value, copy.lastActiveAt) == Some(e);
      } else {
        WinPinsEntry(AtRead(start, env, i), env[i].beforeWrite, sid);
      }
    }
  }

  /** The retry loop under arbitrary interference `env`: an attempt is retried only when another writer moved the
      version under it, and some attempt explains the outcome, or all lost and the loop itself changed nothing. */
  method CasSession(store: S.Store, sid: Sid, seed: Option<SessionEntry>, createMissing: bool, mutate: Mutation,
                    now: int, env: seq<Slot>)
    returns (outcome: Outcome, ghost tries: nat)
    requires |env| == MAX_TRIES
    requires KeyedSessions(store.View().sessions) && KeepsKey(mutate) && SeedOk(store.View(), sid, seed, mutate)
    modifies store
    ensures !outcome.Conflict? ==>
      tries < MAX_TRIES &&
      Explains(old(store.View()), seed, env, tries, sid, createMissing, mutate, now, outcome, store.View())
    ensures tries <= MAX_TRIES && AllMoved(old(store.View()), seed, env, tries, sid)
    ensures outcome.Conflict? ==>
      tries == MAX_TRIES && store.View() == ApplyAll(old(store.View()), Flatten(env))
  {
    ghost var start := store.View();
    tries := 0;
    assert env[..0] == [];
    var i := 0;
    while i < MAX_TRIES
      invariant i <= MAX_TRIES && tries == i
      invariant store.View() == ApplyAll(start, Flatten(env[..i]))
      invariant KeyedSessions(store.View().sessions)
      invariant AllMoved(start, seed, env, i, sid)
    {
      outcome := Attempt(store, sid, seed, createMissing, mutate, now, env, i, start);
      if !outcome.Conflict? {
        return;
      }
      var next := i + 1;
      FlattenNext(start, env, i, next);
      MovedNext(start, seed, env, i, next, sid);
      i, tries := next, next;
    }
    assert env[..MAX_TRIES] == env;
    return Conflict, tries;
  }

  lemma {:induction false} FlattenNext(kv: KV, env: seq<Slot>, i: nat, next: nat)
    requires next == i + 1 <= |env|
    ensures AtWrite(kv, env, i) == ApplyAll(kv, Flatten(env[..next]))
  {
    assert env[..next][..i] == env[..i];
    var done := Flatten(env[..i]);
    ApplyAllConcat(kv, done, env[i].beforeRead);
    ApplyAllConcat(kv, done + env[i].beforeRead, env[i].beforeWrite);
  }

  lemma {:induction false} SeedPins(start: KV, slot: Slot, sid: Sid, seed: SessionEntry)
    requires KeyedSessions(start.sessions) && NoDelete(slot.beforeRead, sid) && NoDelete(slot.beforeWrite, sid)
    requires sid in start.sessions && seed.version == start.sessions[sid].version
    requires VersionOf(ApplyAll(ApplyAll(start, slot.beforeRead), slot.beforeWrite), sid) == seed.version
    ensures var end := ApplyAll(ApplyAll(start, slot.beforeRead), slot.beforeWrite);
      SameButActivity(start.sessions[sid], StoredOrFresh(end, sid))
  {
    RunFollows(start, slot.beforeRead, sid);
    RunFollows(ApplyAll(start, slot.beforeRead), slot.beforeWrite, sid);
  }

  /** resume()'s edited copy is an admissible seed for its Resuming write. */
  lemma SeedIsTransparent(stored: SessionEntry, w: WorkerEntry, b: M.BindSpec)
    ensures var mutate: Mutation := e => Some(M.MarkResuming(e, w, b));
            forall stamp :: EditOf(mutate, M.StaleRunningEdit(stored), stamp) == EditOf(mutate, stored, stamp)
  {
    forall stamp: int {
      M.SeedWritesTheSame(stored.(lastActiveAt := stamp), w, b);
    }
  }

  /** Versions restart after a delete, so a delete in between lets a stale copy win, and the write is not the mutation
      of the stored entry: here a rollback's copy, read before a delete and a re-creation, overwrites the new entry and
      its recorded snapshot is lost. */
  lemma DeleteLetsAStaleCopyWin(sid: Sid)
    ensures
      var first := FreshEntry(sid).(state := Resuming);
      var second := FreshEntry(sid).(state := Suspended, snapshotURI := "snap");
      var read := Assign.CasSession(EMPTY_KV, first, 1);
      var later := ApplyAll(read, [Delete(sid), Cas(second, 2)]);
      && CasWins(later, M.RollBack(read.sessions[sid]))
      && later.sessions[sid].snapshotURI == "snap"
      && Assign.CasSession(later, M.RollBack(read.sessions[sid]), 3).sessions[sid].snapshotURI == ""
  {
    var first := FreshEntry(sid).(state := Resuming);
    var second := FreshEntry(sid).(state := Suspended, snapshotURI := "snap");
    var read := Assign.CasSession(EMPTY_KV, first, 1);
    var gone := Apply(read, Delete(sid));
    assert sid !in gone.sessions;
    var later := Apply(gone, Cas(second, 2));
    assert ApplyAll(read, [Delete(sid), Cas(second, 2)]) == later by {
      assert [Delete(sid), Cas(second, 2)][1..] == [Cas(second, 2)];
      assert ApplyAll(gone, [Cas(second, 2)]) == ApplyAll(later, []);
    }
  }
}
