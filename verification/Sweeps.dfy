/** Sweeps over many keys, each key behind its own gate. */
module Sweeps {
  import opened Records
  import opened Gates

  /** One look at one key. */
  datatype Look = Look(key: string, event: Event)

  /** Marks kept in memory are always recorded and cleared. */
  ghost predicate InMemory(looks: seq<Look>) {
    forall l <- looks :: l.event.See? && l.event.wrote
  }

  /** The looks at one key, in order. */
  function LooksAt(looks: seq<Look>, key: string): seq<Event> {
    if looks == [] then []
    else
      var n := |looks| - 1;
      LooksAt(looks[..n], key) + if looks[n].key == key then [looks[n].event] else []
  }

  /** Everything one key went through: its looks, and the end of each sweep. */
  function LogOf(history: seq<seq<Look>>, key: string): seq<Event> {
    if history == [] then []
    else LogOf(history[..|history| - 1], key) + LooksAt(history[|history| - 1], key) + [End]
  }

  /** The same once `i` looks of a further sweep are done. */
  function LogAt(history: seq<seq<Look>>, looks: seq<Look>, i: nat, key: string): seq<Event>
    requires i <= |looks|
  {
    LogOf(history, key) + LooksAt(looks[..i], key)
  }

  /** The looks acted on are those at keys whose anomaly has persisted. */
  ghost predicate OnlyThePersistent(acted: seq<bool>, history: seq<seq<Look>>, looks: seq<Look>, grace: int)
    requires |acted| <= |looks|
  {
    forall i | 0 <= i < |acted| :: acted[i] <==> PersistedAt(history, looks, i, grace)
  }

  ghost predicate PersistedAt(history: seq<seq<Look>>, looks: seq<Look>, i: nat, grace: int)
    requires i < |looks|
  {
    Persisted(LogAt(history, looks, i + 1, looks[i].key), grace)
  }

  function GateOf(marks: map<string, Mark>, seen: set<string>, key: string): Gate {
    Gate(if key in marks then Some(marks[key]) else None, key in seen)
  }

  /** Between sweeps, every key's mark is what its log makes it. */
  ghost predicate Between(marks: map<string, Mark>, history: seq<seq<Look>>, grace: int) {
    && (forall looks <- history :: InMemory(looks))
    && forall key :: GateOf(marks, {}, key) == Run(OPEN, LogOf(history, key), grace)
  }

  ghost predicate Within(marks: map<string, Mark>, seen: set<string>, history: seq<seq<Look>>, looks: seq<Look>,
                         i: nat, grace: int)
    requires i <= |looks|
  {
    forall key :: GateOf(marks, seen, key) == Run(OPEN, LogAt(history, looks, i, key), grace)
  }

  /** `after` is `before` with one look taken. */
  ghost predicate Looked(before: map<string, Mark>, seen: set<string>, after: map<string, Mark>, seen': set<string>,
                         look: Look, grace: int) {
    && GateOf(after, seen', look.key) == Step(GateOf(before, seen, look.key), look.event, grace)
    && forall k :: k != look.key ==> GateOf(after, seen', k) == GateOf(before, seen, k)
  }

  lemma {:induction false} RunsOne(log: seq<Event>, e: Event, grace: int)
    ensures Run(OPEN, log + [e], grace) == Step(Run(OPEN, log, grace), e, grace)
  {
    assert (log + [e])[..|log|] == log;
  }

  lemma {:induction false} LookRuns(history: seq<seq<Look>>, looks: seq<Look>, i: nat, key: string, grace: int)
    requires i < |looks|
    ensures var log := LogAt(history, looks, i, key);
      LogAt(history, looks, i + 1, key) == if looks[i].key == key then log + [looks[i].event] else log
    ensures var g := Run(OPEN, LogAt(history, looks, i, key), grace);
      Run(OPEN, LogAt(history, looks, i + 1, key), grace) ==
      if looks[i].key == key then Step(g, looks[i].event, grace) else g
  {
    assert looks[..i + 1][..i] == looks[..i];
    RunsOne(LogAt(history, looks, i, key), looks[i].event, grace);
  }

  lemma {:induction false} Begins(marks: map<string, Mark>, history: seq<seq<Look>>, looks: seq<Look>, grace: int)
    requires Between(marks, history, grace)
    ensures Within(marks, {}, history, looks, 0, grace)
  {
    forall key ensures GateOf(marks, {}, key) == Run(OPEN, LogAt(history, looks, 0, key), grace) {
      assert LogAt(history, looks, 0, key) == LogOf(history, key);
    }
  }

  lemma {:induction false} Continues(before: map<string, Mark>, seen: set<string>, after: map<string, Mark>,
                                     seen': set<string>,
                                  history: seq<seq<Look>>, looks: seq<Look>, i: nat, grace: int)
    requires i < |looks| && Within(before, seen, history, looks, i, grace)
    requires Looked(before, seen, after, seen', looks[i], grace)
    ensures Within(after, seen', history, looks, i + 1, grace)
  {
    forall key ensures GateOf(after, seen', key) == Run(OPEN, LogAt(history, looks, i + 1, key), grace) {
      LookRuns(history, looks, i, key, grace);
    }
  }

  lemma {:induction false} Closes(before: map<string, Mark>, seen: set<string>, after: map<string, Mark>,
                                  history: seq<seq<Look>>, looks: seq<Look>, grace: int)
    requires Within(before, seen, history, looks, |looks|, grace)
    requires InMemory(looks) && forall past <- history :: InMemory(past)
    requires forall k :: k in after <==> k in before && k in seen
    requires forall k <- after :: after[k] == before[k]
    ensures Between(after, history + [looks], grace)
  {
    assert looks[..|looks|] == looks && (history + [looks])[..|history|] == history;
    forall key ensures GateOf(after, {}, key) == Run(OPEN, LogOf(history + [looks], key), grace) {
      RunsOne(LogAt(history, looks, |looks|, key), End, grace);
    }
  }

  lemma {:induction false} LooksRecorded(looks: seq<Look>, key: string)
    requires InMemory(looks)
    ensures forall e <- LooksAt(looks, key) :: e.See? && e.wrote
  {
    if looks != [] {
      assert looks[|looks| - 1] in looks;
      LooksRecorded(looks[..|looks| - 1], key);
    }
  }

  lemma {:induction false} LogRecorded(history: seq<seq<Look>>, key: string)
    requires forall looks <- history :: InMemory(looks)
    ensures forall e <- LogOf(history, key) | e.See? :: e.wrote
  {
    if history != [] {
      LogRecorded(history[..|history| - 1], key);
      LooksRecorded(history[|history| - 1], key);
    }
  }

  lemma {:induction false} LookPersisted(history: seq<seq<Look>>, looks: seq<Look>, i: nat, grace: int)
    requires i < |looks| && InMemory(looks) && forall past <- history :: InMemory(past)
    ensures var key := looks[i].key;
      Due(Run(OPEN, LogAt(history, looks, i, key), grace), looks[i].event, grace)
      <==> PersistedAt(history, looks, i, grace)
  {
    var key := looks[i].key;
    var past, front := LogOf(history, key), LooksAt(looks[..i], key);
    LogRecorded(history, key);
    LooksRecorded(looks[..i], key);
    LookRuns(history, looks, i, key, grace);
    var log := LogAt(history, looks, i + 1, key);
    assert log[..|log| - 1] == past + front;
    forall k | 0 <= k < |log| - 1 ensures log[k].See? ==> log[k].wrote {
      assert log[k] in past || log[k] in front;
    }
    FiresExactlyWhenPersisted(log, grace);
  }

  lemma {:induction false} StillOnlyThePersistent(acted: seq<bool>, due: bool, history: seq<seq<Look>>,
                                                  looks: seq<Look>, grace: int)
    requires InMemory(looks) && forall past <- history :: InMemory(past)
    requires |acted| < |looks| && OnlyThePersistent(acted, history, looks, grace)
    requires var i := |acted|;
      due <==> Due(Run(OPEN, LogAt(history, looks, i, looks[i].key), grace), looks[i].event, grace)
    ensures OnlyThePersistent(acted + [due], history, looks, grace)
  {
    LookPersisted(history, looks, |acted|, grace);
    var next := acted + [due];
    assert next[|acted|] <==> PersistedAt(history, looks, |acted|, grace);
    forall i | 0 <= i < |acted| ensures next[i] <==> PersistedAt(history, looks, i, grace) {
      assert acted[i] <==> PersistedAt(history, looks, i, grace);
    }
  }

  /** Drops the marks of keys the sweep did not see. */
  method Forget(marks: map<string, Mark>, seen: set<string>) returns (kept: map<string, Mark>)
    ensures forall k :: k in kept <==> k in marks && k in seen
    ensures forall k <- kept :: kept[k] == marks[k]
  {
    kept := marks;
    var left := marks.Keys;
    while left != {}
      invariant left <= marks.Keys
      invariant forall k :: k in kept <==> k in marks && (k in left || k in seen)
      invariant forall k <- kept :: kept[k] == marks[k]
      decreases |left|
    {
      var k :| k in left;
      if k !in seen {
        kept := kept - {k};
      }
      left := left - {k};
    }
  }
}
