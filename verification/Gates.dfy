/** The persistence gate the sweeps share: act on an anomaly only once it has been seen, unbroken, for the grace. */
module Gates {
  import opened Records

  /** What one look at a key showed. `Quiet` decides nothing, `Healthy` disarms. */
  datatype Sight = Quiet | Healthy | Anomalous(version: int)

  /** `now` is the time compared, `mark` the time recorded if this look arms the gate, `wrote` whether recording or
      clearing the mark would go through, `done` whether the action would. `End` closes a sweep. */
  datatype Event = See(sight: Sight, now: int, mark: int, wrote: bool, done: bool) | End

  datatype Mark = Mark(first: int, version: int)

  datatype Gate = Gate(mark: Option<Mark>, seen: bool)

  const OPEN := Gate(None, false)

  predicate Due(g: Gate, e: Event, grace: int) {
    && e.See? && e.sight.Anomalous? && g.mark.Some?
    && g.mark.value.version == e.sight.version && e.now - g.mark.value.first >= grace
  }

  function Step(g: Gate, e: Event, grace: int): Gate {
    match e
    case End => Gate(if g.seen then g.mark else None, false)
    case See(Quiet, _, _, _, _) => g
    case See(Healthy, _, _, wrote, _) => if wrote then g.(mark := None) else g
    case See(Anomalous(v), _, mark, wrote, done) =>
      if g.mark.None? || g.mark.value.version != v then Gate(if wrote then Some(Mark(mark, v)) else None, true)
      else if Due(g, e, grace) && done then Gate(None, true)
      else Gate(g.mark, true)
  }

  function Run(g: Gate, log: seq<Event>, grace: int): Gate {
    if log == [] then g else Step(Run(g, log[..|log| - 1], grace), log[|log| - 1], grace)
  }

  lemma {:induction false} RunNext(log: seq<Event>, n: nat, grace: int)
    requires n < |log|
    ensures Run(OPEN, log[..n + 1], grace) == Step(Run(OPEN, log[..n], grace), log[n], grace)
  {
    assert log[..n + 1][..n] == log[..n];
  }

  // ---- the reference: unbroken streaks, read off the log ----

  predicate Sees(e: Event, v: int) {
    e.See? && e.sight == Anomalous(v)
  }

  predicate Firing(log: seq<Event>, i: nat, grace: int)
    requires i < |log|
  {
    Due(Run(OPEN, log[..i], grace), log[i], grace)
  }

  /** The action was taken on this look and succeeded. */
  predicate Acted(log: seq<Event>, i: nat, grace: int)
    requires i < |log|
  {
    Firing(log, i, grace) && log[i].done
  }

  /** The sweep in progress at `n` has seen the anomaly. */
  ghost predicate SeenInSweep(log: seq<Event>, n: nat)
    requires n <= |log|
  {
    exists k | 0 <= k < n :: log[k].See? && log[k].sight.Anomalous? && NoEnd(log, k, n)
  }

  ghost predicate NoEnd(log: seq<Event>, k: nat, n: nat)
    requires k <= n <= |log|
  {
    forall j | k <= j < n :: log[j].See?
  }

  /** What a look or the end of a sweep must be for the streak at version `v` to go on. A healthy look ends it; read
      leniently, only if the clearing of the mark went through. */
  ghost predicate GoesOn(log: seq<Event>, i: nat, v: int, grace: int, strict: bool)
    requires i < |log|
  {
    match log[i]
    case End => SeenInSweep(log, i)
    case See(Quiet, _, _, _, _) => true
    case See(Healthy, _, _, wrote, _) => !strict && !wrote
    case See(Anomalous(w), _, _, _, _) => w == v && !Acted(log, i, grace)
  }

  /** From `a` up to `n` the anomaly was there at version `v`, in every sweep, and was not acted on. */
  ghost predicate Window(log: seq<Event>, a: int, n: nat, v: int, grace: int, strict: bool) {
    && 0 <= a < n <= |log|
    && Sees(log[a], v) && log[a].wrote && !Acted(log, a, grace)
    && forall i | a < i < n :: GoesOn(log, i, v, grace, strict)
  }

  /** The longest such window. */
  ghost predicate Streak(log: seq<Event>, a: int, n: nat, v: int, grace: int, strict: bool) {
    && Window(log, a, n, v, grace, strict)
    && forall b | 0 <= b < a :: !Window(log, b, n, v, grace, strict)
  }

  /** The marks are exactly the starts of the current streaks, read leniently. */
  ghost predicate Tracks(log: seq<Event>, n: nat, grace: int)
    requires n <= |log|
  {
    var g := Run(OPEN, log[..n], grace);
    && (g.seen <==> SeenInSweep(log, n))
    && match g.mark
       case None => forall a, v :: !Window(log, a, n, v, grace, false)
       case Some(m) => exists a :: Streak(log, a, n, m.version, grace, false) && log[a].mark == m.first
  }

  lemma {:induction false} WindowGrows(log: seq<Event>, a: int, n: nat, v: int, grace: int)
    requires n < |log|
    ensures Window(log, a, n + 1, v, grace, false) <==>
      || (Window(log, a, n, v, grace, false) && GoesOn(log, n, v, grace, false))
      || (a == n && Sees(log[n], v) && log[n].wrote && !Acted(log, n, grace))
  {
  }

  lemma {:induction false} OneVersion(log: seq<Event>, a: int, b: int, n: nat, v: int, w: int, grace: int)
    requires Window(log, a, n, v, grace, false) && Window(log, b, n, w, grace, false)
    ensures v == w
  {
    if a < b {
      assert GoesOn(log, b, v, grace, false);
    } else if b < a {
      assert GoesOn(log, a, w, grace, false);
    }
  }

  lemma {:induction false} SeenNext(log: seq<Event>, n: nat)
    requires n < |log|
    ensures SeenInSweep(log, n + 1) <==> log[n].See? && (log[n].sight.Anomalous? || SeenInSweep(log, n))
  {
    if SeenInSweep(log, n + 1) {
      var k :| 0 <= k < n + 1 && log[k].See? && log[k].sight.Anomalous? && NoEnd(log, k, n + 1);
      assert log[n].See?;
      if k < n {
        assert NoEnd(log, k, n);
      }
    }
    if log[n].See? && log[n].sight.Anomalous? {
      assert NoEnd(log, n, n + 1);
    } else if log[n].See? && SeenInSweep(log, n) {
      var k :| 0 <= k < n && log[k].See? && log[k].sight.Anomalous? && NoEnd(log, k, n);
      assert NoEnd(log, k, n + 1);
    }
  }

  /** A streak that goes on keeps its start. */
  lemma {:induction false} StreakGoesOn(log: seq<Event>, a: int, n: nat, v: int, grace: int)
    requires n < |log| && Streak(log, a, n, v, grace, false) && GoesOn(log, n, v, grace, false)
    ensures Streak(log, a, n + 1, v, grace, false)
  {
    WindowGrows(log, a, n, v, grace);
    var m := n + 1;
    forall b | 0 <= b < a ensures !Window(log, b, m, v, grace, false) {
      WindowGrows(log, b, n, v, grace);
    }
  }

  /** A look that breaks every streak and starts none leaves no window. */
  lemma {:induction false} NoneGoesOn(log: seq<Event>, n: nat, m: nat, grace: int)
    requires n < |log| && m == n + 1
    requires forall a, v | Window(log, a, n, v, grace, false) :: !GoesOn(log, n, v, grace, false)
    requires !log[n].See? || !log[n].sight.Anomalous? || !log[n].wrote || Acted(log, n, grace)
    ensures forall a, v :: !Window(log, a, m, v, grace, false)
  {
    forall a, v ensures !Window(log, a, m, v, grace, false) {
      WindowGrows(log, a, n, v, grace);
    }
  }

  lemma {:induction false} AnomalyTracks(log: seq<Event>, n: nat, grace: int)
    requires n < |log| && log[n].See? && log[n].sight.Anomalous? && Tracks(log, n, grace)
    ensures Tracks(log, n + 1, grace)
  {
    RunNext(log, n, grace);
    SeenNext(log, n);
    var g, v := Run(OPEN, log[..n], grace), log[n].sight.version;
    if g.mark.Some? && g.mark.value.version == v {
      var a :| Streak(log, a, n, v, grace, false) && log[a].mark == g.mark.value.first;
      if Acted(log, n, grace) {
        NoneGoesOn(log, n, n + 1, grace);
      } else {
        StreakGoesOn(log, a, n, v, grace);
      }
    } else {
      forall b, w | Window(log, b, n, w, grace, false) ensures w != v {
        assert g.mark.Some?;
        var a :| Streak(log, a, n, g.mark.value.version, grace, false);
        OneVersion(log, a, b, n, g.mark.value.version, w, grace);
      }
      if log[n].wrote {
        WindowGrows(log, n, n, v, grace);
        var m := n + 1;
        forall b | 0 <= b < n ensures !Window(log, b, m, v, grace, false) {
          WindowGrows(log, b, n, v, grace);
        }
        assert Streak(log, n, n + 1, v, grace, false);
      } else {
        NoneGoesOn(log, n, n + 1, grace);
      }
    }
  }

  lemma {:induction false} OtherTracks(log: seq<Event>, n: nat, grace: int)
    requires n < |log| && !(log[n].See? && log[n].sight.Anomalous?) && Tracks(log, n, grace)
    ensures Tracks(log, n + 1, grace)
  {
    RunNext(log, n, grace);
    SeenNext(log, n);
    var g := Run(OPEN, log[..n], grace);
    if g.mark.Some? && GoesOn(log, n, g.mark.value.version, grace, false) {
      var a :| Streak(log, a, n, g.mark.value.version, grace, false) && log[a].mark == g.mark.value.first;
      StreakGoesOn(log, a, n, g.mark.value.version, grace);
    } else {
      NoneGoesOn(log, n, n + 1, grace);
    }
  }

  lemma {:induction false} GateTracks(log: seq<Event>, n: nat, grace: int)
    requires n <= |log|
    ensures Tracks(log, n, grace)
  {
    if n > 0 {
      GateTracks(log, n - 1, grace);
      if log[n - 1].See? && log[n - 1].sight.Anomalous? {
        AnomalyTracks(log, n - 1, grace);
      } else {
        OtherTracks(log, n - 1, grace);
      }
    }
  }

  /** The last look shows an anomaly, and the streak that began at `a` is the grace old. */
  ghost predicate LastsSince(log: seq<Event>, a: int, grace: int, strict: bool) {
    && log != []
    && var n := |log| - 1;
    && log[n].See? && log[n].sight.Anomalous?
    && Streak(log, a, n, log[n].sight.version, grace, strict) && log[n].now - log[a].mark >= grace
  }

  /** The anomaly has persisted, unbroken, for the grace. */
  ghost predicate Persisted(log: seq<Event>, grace: int) {
    exists a :: LastsSince(log, a, grace, true)
  }

  /** Its mark has been held for the grace: it persisted, but for healthy looks whose clearing was lost. */
  ghost predicate Held(log: seq<Event>, grace: int) {
    exists a :: LastsSince(log, a, grace, false)
  }

  /** On any log, the gate opens exactly when a mark has been held for the grace. */
  lemma {:induction false} FiresExactlyWhenHeld(log: seq<Event>, grace: int)
    requires log != []
    ensures Firing(log, |log| - 1, grace) <==> Held(log, grace)
  {
    var n := |log| - 1;
    GateTracks(log, n, grace);
    var g := Run(OPEN, log[..n], grace);
    if log[n].See? && log[n].sight.Anomalous? && g.mark.Some? {
      var v, m := log[n].sight.version, g.mark.value;
      var a :| Streak(log, a, n, m.version, grace, false) && log[a].mark == m.first;
      forall b | Streak(log, b, n, v, grace, false) ensures a == b && m.version == v {
        OneVersion(log, a, b, n, m.version, v, grace);
      }
      if Firing(log, n, grace) {
        assert LastsSince(log, a, grace, false);
      }
    }
  }

  /** A healthy look between `a` and the last one whose clearing was lost. */
  ghost predicate LostClear(log: seq<Event>, a: int) {
    exists i | 0 <= i && a < i < |log| - 1 :: log[i].See? && log[i].sight.Healthy? && !log[i].wrote
  }

  /** A streak without a lost clear is a streak read strictly. */
  lemma {:induction false} NothingLost(log: seq<Event>, a: int, grace: int)
    requires LastsSince(log, a, grace, false) && !LostClear(log, a)
    ensures LastsSince(log, a, grace, true)
  {
    var n := |log| - 1;
    var v := log[n].sight.version;
    forall i | a < i < n ensures GoesOn(log, i, v, grace, true) {
      assert GoesOn(log, i, v, grace, false);
    }
    forall b | 0 <= b < a ensures !Window(log, b, n, v, grace, true) {
      if Window(log, b, n, v, grace, true) {
        StrictIsLenient(log, b, n, v, grace);
      }
    }
  }

  lemma {:induction false} StrictIsLenient(log: seq<Event>, a: int, n: nat, v: int, grace: int)
    requires Window(log, a, n, v, grace, true)
    ensures Window(log, a, n, v, grace, false)
  {
    forall i | a < i < n ensures GoesOn(log, i, v, grace, false) {
      assert GoesOn(log, i, v, grace, true);
    }
  }

  /** Whenever a key was seen healthy, clearing its mark went through. */
  ghost predicate ClearsWritten(log: seq<Event>, n: nat)
    requires n <= |log|
  {
    forall i | 0 <= i < n :: log[i].See? && log[i].sight.Healthy? ==> log[i].wrote
  }

  /** With no lost clear, as with marks kept in memory, the gate opens exactly when the anomaly has persisted. */
  lemma {:induction false} FiresExactlyWhenPersisted(log: seq<Event>, grace: int)
    requires log != [] && ClearsWritten(log, |log| - 1)
    ensures Firing(log, |log| - 1, grace) <==> Persisted(log, grace)
  {
    FiresExactlyWhenHeld(log, grace);
    if Held(log, grace) {
      var a :| LastsSince(log, a, grace, false);
      NothingLost(log, a, grace);
    }
    if Persisted(log, grace) {
      var a :| LastsSince(log, a, grace, true);
      AllWrittenIsStrict(log, a, grace);
    }
  }

  lemma {:induction false} AllWrittenIsStrict(log: seq<Event>, a: int, grace: int)
    requires log != [] && ClearsWritten(log, |log| - 1) && LastsSince(log, a, grace, true)
    ensures LastsSince(log, a, grace, false)
  {
    var n := |log| - 1;
    var v := log[n].sight.version;
    StrictIsLenient(log, a, n, v, grace);
    forall b | 0 <= b < a ensures !Window(log, b, n, v, grace, false) {
      if Window(log, b, n, v, grace, false) {
        forall i | b < i < n ensures GoesOn(log, i, v, grace, true) {
          assert GoesOn(log, i, v, grace, false);
        }
        assert Window(log, b, n, v, grace, true);
      }
    }
  }

  /** When the gate opens early: a mark has been held for the grace over a lost clear, and what streak there is without
      one is shorter. */
  ghost predicate HeldOverLostClear(log: seq<Event>, grace: int) {
    && (exists a :: LastsSince(log, a, grace, false) && LostClear(log, a))
    && forall b :: !LastsSince(log, b, grace, true)
  }

  /** The gate opens for an anomaly that has not persisted exactly when a clear was lost inside the held streak. */
  lemma {:induction false} FiresEarlyExactly(log: seq<Event>, grace: int)
    requires log != []
    ensures Firing(log, |log| - 1, grace) && !Persisted(log, grace) <==> HeldOverLostClear(log, grace)
  {
    FiresExactlyWhenHeld(log, grace);
    if Held(log, grace) && !Persisted(log, grace) {
      var a :| LastsSince(log, a, grace, false);
      if !LostClear(log, a) {
        NothingLost(log, a, grace);
      }
    }
  }

  /** Such logs exist after every armed one: a healthy look whose clearing is lost, then an anomaly past the grace. */
  lemma {:induction false} LostClearFiresEarly(log: seq<Event>, healthy: Event, later: Event, grace: int)
    requires healthy.See? && healthy.sight.Healthy? && !healthy.wrote
    requires Due(Run(OPEN, log, grace), later, grace)
    ensures var whole := log + [healthy, later];
      Firing(whole, |whole| - 1, grace) && !Persisted(whole, grace) && HeldOverLostClear(whole, grace)
  {
    var whole := log + [healthy, later];
    var n := |log|;
    assert whole[..n] == log;
    RunNext(whole, n, grace);
    var last := n + 1;
    forall a ensures !LastsSince(whole, a, grace, true) {
      assert !GoesOn(whole, n, later.sight.version, grace, true);
    }
    FiresEarlyExactly(whole, grace);
  }
}
