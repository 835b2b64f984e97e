/**
 Runs from the empty world in which the code fails a promise: a wake-up lost to an overflowed
 delay or to a one-nanosecond interval, and an expired object deleted twice.  With the first two
 the conditions of the wake-up theorem are exact.
 */
module Witnesses {
  import opened Api
  import opened Delays
  import opened Journal
  import opened Names
  import opened Passes
  import opened Worlds
  import opened CrashSafety
  import opened Safety
  import opened Convergence
  import opened Wakeups
  import opened Duplicates

  /** Every pass reads this class. */
  function Reads(cl: Class): Action -> bool {
    (a: Action) => a.Reconcile? ==> a.calls.lookup == Found(cl)
  }

  /** Every call is answered; the engine reports failure or not. */
  function Replies(cl: Class, now: int, fails: bool): Calls {
    Calls(now, Found(cl), Some("key"), Some(Kind("v1", "Job")), true, true, true, true, true, true, true, true, fails,
          false, false)
  }

  function PassAt(u: Uid, cl: Class, now: int, fails: bool): Action {
    Reconcile(u, Replies(cl, now, fails), true, 0.5)
  }

  // ------------------------------------------------------- passes that charge

  /** A searching pass finds that the tracked run reports failure. */
  predicate Fails(w: World, u: Uid, c: Calls, cl: Class) {
    && u in w.artifacts && u in w.ledgers
    && var st := w.artifacts[u].status;
       && Searches(CtxOf(w, u, c), ViewOf(w, u), cl) && NoRetry(CtxOf(w, u, c), st)
       && cl.generator.Some? && st.failed < EffectiveGate(cl).budget
       && st.ref.Some? && st.ref.value in w.runs && c.runGetOk && c.failedWhen
  }

  lemma ChargingPass(w: World, u: Uid, c: Calls, cl: Class)
    requires Fails(w, u, c, cl)
    ensures c.key.Some?
    ensures var x, v := CtxOf(w, u, c), Arrived(CtxOf(w, u, c), ViewOf(w, u));
            OutcomeOf(w, u, c) == Failure(x, v, EffectiveGate(cl), GeneratorFailed, ReportedFailure)
  {
    hide Pass, Searches, NoRetry, EffectiveGate, GateOpen, NoGenerator, Arrived, Failure, BackoffDelay;
    var x, a := CtxOf(w, u, c), ViewOf(w, u);
    ArrivedPass(x, a, cl);
    ArrivedCounts(x, a);
  }

  lemma ChargeLeaves(w: World, u: Uid, c: Calls, cl: Class, draw: Draw)
    requires Fails(w, u, c, cl)
    ensures var w', a := AfterPass(w, u, c, true, draw), w.artifacts[u];
            && w'.runs == w.runs && w'.objects == w.objects && w'.now == w.now && u in w'.artifacts && u in w'.ledgers
            && w'.artifacts[u].meta == a.meta && w'.artifacts[u].spec == a.spec
            && w'.artifacts[u].finalizer && !w'.artifacts[u].deleting && w'.artifacts[u].status.ref.None?
            && w'.artifacts[u].status.failed == a.status.failed + 1
            && w'.artifacts[u].status.attempts == a.status.attempts
  {
    hide OutcomeOf, AfterPass, Recorded, NoRetry, EffectiveGate, Reached, Failure, Arrived, TruncateOpt;
    ChargingPass(w, u, c, cl);
    var x, a := CtxOf(w, u, c), ViewOf(w, u);
    ArrivedHolds(x, a);
    ArrivedCounts(x, a);
    FailureJudges(x, Arrived(x, a), EffectiveGate(cl), GeneratorFailed, ReportedFailure);
    FailureHolds(x, Arrived(x, a), EffectiveGate(cl), GeneratorFailed, ReportedFailure);
    AfterPassFacts(w, u, c, true, draw);
    Stays(w, u, c, true, draw);
  }

  // ------------------------------------------------------ failing k times over

  function Producer(interval: int): Spec {
    Spec(interval, false, None, None, false, false, "")
  }

  /** Every run in the cluster is one of the Artifact's counted attempts. */
  predicate Counted(w: World, m: Meta, attempts: nat) {
    forall r :: r in w.runs ==> r.name == RunName(m, w.runs[r].attempt) && w.runs[r].attempt <= attempts
  }

  /** The Artifact has failed `k` times and nothing is in the store. */
  predicate Failed(w: World, m: Meta, sp: Spec, k: nat) {
    && w.objects == map[] && m.uid in w.artifacts && m.uid in w.ledgers
    && var a := w.artifacts[m.uid];
       && a.meta == m && a.spec == sp && !a.deleting && a.finalizer
       && a.status.failed == k && Counted(w, m, a.status.attempts)
  }

  predicate Waiting(w: World, m: Meta, sp: Spec, k: nat) {
    Failed(w, m, sp, k) && w.artifacts[m.uid].status.ref.None?
  }

  predicate Running(w: World, m: Meta, sp: Spec, k: nat) {
    && Failed(w, m, sp, k)
    && var ref := w.artifacts[m.uid].status.ref; ref.Some? && ref.value in w.runs
  }

  /** When the backoff gate is open. */
  function OpeningTime(st: Status, g: Gate): int {
    if st.lastFailure.Some? then st.lastFailure.value + BackoffDelay(st.failed, g.initial, g.max) else 0
  }

  lemma NextNameFree(w: World, m: Meta, sp: Spec, k: nat, kind: Kind)
    requires Waiting(w, m, sp, k)
    ensures AheadRef(w.artifacts[m.uid], kind) !in w.runs
  {
    hide RunName;
    var r := AheadRef(w.artifacts[m.uid], kind);
    if r in w.runs {
      RunNameInjective(m, w.runs[r].attempt, w.artifacts[m.uid].status.attempts + 1);
    }
  }

  lemma WaitingLaunches(w: World, m: Meta, interval: int, k: nat, cl: Class)
    requires Waiting(w, m, Producer(interval), k) && cl.generator.Some? && k < EffectiveGate(cl).budget
    requires OpeningTime(w.artifacts[m.uid].status, EffectiveGate(cl)) <= w.now
    ensures Launches(w, m.uid, Replies(cl, w.now, false), cl)
  {
    hide RunName, BackoffDelay, EffectiveGate, Counted;
    NextNameFree(w, m, Producer(interval), k, Kind("v1", "Job"));
  }

  lemma LaunchRuns(w: World, m: Meta, interval: int, k: nat, cl: Class)
    requires Waiting(w, m, Producer(interval), k) && cl.generator.Some? && k < EffectiveGate(cl).budget
    requires OpeningTime(w.artifacts[m.uid].status, EffectiveGate(cl)) <= w.now
    ensures Running(Next(w, PassAt(m.uid, cl, w.now, false)), m, Producer(interval), k)
    ensures Next(w, PassAt(m.uid, cl, w.now, false)).now == w.now
  {
    hide RunName, BackoffDelay, EffectiveGate, AfterPass, Launches, OpeningTime;
    WaitingLaunches(w, m, interval, k, cl);
    LaunchLeaves(w, m.uid, Replies(cl, w.now, false), cl, true, 0.5);
  }

  lemma RunningFails(w: World, m: Meta, interval: int, k: nat, cl: Class)
    requires Running(w, m, Producer(interval), k) && cl.generator.Some? && k < EffectiveGate(cl).budget
    ensures Fails(w, m.uid, Replies(cl, w.now, true), cl)
  {
    hide EffectiveGate, Counted;
  }

  lemma ChargeWaits(w: World, m: Meta, interval: int, k: nat, cl: Class)
    requires Running(w, m, Producer(interval), k) && cl.generator.Some? && k < EffectiveGate(cl).budget
    ensures Waiting(Next(w, PassAt(m.uid, cl, w.now, true)), m, Producer(interval), k + 1)
  {
    hide EffectiveGate, AfterPass, Fails, RunName;
    RunningFails(w, m, interval, k, cl);
    ChargeLeaves(w, m.uid, Replies(cl, w.now, true), cl, 0.5);
  }

  /** The Artifact is admitted and gets its finalizer. */
  lemma Admission(m: Meta, sp: Spec, cl: Class) returns (ws: seq<World>, acts: seq<Action>, w: World)
    ensures Reaches(ws, acts, w, Reads(cl)) && w.now == 0 && w.objects == map[] && w.runs == map[] && !w.refusing
    ensures m.uid in w.artifacts && m.uid in w.ledgers && w.artifacts[m.uid] == Artifact(m, sp, NEW_STATUS, true, false)
  {
    var ok, a, p := Reads(cl), Admit(m, sp), PassAt(m.uid, cl, 0, false);
    var w1 := Next(START, a);
    assert w1.artifacts[m.uid] == Artifact(m, sp, NEW_STATUS, false, false) && m.uid in w1.ledgers;
    hide Reaches, AfterPass, TruncateOpt;
    StartReached(ok);
    GoOn([START], [], START, a, ok);
    GoOn([START] + [w1], [] + [a], w1, p, ok);
    FinalizerPass(w1, m.uid, p.calls, 0.5);
    ws, acts, w := [START] + [w1] + [Next(w1, p)], [] + [a] + [p], Next(w1, p);
  }

  /** Time passes until the gate opens, and the next run is created. */
  lemma Relaunched(ws: seq<World>, acts: seq<Action>, w: World, m: Meta, interval: int, k: nat, cl: Class)
    returns (ws': seq<World>, acts': seq<Action>, w': World)
    requires Reaches(ws, acts, w, Reads(cl)) && Waiting(w, m, Producer(interval), k)
    requires cl.generator.Some? && k < EffectiveGate(cl).budget
    ensures Reaches(ws', acts', w', Reads(cl)) && Running(w', m, Producer(interval), k)
  {
    hide Reaches, AfterPass, EffectiveGate, RunName, OpeningTime, BackoffDelay;
    var ok, t := Reads(cl), Max(w.now, OpeningTime(w.artifacts[m.uid].status, EffectiveGate(cl)));
    GoOn(ws, acts, w, Tick(t), ok);
    var w1, p := Next(w, Tick(t)), PassAt(m.uid, cl, t, false);
    LaunchRuns(w1, m, interval, k, cl);
    GoOn(ws + [w1], acts + [Tick(t)], w1, p, ok);
    ws', acts', w' := ws + [w1] + [Next(w1, p)], acts + [Tick(t)] + [p], Next(w1, p);
  }

  /** Any number of failures below the budget is reached, the next run being under way. */
  lemma {:induction false} FailsRepeatedly(m: Meta, interval: int, k: nat, cl: Class)
    returns (ws: seq<World>, acts: seq<Action>, w: World)
    requires cl.generator.Some? && k < EffectiveGate(cl).budget
    ensures Reaches(ws, acts, w, Reads(cl)) && Running(w, m, Producer(interval), k)
  {
    hide Reaches, AfterPass, EffectiveGate, RunName, Next;
    if k == 0 {
      ws, acts, w := Admission(m, Producer(interval), cl);
    } else {
      ws, acts, w := FailsRepeatedly(m, interval, k - 1, cl);
      var p := PassAt(m.uid, cl, w.now, true);
      ChargeWaits(w, m, interval, k - 1, cl);
      GoOn(ws, acts, w, p, Reads(cl));
      ws, acts, w := ws + [Next(w, p)], acts + [p], Next(w, p);
    }
    ws, acts, w := Relaunched(ws, acts, w, m, interval, k, cl);
  }

  // --------------------------------------------------------- lost wake-ups

  /** A run of the system under one class ends where a pass of `u` is asked for. */
  ghost predicate Asked(ws: seq<World>, acts: seq<Action>, u: Uid, c: Calls, interval: int, cl: Class) {
    && Execution(ws, acts) && Empty(ws[0]) && (forall i :: 0 <= i < |acts| ==> Reads(cl)(acts[i]))
    && var w := ws[|acts|];
       && u in w.artifacts && w.artifacts[u].spec.interval == interval
       && c.lookup == Found(cl) && c.now == w.now
  }

  /** The pass asked for there is not lost. */
  predicate Answered(ws: seq<World>, acts: seq<Action>, u: Uid, c: Calls, draw: Draw) {
    |acts| < |ws| && u in ws[|acts|].artifacts ==>
      Wakeful(CtxOf(ws[|acts|], u, c), ViewOf(ws[|acts|], u), draw)
  }

  /** An overflowed delay loses a wake-up: after enough failures, the pass that charges the next
      one asks for a negative requeue. */
  lemma OverflowSleeps(m: Meta, interval: int, cl: Class)
    returns (ws: seq<World>, acts: seq<Action>, c: Calls)
    requires cl.generator.Some? && Int64(EffectiveGate(cl).initial) && Int64(EffectiveGate(cl).max) && !InRange(cl)
    ensures Asked(ws, acts, m.uid, c, interval, cl) && !Answered(ws, acts, m.uid, c, 0.0)
  {
    hide EffectiveGate, StaysBelow, BackoffDelay, Wakeful, Running, Execution, Empty, Next;
    var g := EffectiveGate(cl);
    var f := SomeDelayIsNegative(g.budget, g.initial, g.max);
    var w;
    ws, acts, w := FailsRepeatedly(m, interval, f - 1, cl);
    c := Replies(cl, w.now, true);
    assert |ws| == |acts| + 1 by { Lengths(ws, acts); }
    ChargeSleeps(w, m, interval, f - 1, cl);
  }

  lemma ChargeSleeps(w: World, m: Meta, interval: int, k: nat, cl: Class)
    requires Running(w, m, Producer(interval), k) && cl.generator.Some? && k + 1 < EffectiveGate(cl).budget
    requires BackoffDelay(k + 1, EffectiveGate(cl).initial, EffectiveGate(cl).max) < 0
    ensures m.uid in w.artifacts && w.artifacts[m.uid].spec.interval == interval
    ensures !Wakeful(CtxOf(w, m.uid, Replies(cl, w.now, true)), ViewOf(w, m.uid), 0.0)
  {
    hide EffectiveGate, BackoffDelay, Fails, Failure, Arrived, Excused, Wait, Counted, Pass;
    RunningFails(w, m, interval, k, cl);
    var c := Replies(cl, w.now, true);
    ChargingPass(w, m.uid, c, cl);
    var x, a := CtxOf(w, m.uid, c), ViewOf(w, m.uid);
    ArrivedCounts(x, a);
    ArrivedPresent(x, a);
    ChargedSleeps(x, Arrived(x, a), EffectiveGate(cl));
  }

  function Sensor(interval: int): Spec {
    Spec(interval, false, None, None, false, true, "")
  }

  /** An interval of one nanosecond loses a wake-up: a sensor that finds nothing may jitter to
      no requeue. */
  lemma OneNanosecondSleeps(m: Meta, cl: Class) returns (ws: seq<World>, acts: seq<Action>, c: Calls)
    ensures Asked(ws, acts, m.uid, c, 1, cl) && !Answered(ws, acts, m.uid, c, 0.0)
  {
    hide Wakeful, Execution, Empty, Next;
    var w;
    ws, acts, w := Admission(m, Sensor(1), cl);
    c := Replies(cl, 0, false);
    assert |ws| == |acts| + 1 by { Lengths(ws, acts); }
    SensorSleeps(w, m, cl);
  }

  lemma SensorSleeps(w: World, m: Meta, cl: Class)
    requires m.uid in w.artifacts && w.artifacts[m.uid] == Artifact(m, Sensor(1), NEW_STATUS, true, false)
    requires w.objects == map[]
    ensures !Wakeful(CtxOf(w, m.uid, Replies(cl, 0, false)), ViewOf(w, m.uid), 0.0)
  {
    hide MissingPass, ExistingPass, ExpiredPass, DeletePass;
    var x, a := CtxOf(w, m.uid, Replies(cl, 0, false)), ViewOf(w, m.uid);
    var v := Address(x, Begin(a), "key");
    assert HonourRetry(x, Begin(a)) == Begin(a);
    assert Pass(x, a) == WithClass(x, Begin(a)) == Consult(x, v, cl, "key") == ObservedMissingPass(x, v);
    assert Jittered(1, 0.0) == (1.0 * 0.9).Floor == 0;
  }

  /** Exactly when no wake-up is lost in a reachable state under a class: the interval is not one
      nanosecond and, if the class generates, its doublings stay below 2^62 up to its budget. */
  lemma WakeUpsExactly(interval: int, cl: Class)
    requires Int64(EffectiveGate(cl).initial) && Int64(EffectiveGate(cl).max)
    ensures Ticks(interval, cl) <==>
            forall ws: seq<World>, acts: seq<Action>, u: Uid, c: Calls, draw: Draw ::
              Asked(ws, acts, u, c, interval, cl) ==> Answered(ws, acts, u, c, draw)
  {
    hide InRange, EffectiveGate, Wakeful, Execution, Empty, Reads;
    if Ticks(interval, cl) {
      forall ws: seq<World>, acts: seq<Action>, u: Uid, c: Calls, draw: Draw | Asked(ws, acts, u, c, interval, cl)
        ensures Answered(ws, acts, u, c, draw)
      {
        assert |ws| == |acts| + 1 by { Lengths(ws, acts); }
        NoLostWakeUps(CtxOf(ws[|acts|], u, c), ViewOf(ws[|acts|], u), draw);
      }
    } else if interval == 1 {
      var ws, acts, c := OneNanosecondSleeps(Meta(1, "a", 0, "h"), cl);
    } else {
      var ws, acts, c := OverflowSleeps(Meta(1, "a", 0, "h"), interval, cl);
    }
  }

  // ------------------------------------------------------ deleting twice over

  function Expiring(deleteAfter: int): Spec {
    Spec(0, false, None, Some(deleteAfter), false, false, "")
  }

  /** The Artifact is there, past its age, and the store allows deletes. */
  predicate Aged(w: World, m: Meta, sp: Spec) {
    && m.uid in w.artifacts && m.uid in w.ledgers && !w.refusing
    && var a := w.artifacts[m.uid];
       a.meta == m && a.spec == sp && a.finalizer && !a.deleting
  }

  lemma AgedRetires(w: World, m: Meta, age: int, cl: Class)
    requires Aged(w, m, Expiring(age)) && age > 0 && m.createdAt + age <= w.now
    ensures Retires(CtxOf(w, m.uid, Replies(cl, w.now, false)), ViewOf(w, m.uid), cl)
  {
  }

  lemma RetireLeaves(w: World, m: Meta, age: int, cl: Class)
    requires Aged(w, m, Expiring(age)) && age > 0 && m.createdAt + age <= w.now
    ensures var w' := Next(w, PassAt(m.uid, cl, w.now, false)); Aged(w', m, Expiring(age)) && w'.now == w.now
  {
    hide AfterPass, OutcomeOf, Retires, Recorded, TruncateOpt;
    var c := Replies(cl, w.now, false);
    AgedRetires(w, m, age, cl);
    RetiringPass(CtxOf(w, m.uid, c), ViewOf(w, m.uid), cl);
    OutcomeIsPass(w, m.uid, c);
    AfterPassFacts(w, m.uid, c, true, 0.5);
    Stays(w, m.uid, c, true, 0.5);
  }

  /** Past its age, with an object of its own at the key. */
  lemma AgedReached(m: Meta, age: int, cl: Class, o: Object)
    returns (ws: seq<World>, acts: seq<Action>, w: World)
    ensures Reaches(ws, acts, w, Reads(cl)) && Aged(w, m, Expiring(age)) && m.createdAt + age <= w.now
    ensures "key" in w.objects && w.objects["key"] == o
  {
    hide Reaches, AfterPass;
    var ok, t := Reads(cl), Max(0, m.createdAt + age);
    ws, acts, w := Admission(m, Expiring(age), cl);
    var a1, a2 := Upload("key", o, Stranger), Tick(t);
    GoOn(ws, acts, w, a1, ok);
    GoOn(ws + [Next(w, a1)], acts + [a1], Next(w, a1), a2, ok);
    ws, acts, w := ws + [Next(w, a1)] + [Next(Next(w, a1), a2)], acts + [a1] + [a2], Next(Next(w, a1), a2);
  }

  /** Deleting after expiry really happens twice: for any Artifact, age limit and class, and any
      two objects of its own, a run in which the first is deleted, then the second is uploaded
      and deleted too, the status being Expired already. */
  lemma ExpiryDeletesTwice(m: Meta, age: int, cl: Class, o: Object, o': Object)
    returns (ws: seq<World>, acts: seq<Action>, n: nat)
    requires age > 0 && Own(o, cl.stampKey, m.identityHash) && Own(o', cl.stampKey, m.identityHash)
    ensures Execution(ws, acts) && Empty(ws[0]) && n + 3 == |acts|
    ensures acts[n].Reconcile? && acts[n + 1] == Upload("key", o', Stranger) && acts[n + 2].Reconcile?
    ensures "key" in ws[n].objects && "key" !in ws[n + 1].objects
    ensures "key" in ws[n + 2].objects && "key" !in ws[n + 3].objects
    ensures m.uid in ws[n + 2].artifacts && ws[n + 2].artifacts[m.uid].status.state == StateExpired
  {
    hide Own, Next, Execution, Empty, Expiring;
    var w, ok := START, Reads(cl);
    ws, acts, w := AgedReached(m, age, cl, o);
    n := |acts|;
    assert |ws| == n + 1 by { Lengths(ws, acts); }
    var p, a := PassAt(m.uid, cl, w.now, false), Upload("key", o', Stranger);
    var w1, w2, w3 := Next(w, p), Next(Next(w, p), a), Next(Next(Next(w, p), a), p);
    RetireLeaves(w, m, age, cl);
    Uploaded(w1, m, Expiring(age), o');
    GoOn(ws, acts, w, p, ok);
    GoOn(ws + [w1], acts + [p], w1, a, ok);
    GoOn(ws + [w1] + [w2], acts + [p] + [a], w2, p, ok);
    ws, acts := ws + [w1] + [w2] + [w3], acts + [p] + [a] + [p];
    assert ws[n] == w && ws[n + 1] == w1 && ws[n + 2] == w2 && ws[n + 3] == w3;
    AgedRetires(w, m, age, cl);
    AgedRetires(w2, m, age, cl);
    ExpiryDeletesAgain(ws, acts, n, m.uid, cl, cl);
  }

  lemma Uploaded(w: World, m: Meta, sp: Spec, o: Object)
    requires Aged(w, m, sp)
    ensures var w' := Next(w, Upload("key", o, Stranger)); Aged(w', m, sp) && w'.now == w.now
  {
  }
}
