/**
 No lost wake-ups: which passes ask for no further pass, and what a requeue finds when it
 fires.
 */
module Wakeups {
  import opened Api
  import opened Delays
  import opened Journal
  import opened Passes
  import opened PassFacts
  import opened Safety
  import opened Convergence

  /** The reasons a pass may end without asking for another: suspended, a template error,
      the TTL deletion, expiry without a TTL, deletion done. */
  predicate Excused(x: Ctx, o: Outcome) {
    || (x.sp.suspend && o.view.status.state == StateSuspended)
    || ((x.c.key.None? || x.c.runKind.None?) && o.view.status.cond.stalled == MarkTrue(TemplateError))
    || (Reached(x.sp.ttl, Age(x)) && o.view.deleting)
    || (Reached(x.sp.deleteAfter, Age(x)) && !(x.sp.ttl.Some? && x.sp.ttl.value > 0)
        && o.view.status.state == StateExpired)
    || !o.view.finalizer
  }

  /** An error, a requeue that is positive for every draw of the jitter, or an excuse. */
  predicate Wakes(x: Ctx, o: Outcome) {
    match o.result
    case Error => true
    case After(d) => d > 0
    case AfterAbout(d) => d >= 2
    case Done => Excused(x, o)
  }

  /** No doubling the class can ask for leaves the 64-bit range before the cap stops it. */
  ghost predicate InRange(cl: Class) {
    StaysBelow(EffectiveGate(cl).budget, EffectiveGate(cl).initial, EffectiveGate(cl).max)
  }

  /** The settings under which no wake-up is lost: the interval is not one nanosecond, and a
      class that generates keeps its delays in range. */
  ghost predicate Ticks(interval: int, cl: Class) {
    interval != 1 && (cl.generator.Some? ==> InRange(cl))
  }

  /** A class whose doubling never reaches 2^62 below the cap is in range, whatever its budget. */
  lemma WorkingRangeTicks(cl: Class)
    requires Doubles(EffectiveGate(cl).initial, EffectiveGate(cl).max)
    ensures InRange(cl)
  {
    hide EffectiveGate;
  }

  lemma FailureWakes(x: Ctx, v: View, cl: Class, reason: Reason, cause: Cause)
    requires InRange(cl) && x.sp.Interval() >= 2
    ensures Wakes(x, Failure(x, v, EffectiveGate(cl), reason, cause))
  {
    hide EffectiveGate, BackoffDelay, Excused, StaysBelow;
    var g := EffectiveGate(cl);
    if v.status.failed + 1 < g.budget {
      DelayIsPositive(g.budget, g.initial, g.max, v.status.failed + 1);
    }
  }

  lemma EvaluateWakes(x: Ctx, v: View, cl: Class, ref: RunRef, run: Run)
    requires InRange(cl) && x.sp.Interval() >= 2
    ensures Wakes(x, Evaluate(x, v, cl, ref, run))
  {
    hide Ticks, Failure, EffectiveGate, Excused, RunStart, NoteSuccess;
    if x.c.failedWhen {
      FailureWakes(x, v, cl, GeneratorFailed, ReportedFailure);
    } else if x.c.succeededWhen {
      FailureWakes(x, NoteSuccess(x, v), cl, SucceededWithoutArtifact, NoArtifact);
    } else {
      FailureWakes(x, v.(runs := if x.c.runDeleteOk then v.runs - {ref} else v.runs), cl, ProgressDeadlineExceeded,
                   Deadline(x.c.runDeleteOk));
    }
  }

  lemma ProduceWakes(x: Ctx, v: View, cl: Class)
    requires Ticks(x.sp.interval, cl) && x.c.lookup == Found(cl)
    ensures Wakes(x, Produce(x, v, cl))
  {
    hide InRange, Evaluate, EffectiveGate, Start, Adopt, Cancel, Names.RunName;
    if cl.generator.Some? && v.status.ref.Some? && v.status.ref.value in v.runs {
      EvaluateWakes(x, v, cl, v.status.ref.value, v.runs[v.status.ref.value]);
    }
  }

  lemma ConsultWakes(x: Ctx, v: View, cl: Class, key: string)
    requires Ticks(x.sp.interval, cl) && x.c.lookup == Found(cl)
    ensures Wakes(x, Consult(x, v, cl, key))
  {
    hide InRange, Produce, Blank, Own, Drifts, RecordDrift, Rebaseline, Excused;
    ProduceWakes(x, Blank(v), cl);
    if key in v.objects {
      var w := RecordDrift(v, cl, v.objects[key]);
      ProduceWakes(x, Blank(w.With(w.status.(digest := ""))), cl);
    }
  }

  lemma WithKeyWakes(x: Ctx, v: View, cl: Class, key: string)
    requires Ticks(x.sp.interval, cl) && x.c.lookup == Found(cl)
    ensures Wakes(x, WithKey(x, v, cl, key))
  {
    hide Ticks, Consult, Own;
    ConsultWakes(x, v, cl, key);
  }

  lemma WithClassWakes(x: Ctx, v: View)
    requires x.c.lookup.Found? ==> Ticks(x.sp.interval, x.c.lookup.def)
    ensures Wakes(x, WithClass(x, v))
  {
    hide Ticks, WithKey, Address;
    if x.c.lookup.Found? && x.c.key.Some? {
      WithKeyWakes(x, Address(x, v, x.c.key.value), x.c.lookup.def, x.c.key.value);
    }
  }

  /** The pass returns an error, a positive requeue, or an excuse. */
  predicate Wakeful(x: Ctx, a: View, draw: Draw) {
    var o := Pass(x, a);
    o.result.Error? || Wait(o.result, draw) > 0 || Excused(x, o)
  }

  /** No lost wake-ups: unless it is suspended, blocked on a template, done with a TTL or a
      deletion, or expired without a TTL, every pass returns an error or a requeue that is
      positive whatever the jitter draws. */
  lemma NoLostWakeUps(x: Ctx, a: View, draw: Draw)
    requires x.c.lookup.Found? ==> Ticks(x.sp.interval, x.c.lookup.def)
    ensures Wakeful(x, a, draw)
  {
    hide Pass, Excused, Ticks;
    PassWakes(x, a);
  }

  lemma ArrivedPresent(x: Ctx, a: View)
    requires x.c.key.Some?
    ensures Arrived(x, a).finalizer == a.finalizer && Arrived(x, a).deleting == a.deleting
  {
    hide HonourRetry;
    HonourHolds(x, Begin(a));
  }

  lemma ChargedSleeps(x: Ctx, v: View, g: Gate)
    requires v.status.failed + 1 < g.budget && BackoffDelay(v.status.failed + 1, g.initial, g.max) <= 0
    requires v.finalizer && !x.sp.suspend && x.sp.ttl.None? && x.sp.deleteAfter.None?
    ensures var o := Failure(x, v, g, GeneratorFailed, ReportedFailure);
            !o.result.Error? && Wait(o.result, 0.0) <= 0 && !Excused(x, o)
  {
    hide BackoffDelay;
  }

  lemma PassWakes(x: Ctx, a: View)
    requires x.c.lookup.Found? ==> Ticks(x.sp.interval, x.c.lookup.def)
    ensures Wakes(x, Pass(x, a))
  {
    hide Ticks, DeletePass, ReconcilePass, Excused;
    if a.deleting {
      DeleteWakes(x, a);
    } else if a.finalizer {
      ReconcileWakes(x, a);
    }
  }

  lemma DeleteWakes(x: Ctx, a: View)
    ensures Wakes(x, DeletePass(x, a))
  {
    hide Own, Block;
  }

  lemma ReconcileWakes(x: Ctx, a: View)
    requires x.c.lookup.Found? ==> Ticks(x.sp.interval, x.c.lookup.def)
    ensures Wakes(x, ReconcilePass(x, a))
  {
    hide Ticks, WithClass, HonourRetry, Begin, Cancel, Reached;
    var w := HonourRetry(x, Begin(a));
    WithClassWakes(x, w);
    if w.status.ref.Some? { WithClassWakes(x, Cancel(w)); }
  }

  // ------------------------------------------------------ gates do not block twice

  /** Waking at the backoff gate's requeue finds the gate open. */
  lemma BackoffGateOpens(x: Ctx, v: View, cl: Class, later: int)
    requires cl.generator.Some? && v.status.failed < EffectiveGate(cl).budget && v.status.ref.None?
    requires !GateOpen(TrackerOf(v.status), x.c.now, EffectiveGate(cl)) && Persist(v.status) == v.status
    ensures var o := Produce(x, v, cl);
            && o.result.After?
            && (x.c.now + o.result.delay <= later ==>
                  GateOpen(TrackerOf(Persist(o.view.status)), later, EffectiveGate(cl)))
  {
    hide EffectiveGate, BackoffDelay, CreateRun, InFlight, NoGenerator;
  }

  /** Waking at the requeue of a charged attempt finds the gate open. */
  lemma ChargeGateOpens(x: Ctx, v: View, g: Gate, reason: Reason, cause: Cause, later: int)
    requires v.status.failed + 1 < g.budget
    ensures var o := Failure(x, v, g, reason, cause);
            && o.result.After?
            && (x.c.now + o.result.delay <= later ==> GateOpen(TrackerOf(Persist(o.view.status)), later, g))
  {
    hide BackoffDelay;
  }

  /** The last requeue of the grace window, shorter than the ten-second poll, ends it. */
  lemma GraceWindowEnds(x: Ctx, v: View, cl: Class, later: int)
    requires v.status.succeededAt.Some?
    requires var rest := cl.GracePeriod() - (x.c.now - v.status.succeededAt.value); 0 < rest < 10 * SECOND
    ensures var o := Await(x, v, cl);
            && o.result.After? && o.view.status.succeededAt == v.status.succeededAt
            && (x.c.now + o.result.delay <= later ==>
                  later - Persist(o.view.status).succeededAt.value >= cl.GracePeriod())
  {
    hide EffectiveGate, Failure;
  }

  /** An expired Artifact with a TTL still has time left, so the one-second fallback is dead
      code, and its requeue fires with the TTL reached. */
  lemma ExpiryWaitsForTtl(x: Ctx, later: int)
    requires !Reached(x.sp.ttl, Age(x)) && x.sp.ttl.Some? && x.sp.ttl.value > 0
    ensures x.sp.ttl.value - Age(x) > 0
    ensures AfterExpiry(x) == After(x.sp.ttl.value - Age(x) + SECOND)
    ensures x.c.now + AfterExpiry(x).delay <= later ==> Reached(x.sp.ttl, Age(x.(c := x.c.(now := later))))
  {
  }

  // ------------------------------------------------------- two passes in a row

  /** The view the next pass starts from when the patch landed and nothing else moved. */
  function Reread(v: View): View {
    v.With(Persist(v.status)).(journal := [])
  }

  /** Reaching the store changes none of the counters. */
  lemma ArrivedCounts(x: Ctx, a: View)
    requires x.c.key.Some? && NoRetry(x, a.status)
    ensures var v := Arrived(x, a);
            && v.runs == a.runs && v.status.failed == a.status.failed && v.status.lastFailure == a.status.lastFailure
            && v.status.ref == a.status.ref && v.status.succeededAt == a.status.succeededAt
  {
    assert HonourRetry(x, Begin(a)) == Begin(a);
  }

  lemma GateReads(st: Status, st': Status, now: int, g: Gate)
    requires st'.failed == st.failed && st'.lastFailure == st.lastFailure
    ensures GateOpen(TrackerOf(st'), now, g) <==> GateOpen(TrackerOf(st), now, g)
  {
    hide BackoffDelay;
  }

  lemma GateKeepsCounters(x: Ctx, v: View, cl: Class)
    requires cl.generator.Some? && v.status.failed < EffectiveGate(cl).budget && v.status.ref.None?
    requires !GateOpen(TrackerOf(v.status), x.c.now, EffectiveGate(cl))
    ensures var st := Persist(Produce(x, v, cl).view.status); st.failed == v.status.failed && st.ref.None?
  {
    hide EffectiveGate, BackoffDelay, CreateRun, InFlight, NoGenerator;
  }

  /** The backoff gate never blocks twice: a searching pass that waits at the gate, followed by
      one at its requeue time, goes on to create the run. */
  lemma GateBlocksOnce(x: Ctx, a: View, x': Ctx, cl: Class)
    requires Searches(x, a, cl) && NoRetry(x, a.status) && Coherent(a.status) && Persist(a.status) == a.status
    requires cl.generator.Some? && a.status.failed < EffectiveGate(cl).budget && a.status.ref.None?
    requires !GateOpen(TrackerOf(a.status), x.c.now, EffectiveGate(cl))
    requires var o := Pass(x, a);
             Searches(x', Reread(o.view), cl) && NoRetry(x', Reread(o.view).status)
             && (o.result.After? ==> x.c.now + o.result.delay <= x'.c.now)
    ensures Pass(x, a).result.After?
    ensures x'.c.key.Some? && Pass(x', Reread(Pass(x, a).view)) ==
            CreateRun(x', Arrived(x', Reread(Pass(x, a).view)), cl)
  {
    hide Pass, Searches, NoRetry, Coherent, Arrived, EffectiveGate, GateOpen, CreateRun, InFlight, NoGenerator,
         BackoffDelay, TruncateOpt;
    ArrivedPass(x, a, cl);
    ArrivedSame(x, a);
    var v, g := Arrived(x, a), EffectiveGate(cl);
    GateReads(a.status, v.status, x.c.now, g);
    BackoffGateOpens(x, v, cl, x'.c.now);
    GateKeepsCounters(x, v, cl);
    SecondPassCreates(x', Reread(Pass(x, a).view), cl);
  }

  lemma SecondPassCreates(x: Ctx, a: View, cl: Class)
    requires Searches(x, a, cl) && NoRetry(x, a.status) && cl.generator.Some?
    requires a.status.failed < EffectiveGate(cl).budget && a.status.ref.None?
    requires GateOpen(TrackerOf(a.status), x.c.now, EffectiveGate(cl))
    ensures x.c.key.Some? && Pass(x, a) == CreateRun(x, Arrived(x, a), cl)
  {
    hide Pass, Searches, NoRetry, Arrived, EffectiveGate, GateOpen, CreateRun, InFlight, NoGenerator, BackoffDelay;
    ArrivedPass(x, a, cl);
    ArrivedCounts(x, a);
    GateReads(a.status, Arrived(x, a).status, x.c.now, EffectiveGate(cl));
  }

  /** The tracked run reads as succeeded. */
  predicate Succeeds(x: Ctx, a: View) {
    a.status.ref.Some? && a.status.ref.value in a.runs && x.c.runGetOk && !x.c.failedWhen && x.c.succeededWhen
  }

  lemma SucceedingPass(x: Ctx, a: View, cl: Class)
    requires Searches(x, a, cl) && NoRetry(x, a.status) && Succeeds(x, a)
    requires cl.generator.Some? && a.status.failed < EffectiveGate(cl).budget
    ensures x.c.key.Some? && Pass(x, a) == Await(x, NoteSuccess(x, Arrived(x, a)), cl)
  {
    hide Pass, Searches, NoRetry, Arrived, EffectiveGate, GateOpen, CreateRun, Await, NoteSuccess, NoGenerator,
         BackoffDelay;
    ArrivedPass(x, a, cl);
    ArrivedCounts(x, a);
  }

  /** How long the grace window still lasts in the pass at hand. */
  function GraceLeft(x: Ctx, a: View, cl: Class): int {
    cl.GracePeriod() - (if a.status.succeededAt.Some? then x.c.now - a.status.succeededAt.value else 0)
  }

  lemma WaitingKeeps(x: Ctx, v: View, cl: Class)
    requires v.status.succeededAt.Some? && 0 < cl.GracePeriod() - (x.c.now - v.status.succeededAt.value) < 10 * SECOND
    ensures var o := Await(x, v, cl);
            && o.result.After? && o.result.delay == cl.GracePeriod() - (x.c.now - v.status.succeededAt.value) + SECOND
            && o.view.runs == v.runs && o.view.status.ref == v.status.ref && o.view.status.failed == v.status.failed
            && o.view.status.succeededAt == v.status.succeededAt
  {
    hide Failure, EffectiveGate;
  }

  lemma NoteDates(x: Ctx, v: View)
    ensures NoteSuccess(x, v).status.succeededAt ==
            Some(if v.status.succeededAt.Some? then v.status.succeededAt.value else x.c.now)
  {
  }

  lemma OverdueIsCharged(x: Ctx, v: View, cl: Class)
    requires v.status.succeededAt.Some? && cl.GracePeriod() <= x.c.now - v.status.succeededAt.value
    ensures var o := Await(x, v, cl); o.view.status.ref.None? && o.view.status.failed == v.status.failed + 1
  {
    hide Failure, EffectiveGate;
    FailureJudges(x, v, EffectiveGate(cl), SucceededWithoutArtifact, NoArtifact);
  }

  /** The grace window's last wait is the last: the pass at its requeue time, if it still finds
      nothing, charges the attempt. */
  lemma GraceBlocksOnce(x: Ctx, a: View, x': Ctx, cl: Class)
    requires Searches(x, a, cl) && NoRetry(x, a.status) && Succeeds(x, a)
    requires cl.generator.Some? && a.status.failed < EffectiveGate(cl).budget && 0 < GraceLeft(x, a, cl) < 10 * SECOND
    requires var o, a' := Pass(x, a), Reread(Pass(x, a).view);
             Searches(x', a', cl) && NoRetry(x', a'.status) && Succeeds(x', a')
             && (o.result.After? ==> x.c.now + o.result.delay <= x'.c.now)
    ensures Pass(x, a).result.After? && Pass(x, a).view.status.ref == a.status.ref
    ensures var st := Pass(x', Reread(Pass(x, a).view)).view.status; st.ref.None? && st.failed == a.status.failed + 1
  {
    hide Pass, Searches, NoRetry, Succeeds, Arrived, EffectiveGate, Await, NoteSuccess;
    SucceedingPass(x, a, cl);
    ArrivedCounts(x, a);
    var w := NoteSuccess(x, Arrived(x, a));
    NoteDates(x, Arrived(x, a));
    NoteKeeps(x, Arrived(x, a));
    WaitingKeeps(x, w, cl);
    var a' := Reread(Pass(x, a).view);
    SucceedingPass(x', a', cl);
    ArrivedCounts(x', a');
    NoteDates(x', Arrived(x', a'));
    NoteKeeps(x', Arrived(x', a'));
    OverdueIsCharged(x', NoteSuccess(x', Arrived(x', a')), cl);
  }

  /** A retiring pass whose TTL is still ahead. */
  predicate Expires(x: Ctx, a: View, cl: Class) {
    Retires(x, a, cl) && x.sp.ttl.Some? && 0 < x.sp.ttl.value
  }

  /** The expired wait never repeats: waking at its requeue deletes the Artifact. */
  lemma ExpiryBlocksOnce(x: Ctx, a: View, x': Ctx, cl: Class)
    requires Expires(x, a, cl) && x'.m == x.m && x'.sp == x.sp
    requires x'.c.lookup.Found? && x'.c.key.Some? && x'.c.crDeleteOk
    requires Pass(x, a).result.After? ==> x.c.now + Pass(x, a).result.delay <= x'.c.now
    ensures Pass(x, a).result.After?
    ensures Pass(x', Reread(Pass(x, a).view)).view.deleting
  {
    hide Pass, Reached, AfterExpiry;
    RetiringPass(x, a, cl);
    ExpiryWaitsForTtl(x, x'.c.now);
    TtlDeletes(x', Reread(Pass(x, a).view));
  }

  lemma TtlDeletes(x: Ctx, a: View)
    requires !a.deleting && a.finalizer && !x.sp.suspend && !x.sp.observe && Reached(x.sp.ttl, Age(x))
    requires x.c.lookup.Found? && x.c.key.Some? && x.c.crDeleteOk
    ensures Pass(x, a).view.deleting
  {
    hide HonourRetry, Begin, Consult, ExpiredPass, DeletePass, Reached, Address;
    var w := HonourRetry(x, Begin(a));
    assert Pass(x, a) == WithClass(x, w);
  }
}
