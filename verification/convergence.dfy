/**
 Bounded convergence: an artifact that never appears exhausts its failure budget within a
 number of passes fixed by the class, even if the run's reported status flaps.
 */
module Convergence {
  import opened Api
  import opened Delays
  import opened Journal
  import opened Names
  import opened Passes
  import opened PassFacts
  import opened Worlds
  import opened History
  import opened Accounting
  import opened CrashSafety
  import opened Drift
  import opened Safety

  // -------------------------------------------------------------- the measure

  /** Whole seconds that cover a duration; 0 when it has passed. */
  function Seconds(d: int): nat {
    if d <= 0 then 0 else (d + SECOND - 1) / SECOND
  }

  lemma SecondsDrop(d: int, e: int)
    ensures e <= d ==> Seconds(e) <= Seconds(d)
    ensures d > 0 && e <= d - SECOND ==> Seconds(e) <= Seconds(d) - 1
  {
  }

  function Max(x: int, y: int): int { if x >= y then x else y }

  /** Passes one run may take: until its deadline, then through one grace window. */
  function RunCost(cl: Class): nat {
    Seconds(cl.ProgressDeadline() + 1) + Seconds(cl.GracePeriod()) + 2
  }

  /** Passes left for the current attempt, seen at time `clock`, if its run began at `start`. */
  function Cost(st: Status, start: int, clock: int, cl: Class): nat {
    if st.ref.None? then RunCost(cl) + (if GateOpen(TrackerOf(st), clock, EffectiveGate(cl)) then 1 else 2)
    else if st.succeededAt.None? then Seconds(start + cl.ProgressDeadline() + 1 - clock) + Seconds(cl.GracePeriod()) + 2
    else Seconds(Max(start + cl.ProgressDeadline() + 1 - clock, st.succeededAt.value + cl.GracePeriod() - clock)) + 1
  }

  function Times(n: nat, k: nat): nat {
    if n == 0 then 0 else k + Times(n - 1, k)
  }

  /** Passes left before the budget is exhausted. */
  function Measure(st: Status, start: int, clock: int, cl: Class): nat {
    var budget := EffectiveGate(cl).budget;
    if st.failed >= budget then 0
    else Times(budget - st.failed - 1, RunCost(cl) + 3) + Cost(st, start, clock, cl)
  }

  lemma CostBounded(st: Status, start: int, clock: int, cl: Class)
    requires st.ref.Some? ==> start <= clock && (st.succeededAt.Some? ==> st.succeededAt.value <= clock)
    ensures 1 <= Cost(st, start, clock, cl) <= RunCost(cl) + 2
  {
    hide EffectiveGate, GateOpen;
    var d, g := cl.ProgressDeadline() + 1, cl.GracePeriod();
    if st.ref.Some? { SecondsDrop(d, start + d - clock); }
    if st.ref.Some? && st.succeededAt.Some? {
      SecondsDrop(g, st.succeededAt.value + g - clock);
    }
  }

  /** Time passing never adds passes. */
  lemma MeasureMonotone(st: Status, start: int, clock: int, later: int, cl: Class)
    requires clock <= later
    ensures Measure(st, start, later, cl) <= Measure(st, start, clock, cl)
  {
    hide EffectiveGate, BackoffDelay;
    var d := start + cl.ProgressDeadline() + 1;
    SecondsDrop(d - clock, d - later);
    if st.succeededAt.Some? {
      SecondsDrop(Max(d - clock, st.succeededAt.value + cl.GracePeriod() - clock),
                  Max(d - later, st.succeededAt.value + cl.GracePeriod() - later));
    }
  }

  // ------------------------------------------------------ one pass makes progress

  /** The status is booked, the artifact is missing, the budget is not spent. */
  predicate Pending(v: View, cl: Class) {
    && cl.generator.Some? && cl.ProgressDeadline() > 0 && v.status.failed < EffectiveGate(cl).budget
    && Coherent(v.status) && Persist(v.status) == v.status
  }

  lemma ChargeProgress(x: Ctx, v: View, cl: Class, reason: Reason, cause: Cause, start: int, start': int, due: int)
    requires Pending(v, cl) && v.status.ref.Some?
    requires var o := Failure(x, v, EffectiveGate(cl), reason, cause);
             o.result.After? ==> due == x.c.now + o.result.delay
    requires start <= x.c.now && (v.status.succeededAt.Some? ==> v.status.succeededAt.value <= x.c.now)
    ensures Measure(Persist(Failure(x, v, EffectiveGate(cl), reason, cause).view.status), start', due, cl) <
            Measure(v.status, start, x.c.now, cl)
  {
    hide BackoffDelay, Coherent, EffectiveGate, Seconds, RunCost;
    CostBounded(v.status, start, x.c.now, cl);
    var g := EffectiveGate(cl);
    var st' := Persist(Failure(x, v, g, reason, cause).view.status);
    if v.status.failed + 1 < g.budget {
      assert GateOpen(TrackerOf(st'), due, g);
    }
  }

  /** Same attempt, same failures: only the cost of the attempt matters. */
  lemma SameAttempt(st: Status, st': Status, start: int, clock: int, start': int, due: int, cl: Class)
    requires st'.failed == st.failed && Cost(st', start', due, cl) < Cost(st, start, clock, cl)
    requires st.failed < EffectiveGate(cl).budget
    ensures Measure(st', start', due, cl) < Measure(st, start, clock, cl)
  {
    hide EffectiveGate, Cost, Seconds, RunCost, Times;
  }

  /** Waiting a second or more within a deadline or grace window that is still open. */
  lemma WaitProgress(st: Status, st': Status, start: int, now: int, due: int, cl: Class)
    requires st.ref.Some? && st'.ref == st.ref && st'.failed == st.failed && st.failed < EffectiveGate(cl).budget
    requires due >= now + SECOND
    requires || (st'.succeededAt == st.succeededAt
                 && (|| start + cl.ProgressDeadline() + 1 - now > 0
                     || (st.succeededAt.Some? && st.succeededAt.value + cl.GracePeriod() - now > 0)))
             || (st.succeededAt.None? && st'.succeededAt == Some(Truncate(now)))
    ensures Measure(st', start, due, cl) < Measure(st, start, now, cl)
  {
    hide EffectiveGate, GateOpen;
    var d, g := start + cl.ProgressDeadline() + 1, cl.GracePeriod();
    SecondsDrop(d - now, d - due);
    if st.succeededAt.None? && st'.succeededAt.Some? {
      SecondsDrop(g, Truncate(now) + g - due);
    } else if st.succeededAt.Some? {
      SecondsDrop(Max(d - now, st.succeededAt.value + g - now), Max(d - due, st.succeededAt.value + g - due));
    }
    SameAttempt(st, st', start, now, start, due, cl);
  }

  lemma SuccessProgress(x: Ctx, v: View, cl: Class, start: int, start': int, due: int)
    requires Pending(v, cl) && v.status.ref.Some? && start <= x.c.now
    requires v.status.succeededAt.Some? ==> v.status.succeededAt.value <= x.c.now
    requires var o := Await(x, NoteSuccess(x, v), cl);
             (o.result.After? ==> due == x.c.now + o.result.delay) && (o.view.status.ref.Some? ==> start' == start)
    ensures Measure(Persist(Await(x, NoteSuccess(x, v), cl).view.status), start', due, cl) <
            Measure(v.status, start, x.c.now, cl)
  {
    hide Measure, Failure, EffectiveGate;
    var w := NoteSuccess(x, v);
    if cl.GracePeriod() - (x.c.now - w.status.succeededAt.value) > 0 {
      WaitProgress(v.status, Persist(Await(x, w, cl).view.status), start, x.c.now, due, cl);
    } else {
      ChargeProgress(x, v, cl, SucceededWithoutArtifact, NoArtifact, start, start', due);
    }
  }

  /** Judging a tracked run makes progress however its status reads. */
  lemma EvaluateProgress(x: Ctx, v: View, cl: Class, ref: RunRef, run: Run, draw: Draw, start': int)
    requires Pending(v, cl) && v.status.ref == Some(ref) && run.started.Some? && run.started.value <= x.c.now
    requires v.status.succeededAt.Some? ==> v.status.succeededAt.value <= x.c.now
    requires Evaluate(x, v, cl, ref, run).view.status.ref.Some? ==> start' == run.started.value
    ensures var o := Evaluate(x, v, cl, ref, run);
            Measure(Persist(o.view.status), start', x.c.now + Wait(o.result, draw), cl) <
            Measure(v.status, run.started.value, x.c.now, cl)
  {
    hide Measure, Failure, EffectiveGate;
    var o, start := Evaluate(x, v, cl, ref, run), run.started.value;
    var due := x.c.now + Wait(o.result, draw);
    if x.c.failedWhen {
      ChargeProgress(x, v, cl, GeneratorFailed, ReportedFailure, start, start', due);
    } else if x.c.succeededWhen {
      SuccessProgress(x, v, cl, start, start', due);
    } else if cl.ProgressDeadline() < x.c.now - start {
      var w := v.(runs := if x.c.runDeleteOk then v.runs - {ref} else v.runs);
      ChargeProgress(x, w, cl, ProgressDeadlineExceeded, Deadline(x.c.runDeleteOk), start, start', due);
    } else {
      WaitProgress(v.status, Persist(o.view.status), start, x.c.now, due, cl);
    }
  }

  /** When the tracked run of a view began. */
  function StartIn(v: View): int {
    if v.status.ref.Some? && v.status.ref.value in v.runs && v.runs[v.status.ref.value].started.Some?
    then v.runs[v.status.ref.value].started.value else 0
  }

  /** Every call of the pass succeeds, the tracked run is there, and no stranger holds the
      next run's name. */
  predicate Smooth(x: Ctx, v: View) {
    && x.c.runGetOk && x.c.ownerRefOk && x.c.createOk && x.c.existingGetOk && x.c.runKind.Some?
    && (v.status.ref.Some? ==> v.status.ref.value in v.runs && Begun(v.runs[v.status.ref.value], x.c.now))
    && (var r := RunRef(x.c.runKind.value, RunName(x.m, v.status.attempts + 1));
        r in v.runs ==> v.runs[r].owner == Some(x.m.uid) && Begun(v.runs[r], x.c.now))
  }

  predicate Begun(run: Run, now: int) {
    run.started.Some? && run.started.value <= now
  }

  /** A created or adopted run is tracked, and has begun. */
  lemma CreateTracks(x: Ctx, v: View, cl: Class)
    requires Coherent(v.status) && Smooth(x, v) && v.status.ref.None?
    ensures var o := CreateRun(x, v, cl);
            && o.view.status.ref.Some? && o.view.status.succeededAt.None? && o.view.status.failed == v.status.failed
            && o.view.status.ref.value in o.view.runs
            && StartIn(o.view) <= x.c.now && (o.result == After(SECOND) || o.result == AfterAbout(30 * SECOND))
  {
    hide EffectiveGate, RunName;
    var ref := RunRef(x.c.runKind.value, RunName(x.m, v.status.attempts + 1));
    if ref in v.runs {
      assert CreateRun(x, v, cl).view == Adopt(x, v, cl, ref);
    } else {
      assert CreateRun(x, v, cl).view == Start(x, v, cl, ref).Progress(Generating, Generating).In(StateGenerating);
    }
  }

  lemma CreateProgress(x: Ctx, v: View, cl: Class, draw: Draw)
    requires Pending(v, cl) && Smooth(x, v) && v.status.ref.None?
    ensures var o := CreateRun(x, v, cl);
            Measure(Persist(o.view.status), StartIn(o.view), x.c.now + Wait(o.result, draw), cl) <
            Measure(v.status, StartIn(v), x.c.now, cl)
  {
    hide EffectiveGate, RunName, Measure, GateOpen, Seconds, CreateRun, StartIn, Coherent, Smooth;
    CreateTracks(x, v, cl);
    var o := CreateRun(x, v, cl);
    var due, d := x.c.now + Wait(o.result, draw), cl.ProgressDeadline() + 1;
    var st', start' := Persist(o.view.status), StartIn(o.view);
    SecondsDrop(d, start' + d - due);
    SameAttempt(v.status, st', StartIn(v), x.c.now, start', due, cl);
  }

  lemma GateProgress(x: Ctx, v: View, cl: Class, draw: Draw)
    requires Pending(v, cl) && v.status.ref.None? && !GateOpen(TrackerOf(v.status), x.c.now, EffectiveGate(cl))
    ensures var o := Produce(x, v, cl);
            Measure(Persist(o.view.status), StartIn(o.view), x.c.now + Wait(o.result, draw), cl) <
            Measure(v.status, StartIn(v), x.c.now, cl)
  {
    hide EffectiveGate, Measure, BackoffDelay, Seconds, CreateRun, InFlight, NoGenerator;
    var o := Produce(x, v, cl);
    var due := x.c.now + Wait(o.result, draw);
    assert GateOpen(TrackerOf(Persist(o.view.status)), due, EffectiveGate(cl));
    SameAttempt(v.status, Persist(o.view.status), StartIn(v), x.c.now, StartIn(o.view), due, cl);
  }

  lemma ProduceProgress(x: Ctx, v: View, cl: Class, draw: Draw)
    requires Pending(v, cl) && Smooth(x, v)
    requires v.status.succeededAt.Some? ==> v.status.succeededAt.value <= x.c.now
    ensures var o := Produce(x, v, cl);
            Measure(Persist(o.view.status), StartIn(o.view), x.c.now + Wait(o.result, draw), cl) <
            Measure(v.status, StartIn(v), x.c.now, cl)
  {
    hide EffectiveGate, RunName, Measure, GateOpen, Evaluate, CreateRun, NoGenerator, BackoffDelay, Wait;
    if v.status.ref.Some? {
      var ref := v.status.ref.value;
      EvaluateStart(x, v, cl, ref, v.runs[ref]);
      EvaluateProgress(x, v, cl, ref, v.runs[ref], draw, StartIn(Evaluate(x, v, cl, ref, v.runs[ref]).view));
    } else if GateOpen(TrackerOf(v.status), x.c.now, EffectiveGate(cl)) {
      CreateProgress(x, v, cl, draw);
    } else {
      GateProgress(x, v, cl, draw);
    }
  }

  /** A judged run stays tracked and uncharged, or is charged and let go, with the verdict
      Degraded when that spends the budget. */
  predicate Judged(v: View, v': View, budget: nat) {
    if v'.status.ref.Some?
    then v'.status.ref == v.status.ref && v'.runs == v.runs && v'.status.failed == v.status.failed
    else v'.status.failed == v.status.failed + 1 && (v'.status.failed >= budget ==> v'.status.state == Degraded)
  }

  lemma FailureJudges(x: Ctx, v: View, g: Gate, reason: Reason, cause: Cause)
    ensures var st' := Failure(x, v, g, reason, cause).view.status;
            st'.ref.None? && st'.failed == v.status.failed + 1 && (st'.failed >= g.budget ==> st'.state == Degraded)
  {
    hide BackoffDelay, Charge;
    var w := Charge(x, v, g, reason, cause);
    ChargeJudges(x, v, g, reason, cause);
    if w.status.failed >= g.budget {
      assert Failure(x, v, g, reason, cause).view == w.Stall(FailureBudgetExhausted).In(Degraded);
    } else {
      assert Failure(x, v, g, reason, cause).view == w.Progress(BackoffPending, reason).In(StateGenerating);
    }
  }

  lemma ChargeJudges(x: Ctx, v: View, g: Gate, reason: Reason, cause: Cause)
    ensures var st' := Charge(x, v, g, reason, cause).status; st'.ref.None? && st'.failed == v.status.failed + 1
  {
  }

  lemma AwaitJudges(x: Ctx, v: View, cl: Class)
    requires v.status.ref.Some?
    ensures Judged(v, Await(x, NoteSuccess(x, v), cl).view, EffectiveGate(cl).budget)
  {
    hide EffectiveGate, Failure, NoteSuccess;
    var w := NoteSuccess(x, v);
    assert w.status.ref == v.status.ref && w.runs == v.runs && w.status.failed == v.status.failed by {
      NoteKeeps(x, v);
    }
    FailureJudges(x, w, EffectiveGate(cl), SucceededWithoutArtifact, NoArtifact);
    if cl.GracePeriod() - (x.c.now - w.status.succeededAt.value) > 0 {
      assert Await(x, w, cl).view == w.Progress(AwaitingArtifact, AwaitingArtifact).In(StateAwaiting);
    }
  }

  lemma NoteKeeps(x: Ctx, v: View)
    ensures var w := NoteSuccess(x, v);
            w.status.ref == v.status.ref && w.runs == v.runs && w.status.failed == v.status.failed
  {
  }

  lemma EvaluateJudges(x: Ctx, v: View, cl: Class, ref: RunRef, run: Run)
    requires v.status.ref.Some?
    ensures Judged(v, Evaluate(x, v, cl, ref, run).view, EffectiveGate(cl).budget)
  {
    hide EffectiveGate, Failure, Await, NoteSuccess, RunStart;
    FailureJudges(x, v, EffectiveGate(cl), GeneratorFailed, ReportedFailure);
    AwaitJudges(x, v, cl);
    FailureJudges(x, v.(runs := if x.c.runDeleteOk then v.runs - {ref} else v.runs), EffectiveGate(cl),
                  ProgressDeadlineExceeded, Deadline(x.c.runDeleteOk));
  }

  lemma EvaluateStart(x: Ctx, v: View, cl: Class, ref: RunRef, run: Run)
    requires v.status.ref == Some(ref) && ref in v.runs && v.runs[ref] == run && run.started.Some?
    ensures var o := Evaluate(x, v, cl, ref, run); o.view.status.ref.Some? ==> StartIn(o.view) == run.started.value
  {
    hide EffectiveGate, Evaluate;
    EvaluateJudges(x, v, cl, ref, run);
  }

  /** A pass that leaves the budget spent reports it. */
  lemma SpentIsDegraded(x: Ctx, v: View, cl: Class)
    requires cl.generator.Some?
    ensures var o := Produce(x, v, cl);
            o.view.status.failed >= EffectiveGate(cl).budget ==>
              o.view.status.state == Degraded
              && (v.status.failed <= EffectiveGate(cl).budget ==> o.view.status.failed == EffectiveGate(cl).budget)
    ensures v.status.failed >= EffectiveGate(cl).budget ==> Produce(x, v, cl).view.status.failed == v.status.failed
  {
    hide EffectiveGate, RunName, GateOpen, BackoffDelay, Evaluate, CreateRun, NoGenerator;
    CreateKeepsCount(x, v, cl);
    if v.status.ref.Some? && v.status.ref.value in v.runs {
      EvaluateJudges(x, v, cl, v.status.ref.value, v.runs[v.status.ref.value]);
    }
  }

  lemma CreateKeepsCount(x: Ctx, v: View, cl: Class)
    ensures CreateRun(x, v, cl).view.status.failed == v.status.failed
  {
    hide EffectiveGate, RunName;
  }

  // ------------------------------------------------ what producing leaves alone

  /** The store and the Artifact's place in the cluster are as before. */
  predicate Holding(v: View, w: View) {
    w.objects == v.objects && w.deleting == v.deleting && w.finalizer == v.finalizer
  }

  lemma ChargeHolds(x: Ctx, v: View, g: Gate, reason: Reason, cause: Cause)
    ensures var w := Charge(x, v, g, reason, cause);
            Holding(v, w) && w.runs == v.runs && w.status.attempts == v.status.attempts
  {
  }

  lemma FailureHolds(x: Ctx, v: View, g: Gate, reason: Reason, cause: Cause)
    ensures var w := Failure(x, v, g, reason, cause).view;
            Holding(v, w) && w.runs == v.runs && w.status.attempts == v.status.attempts
  {
    hide BackoffDelay, Charge;
    var w := Charge(x, v, g, reason, cause);
    ChargeHolds(x, v, g, reason, cause);
    if w.status.failed >= g.budget {
      assert Failure(x, v, g, reason, cause).view == w.Stall(FailureBudgetExhausted).In(Degraded);
    } else {
      assert Failure(x, v, g, reason, cause).view == w.Progress(BackoffPending, reason).In(StateGenerating);
    }
  }

  lemma AwaitHolds(x: Ctx, v: View, cl: Class)
    ensures Holding(v, Await(x, NoteSuccess(x, v), cl).view)
  {
    hide Failure, EffectiveGate;
    FailureHolds(x, NoteSuccess(x, v), EffectiveGate(cl), SucceededWithoutArtifact, NoArtifact);
  }

  lemma EvaluateHolds(x: Ctx, v: View, cl: Class, ref: RunRef, run: Run)
    ensures Holding(v, Evaluate(x, v, cl, ref, run).view)
  {
    hide EffectiveGate, Failure, Await, NoteSuccess, RunStart;
    FailureHolds(x, v, EffectiveGate(cl), GeneratorFailed, ReportedFailure);
    AwaitHolds(x, v, cl);
    FailureHolds(x, v.(runs := if x.c.runDeleteOk then v.runs - {ref} else v.runs), EffectiveGate(cl),
                 ProgressDeadlineExceeded, Deadline(x.c.runDeleteOk));
  }

  lemma StartHolds(x: Ctx, v: View, cl: Class, ref: RunRef)
    ensures Holding(v, Start(x, v, cl, ref)) && Holding(v, Adopt(x, v, cl, ref))
  {
    hide EffectiveGate;
  }

  lemma CreateHolds(x: Ctx, v: View, cl: Class)
    ensures Holding(v, CreateRun(x, v, cl).view)
  {
    hide EffectiveGate, RunName, Start, Adopt;
    if x.c.runKind.Some? {
      StartHolds(x, v, cl, RunRef(x.c.runKind.value, RunName(x.m, v.status.attempts + 1)));
    }
  }

  lemma NoGeneratorHolds(x: Ctx, v: View)
    ensures Holding(v, NoGenerator(x, v).view)
  {
  }

  lemma InFlightHolds(x: Ctx, v: View, cl: Class, ref: RunRef)
    ensures Holding(v, InFlight(x, v, cl, ref).view)
  {
    hide Evaluate;
    if ref in v.runs { EvaluateHolds(x, v, cl, ref, v.runs[ref]); }
  }

  /** Driving the generator never touches the store or the Artifact's place in the cluster. */
  lemma ProduceHolds(x: Ctx, v: View, cl: Class)
    ensures Holding(v, Produce(x, v, cl).view)
  {
    hide EffectiveGate, InFlight, NoGenerator, CreateRun, GateOpen, BackoffDelay;
    CreateHolds(x, v, cl);
    NoGeneratorHolds(x, v);
    if v.status.ref.Some? { InFlightHolds(x, v, cl, v.status.ref.value); }
  }

  /** The tracked run is there. */
  predicate TrackedStands(v: View) {
    v.status.ref.Some? ==> v.status.ref.value in v.runs
  }

  lemma ProduceStands(x: Ctx, v: View, cl: Class)
    requires cl.generator.Some? && Coherent(v.status) && Smooth(x, v)
    ensures TrackedStands(Produce(x, v, cl).view)
  {
    hide EffectiveGate, Evaluate, CreateRun, NoGenerator, GateOpen, BackoffDelay, RunName, Coherent;
    if v.status.ref.Some? {
      EvaluateJudges(x, v, cl, v.status.ref.value, v.runs[v.status.ref.value]);
    } else {
      CreateTracks(x, v, cl);
    }
  }

  // -------------------------------------------------------- the pass as a whole

  /** Nothing to honour: no token, or one already honoured. */
  predicate NoRetry(x: Ctx, st: Status) {
    x.sp.retry == "" || x.sp.retry == st.retryToken
  }

  /** The view in which a searching pass decides what to do. */
  function Arrived(x: Ctx, a: View): View
    requires x.c.key.Some?
  {
    Blank(Handed(x, a))
  }

  /** Same counters, same runs, still coherent and as persisted. */
  predicate SameStanding(a: View, v: View) {
    && v.runs == a.runs && Coherent(v.status) && Persist(v.status) == v.status
    && v.status.failed == a.status.failed && v.status.lastFailure == a.status.lastFailure
    && v.status.attempts == a.status.attempts
    && v.status.ref == a.status.ref && v.status.succeededAt == a.status.succeededAt
  }

  lemma BeginSame(a: View)
    requires Coherent(a.status) && Persist(a.status) == a.status
    ensures SameStanding(a, Begin(a))
  {
    hide TruncateOpt;
  }

  lemma BlankSame(x: Ctx, v: View, key: string)
    requires Coherent(v.status) && Persist(v.status) == v.status
    ensures SameStanding(v, Blank(Address(x, v, key)))
  {
    hide TruncateOpt;
  }

  lemma ArrivedSame(x: Ctx, a: View)
    requires x.c.key.Some? && NoRetry(x, a.status) && Coherent(a.status) && Persist(a.status) == a.status
    ensures SameStanding(a, Arrived(x, a))
  {
    hide Persist, Coherent, Blank, Address;
    assert HonourRetry(x, Begin(a)) == Begin(a);
    BeginSame(a);
    BlankSame(x, Begin(a), x.c.key.value);
  }

  /** The measure reads four fields of the status. */
  lemma MeasureReads(st: Status, st': Status, start: int, clock: int, cl: Class)
    requires st'.failed == st.failed && st'.lastFailure == st.lastFailure && st'.ref == st.ref
             && st'.succeededAt == st.succeededAt
    ensures Measure(st', start, clock, cl) == Measure(st, start, clock, cl)
  {
    hide EffectiveGate, Seconds, RunCost, BackoffDelay;
  }

  /** A searching pass of a pending Artifact strictly lowers the measure. */
  lemma PassProgress(x: Ctx, a: View, cl: Class, draw: Draw)
    requires Pending(a, cl) && Smooth(x, a) && Searches(x, a, cl) && NoRetry(x, a.status)
    requires a.status.succeededAt.Some? ==> a.status.succeededAt.value <= x.c.now
    ensures var o := Pass(x, a);
            Measure(Persist(o.view.status), StartIn(o.view), x.c.now + Wait(o.result, draw), cl) <
            Measure(a.status, StartIn(a), x.c.now, cl)
  {
    hide Pass, Produce, Measure, Searches, NoRetry, Coherent, Arrived, EffectiveGate, RunName, Wait;
    SearchingPass(x, a, cl);
    assert x.c.key.Some? && Pass(x, a) == Produce(x, Arrived(x, a), cl) by { ArrivedPass(x, a, cl); }
    ArrivedSame(x, a);
    var v := Arrived(x, a);
    ProduceProgress(x, v, cl, draw);
    MeasureReads(a.status, v.status, StartIn(a), x.c.now, cl);
  }

  lemma ArrivedPass(x: Ctx, a: View, cl: Class)
    requires Searches(x, a, cl)
    ensures x.c.key.Some? && Pass(x, a) == Produce(x, Arrived(x, a), cl)
  {
    hide Pass, Produce, Handed, Reached;
    SearchingPass(x, a, cl);
  }

  /** A searching pass leaves the Artifact, the store and the tracked run in place. */
  lemma SearchingHolds(x: Ctx, a: View, cl: Class)
    requires Searches(x, a, cl)
    ensures Holding(a, Pass(x, a).view)
  {
    hide Pass, Produce, Handed, Reached;
    ArrivedPass(x, a, cl);
    HandedHolds(x, a);
    ProduceHolds(x, Arrived(x, a), cl);
  }

  lemma HandedHolds(x: Ctx, a: View)
    requires x.c.key.Some?
    ensures Holding(a, Handed(x, a))
  {
    hide HonourRetry;
    HonourHolds(x, Begin(a));
  }

  lemma SearchingStands(x: Ctx, a: View, cl: Class)
    requires Searches(x, a, cl) && Smooth(x, a) && NoRetry(x, a.status) && cl.generator.Some?
    requires Coherent(a.status) && Persist(a.status) == a.status
    ensures TrackedStands(Pass(x, a).view)
  {
    hide Pass, Produce, Searches, NoRetry, Coherent, Arrived, RunName;
    ArrivedPass(x, a, cl);
    ArrivedSame(x, a);
    ProduceStands(x, Arrived(x, a), cl);
  }

  /** A searching pass reports a spent budget, and spends no more than there is. */
  lemma PassVerdict(x: Ctx, a: View, cl: Class)
    requires Searches(x, a, cl) && NoRetry(x, a.status) && cl.generator.Some?
    requires Coherent(a.status) && Persist(a.status) == a.status && a.status.failed <= EffectiveGate(cl).budget
    ensures var st, budget := Persist(Pass(x, a).view.status), EffectiveGate(cl).budget;
            st.failed <= budget && (st.failed == budget ==> st.state == Degraded)
            && (a.status.failed == budget ==> st.failed == budget)
  {
    hide Pass, Produce, Searches, NoRetry, Coherent, Arrived, EffectiveGate;
    ArrivedPass(x, a, cl);
    ArrivedSame(x, a);
    SpentIsDegraded(x, Arrived(x, a), cl);
  }

  // ------------------------------------------------------------- whole runs

  /** Every first success on record is dated no later than `now`. */
  predicate DatedBy(log: seq<Event>, now: int) {
    forall i :: 0 <= i < |log| && log[i].FirstSuccess? ==> log[i].now <= now
  }

  lemma {:induction false} SuccessIsPast(log: seq<Event>, now: int)
    requires DatedBy(log, now)
    ensures Replay(log).succeededAt.Some? ==> Replay(log).succeededAt.value <= now
  {
    if log != [] {
      SuccessIsPast(log[..|log| - 1], now);
    }
  }

  predicate Timely(w: World, u: Uid) {
    u in w.ledgers ==> DatedBy(w.ledgers[u].accounts, w.now)
  }

  lemma GatedIsDated(x: Ctx, j: seq<Event>)
    requires AllGated(x, j)
    ensures DatedBy(j, x.c.now)
  {
    forall i | 0 <= i < |j| ensures Gated(x, j[i]) {}
  }

  lemma TimelyPass(w: World, u: Uid, c: Calls, kept: bool, draw: Draw)
    requires u in w.artifacts && BookedAt(w, u) && Timely(w, u) && c.now == w.now
    ensures Timely(AfterPass(w, u, c, kept, draw), u)
  {
    hide OutcomeOf, Booked, HasVerified, StartsRun, AllGated, AfterPass, Patched;
    AfterPassFacts(w, u, c, kept, draw);
    assert AllGated(CtxOf(w, u, c), OutcomeOf(w, u, c).view.journal) by {
      hide OutcomeOf, Booked, RunEffect, StoreEffect, DriftEffect, Journalled, AllGated, Coherent, HasVerified,
           StartsRun, AfterPass, Patched;
      PassRelated(w, u, c);
    }
    GatedIsDated(CtxOf(w, u, c), OutcomeOf(w, u, c).view.journal);
  }

  lemma TimelyStep(w: World, a: Action, u: Uid)
    requires Enabled(w, a) && AllBooked(w) && Timely(w, u)
    ensures Timely(Next(w, a), u)
  {
    hide OutcomeOf, Booked, AfterPass, Patched, Recorded;
    if a.Reconcile? && a.uid in w.artifacts {
      assert BookedAt(w, a.uid);
      AfterPassFacts(w, a.uid, a.calls, a.kept, a.draw);
      if a.uid == u {
        TimelyPass(w, u, a.calls, a.kept, a.draw);
      }
    }
  }

  lemma AlwaysTimely(ws: seq<World>, acts: seq<Action>, n: nat, u: Uid)
    requires Execution(ws, acts) && Empty(ws[0]) && n < |ws|
    ensures AllBooked(ws[n]) && Timely(ws[n], u)
  {
    forall w, a | AllBooked(w) && Timely(w, u) && Enabled(w, a) ensures AllBooked(Next(w, a)) && Timely(Next(w, a), u) {
      BookedStep(w, a);
      TimelyStep(w, a, u);
    }
    StartBooked(ws[0]);
    hide BookedAt, Next, DatedBy;
    Throughout(ws, acts, w => AllBooked(w) && Timely(w, u), (w, a) => true, n);
  }

  /** The steady stretch: passes of `u` come no earlier than asked, find the same class and
      nothing in the store, and have their calls answered and their patch kept; nobody removes
      the Artifact or drops the run it tracks, and no other Artifact tracks that run. */
  predicate Steady(w: World, a: Action, u: Uid, cl: Class) {
    && u in w.artifacts && u in w.ledgers
    && if a.Reconcile? && a.uid == u then
         var x, v := CtxOf(w, u, a.calls), ViewOf(w, u);
         a.kept && w.ledgers[u].due <= w.now && Searches(x, v, cl) && Smooth(x, v) && NoRetry(x, v.status)
       else
         var ref := w.artifacts[u].status.ref;
         && !(a.Remove? && a.uid == u) && !(a.DropRun? && Some(a.ref) == ref)
         && (a.Reconcile? && a.uid in w.artifacts ==>
               ref.None? || w.artifacts[a.uid].status.ref != ref)
  }

  /** Then the steps of others leave the Artifact and its tracked run alone. */
  lemma OthersLeaveRun(w: World, a: Action, u: Uid, cl: Class)
    requires Enabled(w, a) && AllBooked(w) && Steady(w, a, u, cl) && !(a.Reconcile? && a.uid == u)
    ensures u in Next(w, a).artifacts
    ensures var ref := w.artifacts[u].status.ref;
            ref.Some? && ref.value in w.runs ==>
              ref.value in Next(w, a).runs && Next(w, a).runs[ref.value] == w.runs[ref.value]
  {
    hide OutcomeOf, AfterPass, Booked, Recorded, Patched, Searches, Smooth;
    var ref := w.artifacts[u].status.ref;
    if a.Reconcile? && a.uid in w.artifacts {
      assert BookedAt(w, a.uid);
      AfterPassFacts(w, a.uid, a.calls, a.kept, a.draw);
      if ref.Some? && ref.value in w.runs {
        if ref.value in OutcomeOf(w, a.uid, a.calls).view.runs {
          RunsAreImmutable(w, a.uid, a.calls, ref.value);
        } else {
          DeletesOnlyTracked(w, a.uid, a.calls, ref.value);
        }
      }
    }
  }

  /** Passes left, seen from the moment the next pass is due. */
  function Remaining(w: World, u: Uid, cl: Class): nat
    requires u in w.artifacts && u in w.ledgers
  {
    Measure(w.artifacts[u].status, StartIn(ViewOf(w, u)), Max(w.now, w.ledgers[u].due), cl)
  }

  /** How many of the actions are passes of `u`. */
  function PassesOf(acts: seq<Action>, u: Uid): nat {
    if acts == [] then 0
    else
      var a := acts[|acts| - 1];
      PassesOf(acts[..|acts| - 1], u) + One(a.Reconcile? && a.uid == u)
  }

  /** Passes that always suffice. */
  function PassBound(cl: Class): nat {
    Times(EffectiveGate(cl).budget, RunCost(cl) + 3)
  }

  lemma {:induction false} TimesGrows(n: nat, m: nat, k: nat)
    requires n <= m
    ensures Times(n, k) <= Times(m, k)
  {
    if n > 0 { TimesGrows(n - 1, m - 1, k); }
  }

  /** After `k` passes: within budget, the tracked run in place, Degraded once the budget is
      spent, and otherwise at least `k` passes closer. */
  predicate OnTrack(w: World, u: Uid, cl: Class, k: nat) {
    && u in w.artifacts && u in w.ledgers
    && var st, budget := w.artifacts[u].status, EffectiveGate(cl).budget;
       && st.failed <= budget
       && (k > 0 ==> TrackedStands(ViewOf(w, u)))
       && (k > 0 ==> if st.failed == budget then st.state == Degraded else Remaining(w, u, cl) + k <= PassBound(cl))
  }

  lemma BoundAtPass(w: World, u: Uid, cl: Class, k: nat)
    requires OnTrack(w, u, cl, k) && BookedAt(w, u) && Timely(w, u) && w.ledgers[u].due <= w.now
    requires var st := w.artifacts[u].status;
             && st.failed < EffectiveGate(cl).budget
             && (st.ref.Some? ==> st.ref.value in w.runs && Begun(w.runs[st.ref.value], w.now))
    ensures Remaining(w, u, cl) + k <= PassBound(cl)
    ensures var st := w.artifacts[u].status; st.succeededAt.Some? ==> st.succeededAt.value <= w.now
  {
    hide EffectiveGate, Cost, LegalLog, Replay, Coherent, RunName, RunCost;
    var st, budget := w.artifacts[u].status, EffectiveGate(cl).budget;
    SuccessIsPast(w.ledgers[u].accounts, w.now);
    CostBounded(st, StartIn(ViewOf(w, u)), w.now, cl);
    TimesGrows(budget - st.failed, budget, RunCost(cl) + 3);
  }

  lemma RemainingAfter(w: World, u: Uid, c: Calls, draw: Draw, cl: Class)
    requires u in w.artifacts && u in w.ledgers
    requires u in AfterPass(w, u, c, true, draw).artifacts
    ensures var w', o := AfterPass(w, u, c, true, draw), OutcomeOf(w, u, c);
            u in w'.ledgers && Remaining(w', u, cl) <=
            Measure(Persist(o.view.status), StartIn(o.view), w.now + Wait(o.result, draw), cl)
  {
    hide OutcomeOf, AfterPass, Measure, TruncateOpt, HasVerified, StartsRun, Wait;
    AfterPassFacts(w, u, c, true, draw);
    var w', o := AfterPass(w, u, c, true, draw), OutcomeOf(w, u, c);
    assert StartIn(ViewOf(w', u)) == StartIn(o.view);
    MeasureMonotone(Persist(o.view.status), StartIn(o.view), w.now + Wait(o.result, draw),
                    Max(w'.now, w'.ledgers[u].due), cl);
  }

  lemma OnTrackPass(w: World, a: Action, u: Uid, cl: Class, k: nat)
    requires Enabled(w, a) && BookedAt(w, u) && Timely(w, u) && Steady(w, a, u, cl) && OnTrack(w, u, cl, k)
    requires a.Reconcile? && a.uid == u && cl.generator.Some? && cl.ProgressDeadline() > 0
    ensures OnTrack(Next(w, a), u, cl, k + 1)
  {
    hide OutcomeOf, AfterPass, Measure, TruncateOpt, HasVerified, StartsRun, Wait, EffectiveGate, Searches, NoRetry,
         RunName, LegalLog, Replay, Coherent, StartIn, Recorded, Timely, Times, RunCost;
    var x, v := CtxOf(w, u, a.calls), ViewOf(w, u);
    AfterPassFacts(w, u, a.calls, true, a.draw);
    assert OutcomeOf(w, u, a.calls) == Pass(x, v) by { OutcomeIsPass(w, u, a.calls); }
    assert !OutcomeOf(w, u, a.calls).view.deleting by { SearchingNotDeleting(x, v, cl); }
    Stays(w, u, a.calls, true, a.draw);
    SearchingStands(x, v, cl);
    PassVerdict(x, v, cl);
    if v.status.failed < EffectiveGate(cl).budget {
      BoundAtPass(w, u, cl, k);
      PassProgress(x, v, cl, a.draw);
      RemainingAfter(w, u, a.calls, a.draw, cl);
    }
  }

  lemma SearchingNotDeleting(x: Ctx, a: View, cl: Class)
    requires Searches(x, a, cl)
    ensures !Pass(x, a).view.deleting
  {
    hide Pass, Reached;
    SearchingHolds(x, a, cl);
  }

  lemma OutcomeIsPass(w: World, u: Uid, c: Calls)
    requires u in w.artifacts
    ensures OutcomeOf(w, u, c) == Pass(CtxOf(w, u, c), ViewOf(w, u))
  {
    hide Pass;
  }

  lemma OthersKeepTrack(w: World, a: Action, u: Uid, cl: Class, k: nat)
    requires Enabled(w, a) && AllBooked(w) && Steady(w, a, u, cl) && OnTrack(w, u, cl, k)
    requires !(a.Reconcile? && a.uid == u)
    ensures OnTrack(Next(w, a), u, cl, k)
  {
    hide OutcomeOf, AfterPass, Measure, EffectiveGate, Booked, Recorded, Patched, PassBound, Searches, Smooth;
    var w' := Next(w, a);
    OthersLeaveRun(w, a, u, cl);
    assert w'.artifacts[u].status == w.artifacts[u].status && u in w'.ledgers && w'.ledgers[u] == w.ledgers[u]
           && w.now <= w'.now by {
      OthersLeaveHistory(w, a, u);
    }
    assert k > 0 ==> StartIn(ViewOf(w', u)) == StartIn(ViewOf(w, u));
    MeasureMonotone(w.artifacts[u].status, StartIn(ViewOf(w, u)), Max(w.now, w.ledgers[u].due),
                    Max(w'.now, w'.ledgers[u].due), cl);
  }

  /** Bounded convergence: from any reachable state within budget, a steady stretch with
      `PassBound` passes of the Artifact ends with the budget exactly spent and reported,
      however the run's status reads along the way. */
  lemma {:induction false} Converges(ws: seq<World>, acts: seq<Action>, m: nat, n: nat, u: Uid, cl: Class)
    requires Execution(ws, acts) && Empty(ws[0]) && m <= n < |ws|
    requires cl.generator.Some? && cl.ProgressDeadline() > 0
    requires u in ws[m].artifacts && ws[m].artifacts[u].status.failed <= EffectiveGate(cl).budget
    requires forall i :: m <= i < n ==> Steady(ws[i], acts[i], u, cl)
    ensures OnTrack(ws[n], u, cl, PassesOf(acts[m..n], u))
    ensures PassesOf(acts[m..n], u) >= PassBound(cl) ==>
              ws[n].artifacts[u].status.failed == EffectiveGate(cl).budget
              && ws[n].artifacts[u].status.state == Degraded
  {
    hide BookedAt, Next, Steady, DatedBy, Remaining, PassBound, EffectiveGate;
    if n == m {
      AlwaysBooked(ws, acts, m);
      BookedHasLedger(ws[m], u);
    } else {
      Converges(ws, acts, m, n - 1, u, cl);
      AlwaysTimely(ws, acts, n - 1, u);
      var w, a := ws[n - 1], acts[n - 1];
      assert Enabled(w, a) && ws[n] == Next(w, a) && Steady(w, a, u, cl);
      assert acts[m..n][..n - m - 1] == acts[m..n - 1] && acts[m..n][n - m - 1] == a;
      if a.Reconcile? && a.uid == u {
        OnTrackPass(w, a, u, cl, PassesOf(acts[m..n - 1], u));
      } else {
        OthersKeepTrack(w, a, u, cl, PassesOf(acts[m..n - 1], u));
      }
    }
    if PassesOf(acts[m..n], u) >= PassBound(cl) {
      EndOfTrack(ws[n], u, cl, PassesOf(acts[m..n], u));
    }
  }

  lemma BookedHasLedger(w: World, u: Uid)
    requires AllBooked(w) && u in w.artifacts
    ensures u in w.ledgers
  {
    hide Booked;
    assert BookedAt(w, u);
  }

  lemma EndOfTrack(w: World, u: Uid, cl: Class, k: nat)
    requires OnTrack(w, u, cl, k) && k >= PassBound(cl)
    ensures w.artifacts[u].status.failed == EffectiveGate(cl).budget && w.artifacts[u].status.state == Degraded
  {
    hide EffectiveGate, Seconds, RunCost, GateOpen;
    assert PassBound(cl) > 0;
  }

  /** The bound in closed form: a run may use the whole deadline, one nanosecond over, and one
      grace window. */
  lemma PassBoundIs(cl: Class)
    ensures PassBound(cl) ==
            EffectiveGate(cl).budget * (Seconds(cl.ProgressDeadline() + 1) + Seconds(cl.GracePeriod()) + 5)
  {
    hide EffectiveGate, Seconds;
    TimesIsProduct(EffectiveGate(cl).budget, RunCost(cl) + 3);
  }

  lemma {:induction false} TimesIsProduct(n: nat, k: nat)
    ensures Times(n, k) == n * k
  {
    if n > 0 { TimesIsProduct(n - 1, k); }
  }
}
