/**
 One reconcile pass as a function: what the persisted Artifact, the cluster's runs and
 the store become, given the answers of the API calls the pass makes.  One function per
 method of the reconciler, with the same branches; the imperative methods are proved
 against these, and every statement about runs of the system is proved about these.
 */
module Passes {
  import opened Api
  import opened Delays
  import opened Journal
  import opened Names

  /** A rendered store key: never blank (`Render.RenderKey`). */
  type Key = s: string | s != "" witness "k"

  datatype Lookup = Found(def: Class) | NotFound | Unreachable

  /** The outside world's answers during one pass.  At most one call of each kind is made. */
  datatype Calls = Calls(
    now: int,
    lookup: Lookup,             // the ArtifactClass
    key: Option<Key>,           // the rendered store key
    runKind: Option<Kind>,      // the kind of the rendered run
    driverOk: bool,             // the registry builds a driver
    observeOk: bool,            // the store answers
    crDeleteOk: bool,           // deleting the Artifact itself (TTL)
    runGetOk: bool,             // reading the tracked run: any answer but an error
    runDeleteOk: bool,          // deleting a run: done, or already gone
    ownerRefOk: bool,           // the rendered run accepts this Artifact as controller
    createOk: bool,             // creating a run: no error other than "already exists"
    existingGetOk: bool,        // reading the run that already holds the name
    failedWhen: bool, succeededWhen: bool, inProgressWhen: bool)  // CEL; errors count as false

  /** Whose pass it is, under which spec, and what the calls answer. */
  datatype Ctx = Ctx(m: Meta, sp: Spec, c: Calls)

  /** `AfterAbout` is a requeue spread by the jitter. */
  datatype Result = Done | After(delay: int) | AfterAbout(delay: int) | Error

  /** The requeue delay a result asks for, for one draw of the jitter; 0 when it asks for none. */
  function Wait(r: Result, draw: Draw): int {
    match r
    case After(d) => d
    case AfterAbout(d) => Jittered(d, draw)
    case _ => 0
  }

  /** The state a pass works on: the Artifact in memory and the systems it touches.
      `journal` collects what the pass did. */
  datatype View = View(
    status: Status, finalizer: bool, deleting: bool,
    runs: map<RunRef, Run>, objects: map<string, Object>, refusing: bool,
    journal: seq<Event>)
  {
    function With(st: Status): View { this.(status := st) }
    function Emit(e: Event): View { this.(journal := journal + [e]) }
    function Cond(cs: Conditions): View { this.(status := status.(cond := cs)) }
    function In(s: State): View { this.(status := status.(state := s)) }

    /** Ready turns False. */
    function NotReady(r: Reason): View { Cond(status.cond.(ready := MarkFalse(r))) }

    /** Stalled turns True, Ready False. */
    function Stall(r: Reason): View { Cond(MarkStalled(status.cond, r).(ready := MarkFalse(r))) }

    /** Reconciling turns True, Ready False. */
    function Progress(r: Reason, notReady: Reason): View {
      Cond(MarkReconciling(status.cond, r).(ready := MarkFalse(notReady)))
    }
  }

  datatype Outcome = Outcome(view: View, result: Result)

  // -------------------------------------------------- recordAttemptFailure

  /** Counting the failure and letting the run go. */
  function Charge(x: Ctx, v: View, g: Gate, reason: Reason, cause: Cause): View {
    v.With(v.status.(failed := v.status.failed + 1, lastFailure := Some(x.c.now), ref := None, succeededAt := None,
                     cond := v.status.cond.(generatorSucceeded := MarkFalse(reason))))
     .Emit(Charged(v.status.attempts, cause, x.c.now, g))
  }

  function Failure(x: Ctx, v: View, g: Gate, reason: Reason, cause: Cause): Outcome {
    var w := Charge(x, v, g, reason, cause);
    if w.status.failed >= g.budget
    then Outcome(w.Stall(FailureBudgetExhausted).In(Degraded), AfterAbout(10 * x.sp.Interval()))
    else Outcome(w.Progress(BackoffPending, reason).In(StateGenerating),
                 After(BackoffDelay(w.status.failed, g.initial, g.max)))
  }

  // ----------------------------------------------------------- evaluateRun

  const UNRECOGNIZED_GRACE := 15 * SECOND

  /** `runStartTime`. */
  function RunStart(m: Meta, st: Status, run: Run): int {
    if run.started.Some? then run.started.value
    else if st.lastFailure.Some? then st.lastFailure.value
    else m.createdAt
  }

  /** The first time a run is seen to have succeeded starts the grace window. */
  function NoteSuccess(x: Ctx, v: View): (w: View)
    ensures w.status.succeededAt.Some?
  {
    if v.status.succeededAt.Some? then v
    else v.With(v.status.(succeededAt := Some(x.c.now),
                          cond := v.status.cond.(generatorSucceeded := MarkTrue(GeneratorSucceeded))))
          .Emit(FirstSuccess(x.c.now))
  }

  function Await(x: Ctx, v: View, cl: Class): Outcome
    requires v.status.succeededAt.Some?
  {
    var rest := cl.GracePeriod() - (x.c.now - v.status.succeededAt.value);
    if rest > 0
    then Outcome(v.Progress(AwaitingArtifact, AwaitingArtifact).In(StateAwaiting),
                 After(if rest < 10 * SECOND then rest + SECOND else 10 * SECOND))
    else Failure(x, v, EffectiveGate(cl), SucceededWithoutArtifact, NoArtifact)
  }

  /** The deadline removes the run if it can, and charges the attempt either way. */
  function GiveUp(x: Ctx, v: View, cl: Class, ref: RunRef): Outcome {
    Failure(x, v.(runs := if x.c.runDeleteOk then v.runs - {ref} else v.runs), EffectiveGate(cl),
            ProgressDeadlineExceeded, Deadline(x.c.runDeleteOk))
  }

  function Evaluate(x: Ctx, v: View, cl: Class, ref: RunRef, run: Run): Outcome {
    if x.c.failedWhen then Failure(x, v, EffectiveGate(cl), GeneratorFailed, ReportedFailure)
    else if x.c.succeededWhen then Await(x, NoteSuccess(x, v), cl)
    else
      var running := x.c.now - RunStart(x.m, v.status, run);
      if 0 < cl.ProgressDeadline() < running then GiveUp(x, v, cl, ref)
      else
        var recognized := cl.generator.None? || !cl.generator.value.closesVocabulary
                          || running <= UNRECOGNIZED_GRACE || x.c.inProgressWhen;
        var reason := if recognized then Generating else StatusUnrecognized;
        Outcome(v.Progress(reason, reason).In(StateGenerating), AfterAbout(30 * SECOND))
  }

  // ------------------------------------------------------------- createRun

  function Adopt(x: Ctx, v: View, cl: Class, ref: RunRef): View {
    v.With(v.status.(attempts := v.status.attempts + 1, ref := Some(ref)))
     .Emit(Started(v.status.attempts + 1, ref, true, x.c.now, EffectiveGate(cl)))
  }

  function Start(x: Ctx, v: View, cl: Class, ref: RunRef): View {
    v.(runs := v.runs[ref := Run(Some(x.m.uid), v.status.attempts + 1, Some(Truncate(x.c.now)))])
     .With(v.status.(attempts := v.status.attempts + 1, ref := Some(ref), succeededAt := None,
                     cond := v.status.cond.(generatorSucceeded := MarkUnknown(Generating))))
     .Emit(Started(v.status.attempts + 1, ref, false, x.c.now, EffectiveGate(cl)))
  }

  function CreateRun(x: Ctx, v: View, cl: Class): Outcome {
    if x.c.runKind.None? then Outcome(v.Stall(TemplateError), Done)
    else if !x.c.ownerRefOk then Outcome(v, Error)
    else if !x.c.createOk then Outcome(v.NotReady(GeneratorFailed), AfterAbout(MINUTE))
    else
      var ref := RunRef(x.c.runKind.value, RunName(x.m, v.status.attempts + 1));
      if ref !in v.runs
      then Outcome(Start(x, v, cl, ref).Progress(Generating, Generating).In(StateGenerating), AfterAbout(30 * SECOND))
      else if x.c.existingGetOk && v.runs[ref].owner == Some(x.m.uid)
      then Outcome(Adopt(x, v, cl, ref), After(SECOND))
      else Outcome(v.NotReady(GeneratorFailed), After(MINUTE))
  }

  // ------------------------------------------------------ reconcileMissing

  /** Forgetting a run whose deletion is confirmed (`deleteAbandonedRun` returned nil). */
  function Cancel(v: View): View
    requires v.status.ref.Some?
  {
    v.(runs := v.runs - {v.status.ref.value})
     .With(v.status.(ref := None, succeededAt := None, cond := v.status.cond.(generatorSucceeded := Absent)))
     .Emit(Cancelled(v.status.attempts))
  }

  function NoGenerator(x: Ctx, v: View): Outcome {
    if v.status.ref.Some? && !x.c.runDeleteOk then Outcome(v, Error)
    else
      var w := if v.status.ref.Some? then Cancel(v) else v;
      Outcome(w.Stall(GeneratorNotConfigured).In(Degraded), AfterAbout(x.sp.Interval()))
  }

  /** A run is in flight: read it and judge it. */
  function InFlight(x: Ctx, v: View, cl: Class, ref: RunRef): Outcome {
    if !x.c.runGetOk then Outcome(v, Error)
    else if ref !in v.runs then
      Outcome(v.With(v.status.(ref := None, succeededAt := None)).Emit(Vanished(v.status.attempts)), After(SECOND))
    else Evaluate(x, v, cl, ref, v.runs[ref])
  }

  function Blank(v: View): View {
    v.With(v.status.(digest := "", cond := v.status.cond.(inStore := MarkFalse(ArtifactMissing)))).Emit(Blanked)
  }

  /** The missing path once the observation is recorded. */
  function Produce(x: Ctx, v: View, cl: Class): Outcome {
    var g := EffectiveGate(cl);
    if cl.generator.None? then NoGenerator(x, v)
    else if v.status.failed >= g.budget
    then Outcome(v.Stall(FailureBudgetExhausted).In(Degraded), AfterAbout(10 * x.sp.Interval()))
    else if v.status.ref.Some? then InFlight(x, v, cl, v.status.ref.value)
    else if !GateOpen(TrackerOf(v.status), x.c.now, g) then
      Outcome(v.Progress(BackoffPending, BackoffPending).In(StateGenerating),
              After(v.status.lastFailure.value + BackoffDelay(v.status.failed, g.initial, g.max) - x.c.now + SECOND))
    else CreateRun(x, v, cl)
  }

  function MissingPass(x: Ctx, v: View, cl: Class): Outcome {
    Produce(x, Blank(v), cl)
  }

  // ------------------------------------------- reconcileMissingObserved

  function ObservedMissingPass(x: Ctx, v: View): Outcome {
    Outcome(
      v.With(v.status.(failed := 0, lastFailure := None, digest := "", state := Missing,
                       cond := v.status.cond.(generatorSucceeded := Absent, reconciling := Absent, stalled := Absent,
                                              inStore := MarkFalse(ArtifactMissing),
                                              ready := MarkFalse(ArtifactMissing))))
       .Emit(ObservedAbsent),
      AfterAbout(x.sp.Interval()))
  }

  // ----------------------------------------------------- reconcileExisting

  function Conflict(x: Ctx, v: View): Outcome {
    Outcome(v.In(StateConflict)
             .Cond(v.status.cond.(reconciling := Absent, inStore := MarkFalse(KeyConflict),
                                  ready := MarkFalse(KeyConflict))),
            AfterAbout(x.sp.Interval()))
  }

  /** A content change with no run of ours since the last verification. */
  predicate Drifts(st: Status, o: Object) {
    o.digest != "" && st.digest != "" && o.digest != st.digest && st.succeededAt.None? && st.ref.None?
  }

  /** `recordDrift`. */
  function RecordDrift(v: View, cl: Class, o: Object): View {
    if cl.DriftPolicy() == Ignore then v
    else v.Cond(v.status.cond.(drifted := MarkTrue(ContentDrifted))).Emit(DriftReported(v.status.digest, o.digest))
  }

  /** An expected change, or a first observation, clears the drift condition. */
  function Rebaseline(v: View, o: Object): View {
    if o.digest != "" && o.digest != v.status.digest then v.Cond(v.status.cond.(drifted := Absent)) else v
  }

  function Verify(x: Ctx, v: View, o: Object): Outcome {
    Outcome(
      v.With(v.status.(digest := o.digest, lastVerified := Some(x.c.now), failed := 0, lastFailure := None,
                       ref := None, succeededAt := None, state := Ready,
                       cond := v.status.cond.(reconciling := Absent, stalled := Absent,
                                              inStore := MarkTrue(ArtifactAvailable),
                                              ready := MarkTrue(ArtifactAvailable))))
       .Emit(Verified(o.digest, TrackedAttempt(TrackerOf(v.status)))),
      AfterAbout(x.sp.Interval()))
  }

  function ExistingPass(x: Ctx, v: View, cl: Class, o: Object): Outcome {
    if !Own(o, cl.stampKey, x.m.identityHash) then Conflict(x, v)
    else if Drifts(v.status, o) then
      var w := RecordDrift(v, cl, o);
      if cl.DriftPolicy() == Regenerate && !x.sp.observe
      then MissingPass(x, w.With(w.status.(digest := "")), cl)
      else Verify(x, w, o)
    else Verify(x, Rebaseline(v, o), o)
  }

  // ------------------------------------------------------ reconcileExpired

  /** A configured, positive age limit that has been reached. */
  predicate Reached(limit: Option<int>, age: int) {
    limit.Some? && 0 < limit.value <= age
  }

  function Age(x: Ctx): int { x.c.now - x.m.createdAt }

  function Retire(v: View): View {
    v.With(v.status.(state := StateExpired, digest := "", ref := None, succeededAt := None,
                     cond := v.status.cond.(reconciling := Absent, stalled := Absent,
                                            inStore := MarkFalse(Expired), ready := MarkFalse(Expired))))
     .Emit(Retired(TrackedAttempt(TrackerOf(v.status))))
  }

  function AfterExpiry(x: Ctx): Result {
    if x.sp.ttl.Some? && x.sp.ttl.value > 0 then
      var remaining := x.sp.ttl.value - Age(x);
      After(if remaining > 0 then remaining + SECOND else SECOND)
    else Done
  }

  function ExpiredPass(x: Ctx, v: View, cl: Class, key: string): Outcome {
    if !x.c.observeOk then Outcome(v.NotReady(StoreUnavailable), AfterAbout(MINUTE))
    else if key in v.objects && Own(v.objects[key], cl.stampKey, x.m.identityHash) then
      if v.refusing then Outcome(v.NotReady(StoreUnavailable), AfterAbout(MINUTE))
      else Outcome(Retire(v.(objects := v.objects - {key})), AfterExpiry(x))
    else Outcome(Retire(v), AfterExpiry(x))
  }

  // ------------------------------------------------------------- reconcile

  function Consult(x: Ctx, v: View, cl: Class, key: string): Outcome {
    if !x.c.observeOk then Outcome(v.NotReady(StoreUnavailable), AfterAbout(30 * SECOND))
    else if key in v.objects then ExistingPass(x, v, cl, v.objects[key])
    else if x.sp.observe then ObservedMissingPass(x, v)
    else MissingPass(x, v, cl)
  }

  function WithKey(x: Ctx, v: View, cl: Class, key: string): Outcome {
    if Reached(x.sp.ttl, Age(x)) then
      if x.c.crDeleteOk then Outcome(v.(deleting := true), Done) else Outcome(v, Error)
    else if !x.c.driverOk then Outcome(v.NotReady(StoreUnavailable), After(MINUTE))
    else if Reached(x.sp.deleteAfter, Age(x)) && !x.sp.observe then ExpiredPass(x, v, cl, key)
    else Consult(x, v, cl, key)
  }

  function Address(x: Ctx, v: View, key: string): View {
    v.With(v.status.(specHash := x.m.identityHash, key := key))
  }

  function WithClass(x: Ctx, v: View): Outcome {
    match x.c.lookup
    case NotFound => Outcome(v.NotReady(ClassNotFound), After(30 * SECOND))
    case Unreachable => Outcome(v, Error)
    case Found(cl) =>
      if x.c.key.None? then Outcome(v.Stall(TemplateError), Done)
      else WithKey(x, Address(x, v, x.c.key.value), cl, x.c.key.value)
  }

  /** The retry annotation resets the failure budget once per token. */
  function HonourRetry(x: Ctx, v: View): View {
    if x.sp.retry != "" && x.sp.retry != v.status.retryToken then
      v.With(v.status.(retryToken := x.sp.retry, failed := 0, lastFailure := None,
                       cond := v.status.cond.(stalled := Absent)))
       .Emit(RetryHonoured)
    else v
  }

  function Begin(v: View): View {
    if v.status.state == NoState then v.In(Pending) else v
  }

  function Suspend(v: View): View {
    v.In(StateSuspended).Cond(v.status.cond.(reconciling := Absent, ready := MarkFalse(Suspended)))
  }

  /** From the Observe cancellation on. */
  function Attend(x: Ctx, v: View): Outcome {
    if x.sp.observe && v.status.ref.Some? then
      if !x.c.runDeleteOk then Outcome(v, Error) else WithClass(x, Cancel(v))
    else WithClass(x, v)
  }

  function ReconcilePass(x: Ctx, v: View): Outcome {
    if x.sp.suspend then Outcome(Suspend(Begin(v)), Done)
    else Attend(x, HonourRetry(x, Begin(v)))
  }

  // ------------------------------------------------------- reconcileDelete

  function Block(v: View): View {
    v.In(Deleting).Cond(v.status.cond.(deleting := MarkFalse(StoreDeleteFailed), ready := MarkFalse(StoreDeleteFailed)))
  }

  /** Whether the deletion policy has a store object to consider. */
  predicate MustClean(x: Ctx, v: View) {
    x.sp.deleteOnRemoval && v.status.key != "" && !x.sp.observe && !x.c.lookup.NotFound?
  }

  function DeletePass(x: Ctx, v: View): Outcome {
    if !v.finalizer then Outcome(v, Done)
    else if !MustClean(x, v) then Outcome(v.(finalizer := false), Done)
    else if x.c.lookup.Unreachable? || !x.c.driverOk || !x.c.observeOk then Outcome(v, Error)
    else if v.status.key in v.objects && Own(v.objects[v.status.key], x.c.lookup.def.stampKey, v.status.specHash) then
      if v.refusing then Outcome(Block(v), Error)
      else Outcome(v.(objects := v.objects - {v.status.key}, finalizer := false), Done)
    else Outcome(v.(finalizer := false), Done)
  }

  // ------------------------------------------------------------- Reconcile

  function Pass(x: Ctx, v: View): Outcome {
    if v.deleting then DeletePass(x, v)
    else if !v.finalizer then Outcome(v.(finalizer := true), After(10_000_000))
    else ReconcilePass(x, v)
  }
}
