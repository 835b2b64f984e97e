/**
 The reconciler as it works: objects updated in place, API calls as they come, the status
 patch last.  Every method is proved against the function of `Passes` that specifies it,
 and the whole pass against the step of `Worlds`.
 */
module Controller {
  import opened Api
  import opened Delays
  import opened Journal
  import opened Names
  import opened Passes
  import Render
  import FakeStore
  import Worlds
  import History
  import Accounting

  /** The copy of the Artifact a pass reads, changes and finally patches back. */
  class Working {
    const meta: Meta
    const spec: Spec
    var status: Status
    var finalizer: bool

    constructor (a: Artifact)
      ensures meta == a.meta && spec == a.spec && status == a.status && finalizer == a.finalizer
    {
      meta, spec, status, finalizer := a.meta, a.spec, a.status, a.finalizer;
    }

    /** Stalled and Reconciling are kept exclusive. */
    method MarkStalled(reason: Reason)
      modifies this`status
      ensures status == old(status).(cond := Api.MarkStalled(old(status.cond), reason))
    {
      status := status.(cond := status.cond.(reconciling := Absent));
      status := status.(cond := status.cond.(stalled := MarkTrue(reason)));
    }

    method MarkReconciling(reason: Reason)
      modifies this`status
      ensures status == old(status).(cond := Api.MarkReconciling(old(status.cond), reason))
    {
      status := status.(cond := status.cond.(stalled := Absent));
      status := status.(cond := status.cond.(reconciling := MarkTrue(reason)));
    }

    method MarkNotReady(reason: Reason)
      modifies this`status
      ensures status == old(status).(cond := old(status.cond).(ready := MarkFalse(reason)))
    {
      status := status.(cond := status.cond.(ready := MarkFalse(reason)));
    }
  }

  datatype Created = Created | AlreadyExists | CreateFailed

  /** The API server: Artifacts and generator runs of one namespace. */
  class Cluster {
    var artifacts: map<Uid, Artifact>
    var runs: map<RunRef, Run>

    constructor ()
      ensures artifacts == map[] && runs == map[]
    {
      artifacts, runs := map[], map[];
    }

    /** A delete call that fails changes nothing; deleting an absent run is not a failure. */
    method DeleteRun(ref: RunRef, answered: bool) returns (ok: bool)
      modifies this`runs
      ensures ok == answered
      ensures runs == if ok then old(runs) - {ref} else old(runs)
    {
      if answered {
        runs := runs - {ref};
      }
      ok := answered;
    }

    /** A name is created at most once. */
    method CreateRun(ref: RunRef, run: Run, answered: bool) returns (r: Created)
      modifies this`runs
      ensures r == if !answered then CreateFailed else if ref in old(runs) then AlreadyExists else Created
      ensures runs == if r == Created then old(runs)[ref := run] else old(runs)
    {
      if !answered {
        return CreateFailed;
      }
      if ref in runs {
        return AlreadyExists;
      }
      runs := runs[ref := run];
      return Created;
    }

    /** Deleting an Artifact that carries the finalizer only marks it. */
    method DeleteArtifact(u: Uid, answered: bool) returns (ok: bool)
      requires u in artifacts && artifacts[u].finalizer
      modifies this`artifacts
      ensures ok == answered
      ensures artifacts == if ok then old(artifacts)[u := old(artifacts[u]).(deleting := true)] else old(artifacts)
    {
      if answered {
        artifacts := artifacts[u := artifacts[u].(deleting := true)];
      }
      ok := answered;
    }

    /** The deferred patch, if it lands; an Artifact marked for deletion goes with its finalizer. */
    method Patch(u: Uid, obj: Working, lands: bool)
      requires u in artifacts && obj.meta == artifacts[u].meta && obj.spec == artifacts[u].spec
      modifies this`artifacts
      ensures !lands ==> artifacts == old(artifacts)
      ensures lands ==>
                artifacts == Worlds.Stored(old(artifacts), u,
                                           old(artifacts[u]).(status := Persist(obj.status),
                                                              finalizer := obj.finalizer))
    {
      if lands {
        var a := artifacts[u].(status := Persist(obj.status), finalizer := obj.finalizer);
        if a.deleting && !a.finalizer {
          artifacts := artifacts - {u};
        } else {
          artifacts := artifacts[u := a];
        }
      }
    }
  }

  /** What template execution yields in this pass: for the class's key template, and for the
      leaves of its generator template at the next attempt. */
  datatype Templates = Templates(key: Render.Expander, leaf: Render.Expander)

  /** The answers a pass's specification speaks of are those the templates give; durations
      are 64-bit. */
  ghost predicate Agrees(c: Calls, cl: Class, t: Templates) {
    && c.key == Render.RenderKey(cl.keyTemplate, t.key)
    && (cl.generator.Some? ==> c.runKind == Render.RenderedKind(cl.generator.value.template, t.leaf))
    && Int64(EffectiveGate(cl).initial) && Int64(EffectiveGate(cl).max)
  }

  class Reconciler {
    const cluster: Cluster
    const store: FakeStore.Store
    ghost var journal: seq<Event>

    constructor (cluster: Cluster, store: FakeStore.Store)
      ensures this.cluster == cluster && this.store == store
    {
      this.cluster, this.store, journal := cluster, store, [];
    }

    /** The view the specification speaks of. */
    ghost function Seen(obj: Working): View
      reads this, obj, cluster, store
    {
      View(obj.status, obj.finalizer, obj.meta.uid in cluster.artifacts && cluster.artifacts[obj.meta.uid].deleting,
           cluster.runs, store.objects, store.refusing, journal)
    }

    // ---------------------------------------------------------- conditions

    /** Stalled, not Ready, in the given state. */
    method Halt(obj: Working, state: State, reason: Reason)
      modifies obj`status
      ensures Seen(obj) == old(Seen(obj)).Stall(reason).In(state)
    {
      obj.status := obj.status.(state := state);
      obj.MarkStalled(reason);
      obj.MarkNotReady(reason);
    }

    /** Reconciling, not Ready, in the given state. */
    method Proceed(obj: Working, state: State, reason: Reason, notReady: Reason)
      modifies obj`status
      ensures Seen(obj) == old(Seen(obj)).Progress(reason, notReady).In(state)
      ensures obj.status.failed == old(obj.status.failed)
    {
      obj.status := obj.status.(state := state);
      obj.MarkReconciling(reason);
      obj.MarkNotReady(notReady);
    }

    // ------------------------------------------------ recordAttemptFailure

    /** Counts and dates the failure and lets the run go. */
    method CountFailure(obj: Working, c: Calls, reason: Reason, ghost gate: Gate, ghost cause: Cause)
      modifies this`journal, obj`status
      ensures Seen(obj) == Charge(Ctx(obj.meta, obj.spec, c), old(Seen(obj)), gate, reason, cause)
    {
      obj.status := obj.status.(failed := obj.status.failed + 1);
      obj.status := obj.status.(lastFailure := Some(c.now));
      obj.status := obj.status.(ref := None);
      obj.status := obj.status.(succeededAt := None);
      obj.status := obj.status.(cond := obj.status.cond.(generatorSucceeded := MarkFalse(reason)));
      journal := journal + [Charged(obj.status.attempts, cause, c.now, gate)];
    }

    method RecordAttemptFailure(obj: Working, c: Calls, reason: Reason, budget: nat, initial: int, max: int,
                                ghost cause: Cause)
      returns (res: Result)
      requires Int64(initial) && Int64(max)
      modifies this`journal, obj`status
      ensures Outcome(Seen(obj), res) ==
              Failure(Ctx(obj.meta, obj.spec, c), old(Seen(obj)), Gate(budget, initial, max), reason, cause)
    {
      hide BackoffDelay, Charge, Doubles, Scaled, View.Stall, View.Progress, View.In;
      CountFailure(obj, c, reason, Gate(budget, initial, max), cause);
      if obj.status.failed >= budget {
        Halt(obj, Degraded, FailureBudgetExhausted);
        return AfterAbout(10 * obj.spec.Interval());
      }
      Proceed(obj, StateGenerating, BackoffPending, reason);
      var delay, _ := ComputeBackoff(obj.status.failed, initial, max);
      return After(delay);
    }

    // --------------------------------------------------------- evaluateRun

    /** The run has succeeded: wait out the grace window, then charge the attempt. */
    method AwaitArtifact(obj: Working, c: Calls, cl: Class, budget: nat, initial: int, max: int) returns (res: Result)
      requires Int64(initial) && Int64(max) && Gate(budget, initial, max) == EffectiveGate(cl)
      modifies this`journal, obj`status
      ensures var x := Ctx(obj.meta, obj.spec, c);
              Outcome(Seen(obj), res) == Await(x, NoteSuccess(x, old(Seen(obj))), cl)
    {
      hide Failure, EffectiveGate;
      if obj.status.succeededAt.None? {
        obj.status := obj.status.(succeededAt := Some(c.now));
        obj.status := obj.status.(cond := obj.status.cond.(generatorSucceeded := MarkTrue(GeneratorSucceeded)));
        journal := journal + [FirstSuccess(c.now)];
      }
      assert Seen(obj) == NoteSuccess(Ctx(obj.meta, obj.spec, c), old(Seen(obj)));
      var grace, elapsed := cl.GracePeriod(), c.now - obj.status.succeededAt.value;
      if elapsed < grace {
        Proceed(obj, StateAwaiting, AwaitingArtifact, AwaitingArtifact);
        var requeue := 10 * SECOND;
        if grace - elapsed < requeue {
          requeue := grace - elapsed + SECOND;
        }
        return After(requeue);
      }
      res := RecordAttemptFailure(obj, c, SucceededWithoutArtifact, budget, initial, max, NoArtifact);
    }

    method EvaluateRun(obj: Working, c: Calls, cl: Class, ref: RunRef, run: Run, budget: nat, initial: int, max: int)
        returns (res: Result)
      requires Int64(initial) && Int64(max) && Gate(budget, initial, max) == EffectiveGate(cl)
      modifies this`journal, obj`status, cluster`runs
      ensures Outcome(Seen(obj), res) == Evaluate(Ctx(obj.meta, obj.spec, c), old(Seen(obj)), cl, ref, run)
    {
      hide Failure, EffectiveGate, Await, NoteSuccess;
      if c.failedWhen {
        res := RecordAttemptFailure(obj, c, GeneratorFailed, budget, initial, max, ReportedFailure);
        return;
      }
      if c.succeededWhen {
        res := AwaitArtifact(obj, c, cl, budget, initial, max);
        return;
      }
      var reason := Generating;
      var elapsed := c.now - RunStart(obj.meta, obj.status, run);
      if cl.generator.Some? && cl.generator.value.closesVocabulary && elapsed > UNRECOGNIZED_GRACE
         && !c.inProgressWhen
      {
        reason := StatusUnrecognized;
      }
      var deadline := cl.ProgressDeadline();
      if deadline > 0 && elapsed > deadline {
        var deleted := cluster.DeleteRun(ref, c.runDeleteOk);
        res := RecordAttemptFailure(obj, c, ProgressDeadlineExceeded, budget, initial, max, Deadline(deleted));
        return;
      }
      Proceed(obj, StateGenerating, reason, reason);
      return AfterAbout(30 * SECOND);
    }

    // ----------------------------------------------------------- createRun

    method CreateRun(obj: Working, c: Calls, cl: Class, t: Templates) returns (res: Result)
      requires Agrees(c, cl, t) && cl.generator.Some?
      modifies this`journal, obj`status, cluster`runs
      ensures Outcome(Seen(obj), res) == Passes.CreateRun(Ctx(obj.meta, obj.spec, c), old(Seen(obj)), cl)
    {
      hide EffectiveGate, RunName, Start, Adopt, View.Progress, View.In;
      var attempt := obj.status.attempts + 1;
      var kind := Render.RenderTemplate(cl.generator.value.template, t.leaf);
      if kind.None? {
        obj.MarkStalled(TemplateError);
        obj.MarkNotReady(TemplateError);
        return Done;
      }
      var ref := RunRef(kind.value, RunName(obj.meta, attempt));
      if !c.ownerRefOk {
        return Error;
      }
      var created := cluster.CreateRun(ref, Run(Some(obj.meta.uid), attempt, Some(Truncate(c.now))), c.createOk);
      match created
      case AlreadyExists =>
        if c.existingGetOk && cluster.runs[ref].owner == Some(obj.meta.uid) {
          AdoptRun(obj, c, cl, ref, attempt);
          return After(SECOND);
        }
        obj.MarkNotReady(GeneratorFailed);
        return After(MINUTE);
      case CreateFailed =>
        obj.MarkNotReady(GeneratorFailed);
        return AfterAbout(MINUTE);
      case Created =>
        TrackRun(obj, c, cl, ref, attempt, old(Seen(obj)));
        Proceed(obj, StateGenerating, Generating, Generating);
        return AfterAbout(30 * SECOND);
    }

    /** Crash recovery: the run was created but its status update was lost. */
    method AdoptRun(obj: Working, c: Calls, cl: Class, ref: RunRef, attempt: nat)
      requires attempt == obj.status.attempts + 1
      modifies this`journal, obj`status
      ensures Seen(obj) == Adopt(Ctx(obj.meta, obj.spec, c), old(Seen(obj)), cl, ref)
    {
      hide EffectiveGate;
      obj.status := obj.status.(attempts := attempt);
      obj.status := obj.status.(ref := Some(ref));
      journal := journal + [Started(attempt, ref, true, c.now, EffectiveGate(cl))];
    }

    /** Bookkeeping for a run just created. */
    method TrackRun(obj: Working, c: Calls, cl: Class, ref: RunRef, attempt: nat, ghost before: View)
      requires attempt == obj.status.attempts + 1
      requires Seen(obj) == before.(runs := before.runs[ref := Run(Some(obj.meta.uid), attempt, Some(Truncate(c.now)))])
      modifies this`journal, obj`status
      ensures Seen(obj) == Start(Ctx(obj.meta, obj.spec, c), before, cl, ref)
    {
      hide EffectiveGate;
      obj.status := obj.status.(attempts := attempt);
      obj.status := obj.status.(ref := Some(ref));
      obj.status := obj.status.(succeededAt := None);
      obj.status := obj.status.(cond := obj.status.cond.(generatorSucceeded := MarkUnknown(Generating)));
      journal := journal + [Started(attempt, ref, false, c.now, EffectiveGate(cl))];
    }

    // -------------------------------------------- deleteAbandonedRun, cancellation

    /** True means the run is confirmed gone. */
    method DeleteAbandonedRun(ref: RunRef, c: Calls) returns (gone: bool)
      modifies cluster`runs
      ensures gone == c.runDeleteOk
      ensures cluster.runs == if gone then old(cluster.runs) - {ref} else old(cluster.runs)
    {
      gone := cluster.DeleteRun(ref, c.runDeleteOk);
    }

    /** Cancels the tracked run; it is forgotten only once it is gone. */
    method CancelRun(obj: Working, c: Calls) returns (gone: bool)
      requires obj.status.ref.Some?
      modifies this`journal, obj`status, cluster`runs
      ensures gone == c.runDeleteOk
      ensures Seen(obj) == if gone then Cancel(old(Seen(obj))) else old(Seen(obj))
    {
      gone := DeleteAbandonedRun(obj.status.ref.value, c);
      if gone {
        obj.status := obj.status.(ref := None);
        obj.status := obj.status.(succeededAt := None);
        obj.status := obj.status.(cond := obj.status.cond.(generatorSucceeded := Absent));
        journal := journal + [Cancelled(obj.status.attempts)];
      }
    }

    // ---------------------------------------------------- reconcileMissing

    method ReconcileMissing(obj: Working, c: Calls, cl: Class, t: Templates) returns (res: Result)
      requires Agrees(c, cl, t)
      modifies this`journal, obj`status, cluster`runs
      ensures Outcome(Seen(obj), res) == MissingPass(Ctx(obj.meta, obj.spec, c), old(Seen(obj)), cl)
    {
      hide Agrees, Produce;
      obj.status := obj.status.(cond := obj.status.cond.(inStore := MarkFalse(ArtifactMissing)));
      obj.status := obj.status.(digest := "");
      journal := journal + [Blanked];
      assert Seen(obj) == Blank(old(Seen(obj)));
      res := DriveGenerator(obj, c, cl, t);
    }

    /** The missing path once the absence is recorded. */
    method DriveGenerator(obj: Working, c: Calls, cl: Class, t: Templates) returns (res: Result)
      requires Agrees(c, cl, t)
      modifies this`journal, obj`status, cluster`runs
      ensures Outcome(Seen(obj), res) == Produce(Ctx(obj.meta, obj.spec, c), old(Seen(obj)), cl)
    {
      hide EffectiveGate, Passes.CreateRun, InFlight, NoGenerator, BackoffDelay, Doubles, Scaled;
      if cl.generator.None? {
        res := ReportNoGenerator(obj, c);
        return;
      }
      var budget, initial, max := EffectiveBackoff(cl);
      if obj.status.failed >= budget {
        Halt(obj, Degraded, FailureBudgetExhausted);
        return AfterAbout(10 * obj.spec.Interval());
      }
      if obj.status.ref.Some? {
        res := CheckRun(obj, c, cl, obj.status.ref.value, budget, initial, max);
        return;
      }
      if obj.status.lastFailure.Some? && obj.status.failed > 0 {
        var delay, _ := ComputeBackoff(obj.status.failed, initial, max);
        var next := obj.status.lastFailure.value + delay;
        if c.now < next {
          Proceed(obj, StateGenerating, BackoffPending, BackoffPending);
          return After(next - c.now + SECOND);
        }
      }
      res := CreateRun(obj, c, cl, t);
    }

    /** A Full Artifact under a class without a generator. */
    method ReportNoGenerator(obj: Working, c: Calls) returns (res: Result)
      modifies this`journal, obj`status, cluster`runs
      ensures Outcome(Seen(obj), res) == NoGenerator(Ctx(obj.meta, obj.spec, c), old(Seen(obj)))
    {
      hide Cancel;
      if obj.status.ref.Some? {
        var gone := CancelRun(obj, c);
        if !gone {
          return Error;
        }
      }
      Halt(obj, Degraded, GeneratorNotConfigured);
      return AfterAbout(obj.spec.Interval());
    }

    /** A run is in flight: read it and judge it. */
    method CheckRun(obj: Working, c: Calls, cl: Class, ref: RunRef, budget: nat, initial: int, max: int)
        returns (res: Result)
      requires Int64(initial) && Int64(max) && Gate(budget, initial, max) == EffectiveGate(cl)
      modifies this`journal, obj`status, cluster`runs
      ensures Outcome(Seen(obj), res) == InFlight(Ctx(obj.meta, obj.spec, c), old(Seen(obj)), cl, ref)
    {
      hide EffectiveGate, Evaluate;
      if !c.runGetOk {
        return Error;
      }
      if ref !in cluster.runs {
        journal := journal + [Vanished(obj.status.attempts)];
        obj.status := obj.status.(ref := None);
        obj.status := obj.status.(succeededAt := None);
        return After(SECOND);
      }
      res := EvaluateRun(obj, c, cl, ref, cluster.runs[ref], budget, initial, max);
    }

    // -------------------------------------------- reconcileMissingObserved

    method ReconcileMissingObserved(obj: Working, c: Calls) returns (res: Result)
      modifies this`journal, obj`status
      ensures Outcome(Seen(obj), res) == ObservedMissingPass(Ctx(obj.meta, obj.spec, c), old(Seen(obj)))
    {
      obj.status := obj.status.(failed := 0);
      obj.status := obj.status.(lastFailure := None);
      var cond := obj.status.cond.(generatorSucceeded := Absent);
      obj.status := obj.status.(digest := "");
      obj.status := obj.status.(state := Missing);
      cond := cond.(reconciling := Absent, stalled := Absent);
      cond := cond.(inStore := MarkFalse(ArtifactMissing));
      cond := cond.(ready := MarkFalse(ArtifactMissing));
      obj.status := obj.status.(cond := cond);
      journal := journal + [ObservedAbsent];
      return AfterAbout(obj.spec.Interval());
    }

    // --------------------------------------------------- reconcileExisting

    method RecordDrift(obj: Working, cl: Class, ghost found: Object)
      modifies this`journal, obj`status
      ensures Seen(obj) == Passes.RecordDrift(old(Seen(obj)), cl, found)
    {
      if cl.DriftPolicy() == Ignore {
        return;
      }
      journal := journal + [DriftReported(obj.status.digest, found.digest)];
      obj.status := obj.status.(cond := obj.status.cond.(drifted := MarkTrue(ContentDrifted)));
    }

    method ReconcileExisting(obj: Working, c: Calls, cl: Class, found: Object, t: Templates) returns (res: Result)
      requires Agrees(c, cl, t)
      modifies this`journal, obj`status, cluster`runs
      ensures Outcome(Seen(obj), res) == ExistingPass(Ctx(obj.meta, obj.spec, c), old(Seen(obj)), cl, found)
    {
      hide Agrees, MissingPass, Verify, Passes.RecordDrift;
      var stamp := Stamp(found, cl.stampKey);
      if stamp != "" && stamp != obj.meta.identityHash {
        obj.status := obj.status.(state := StateConflict);
        obj.status := obj.status.(cond := obj.status.cond.(reconciling := Absent, inStore := MarkFalse(KeyConflict)));
        obj.MarkNotReady(KeyConflict);
        return AfterAbout(obj.spec.Interval());
      }
      var ours := obj.status.succeededAt.Some? || obj.status.ref.Some?;
      if found.digest != "" && obj.status.digest != "" && found.digest != obj.status.digest && !ours {
        RecordDrift(obj, cl, found);
        if cl.DriftPolicy() == Regenerate && !obj.spec.observe {
          obj.status := obj.status.(digest := "");
          res := ReconcileMissing(obj, c, cl, t);
          return;
        }
      } else if found.digest != "" && found.digest != obj.status.digest {
        obj.status := obj.status.(cond := obj.status.cond.(drifted := Absent));
      }
      res := MarkVerified(obj, c, found);
    }

    /** The object stands: Ready, with a fresh baseline and a full budget. */
    method MarkVerified(obj: Working, c: Calls, found: Object) returns (res: Result)
      modifies this`journal, obj`status
      ensures Outcome(Seen(obj), res) == Verify(Ctx(obj.meta, obj.spec, c), old(Seen(obj)), found)
    {
      journal := journal + [Verified(found.digest, TrackedAttempt(TrackerOf(obj.status)))];
      obj.status := obj.status.(digest := found.digest, lastVerified := Some(c.now));
      obj.status := obj.status.(failed := 0, lastFailure := None);
      obj.status := obj.status.(ref := None, succeededAt := None);
      obj.status := obj.status.(state := Ready);
      var cond := obj.status.cond.(reconciling := Absent, stalled := Absent);
      cond := cond.(inStore := MarkTrue(ArtifactAvailable));
      cond := cond.(ready := MarkTrue(ArtifactAvailable));
      obj.status := obj.status.(cond := cond);
      return AfterAbout(obj.spec.Interval());
    }

    // ---------------------------------------------------- reconcileExpired

    method ReconcileExpired(obj: Working, c: Calls, cl: Class, key: string) returns (res: Result)
      modifies this`journal, obj`status, store`objects
      ensures Outcome(Seen(obj), res) == ExpiredPass(Ctx(obj.meta, obj.spec, c), old(Seen(obj)), cl, key)
    {
      hide Retire;
      if !c.observeOk {
        obj.MarkNotReady(StoreUnavailable);
        return AfterAbout(MINUTE);
      }
      var found := store.Observe(key);
      if found.Some? {
        var stamp := Stamp(found.value, cl.stampKey);
        if stamp == "" || stamp == obj.meta.identityHash {
          var deleted := store.Delete(key);
          if !deleted {
            obj.MarkNotReady(StoreUnavailable);
            return AfterAbout(MINUTE);
          }
        }
      }
      Park(obj);
      if obj.spec.ttl.Some? && obj.spec.ttl.value > 0 {
        var remaining := obj.spec.ttl.value - (c.now - obj.meta.createdAt);
        if remaining > 0 {
          return After(remaining + SECOND);
        }
        return After(SECOND);
      }
      return Done;
    }

    /** Parks the Artifact as Expired. */
    method Park(obj: Working)
      modifies this`journal, obj`status
      ensures Seen(obj) == Retire(old(Seen(obj)))
    {
      journal := journal + [Retired(TrackedAttempt(TrackerOf(obj.status)))];
      obj.status := obj.status.(state := StateExpired, digest := "");
      obj.status := obj.status.(ref := None, succeededAt := None);
      var cond := obj.status.cond.(reconciling := Absent, stalled := Absent);
      cond := cond.(inStore := MarkFalse(Expired));
      cond := cond.(ready := MarkFalse(Expired));
      obj.status := obj.status.(cond := cond);
    }

    // ----------------------------------------------------------- reconcile

    /** The Artifact is still stored, with the finalizer its copy shows. */
    predicate Loaded(obj: Working)
      reads obj, cluster
    {
      obj.meta.uid in cluster.artifacts && cluster.artifacts[obj.meta.uid].finalizer == obj.finalizer
    }

    method ReconcilePresent(obj: Working, c: Calls, t: Templates) returns (res: Result)
      requires c.lookup.Found? ==> Agrees(c, c.lookup.def, t)
      requires Loaded(obj) && obj.finalizer
      modifies this`journal, obj`status, cluster, store`objects
      ensures Outcome(Seen(obj), res) == ReconcilePass(Ctx(obj.meta, obj.spec, c), old(Seen(obj)))
      ensures OnlyMarked(obj.meta.uid, old(cluster.artifacts), cluster.artifacts)
    {
      hide Agrees, WithClass, Cancel;
      if obj.status.state == NoState {
        obj.status := obj.status.(state := Pending);
      }
      assert Seen(obj) == Begin(old(Seen(obj)));
      if obj.spec.suspend {
        obj.status := obj.status.(state := StateSuspended);
        obj.status := obj.status.(cond := obj.status.cond.(reconciling := Absent));
        obj.MarkNotReady(Suspended);
        return Done;
      }
      HonourToken(obj, c);
      if obj.spec.observe && obj.status.ref.Some? {
        var gone := CancelRun(obj, c);
        if !gone {
          return Error;
        }
      }
      res := ReconcileClass(obj, c, t);
    }

    /** Resets the failure budget once per retry token. */
    method HonourToken(obj: Working, c: Calls)
      modifies this`journal, obj`status
      ensures Seen(obj) == HonourRetry(Ctx(obj.meta, obj.spec, c), old(Seen(obj)))
    {
      var token := obj.spec.retry;
      if token != "" && token != obj.status.retryToken {
        obj.status := obj.status.(retryToken := token);
        obj.status := obj.status.(failed := 0);
        obj.status := obj.status.(lastFailure := None);
        obj.status := obj.status.(cond := obj.status.cond.(stalled := Absent));
        journal := journal + [RetryHonoured];
      }
    }

    /** Reads the class and renders the key. */
    method ReconcileClass(obj: Working, c: Calls, t: Templates) returns (res: Result)
      requires c.lookup.Found? ==> Agrees(c, c.lookup.def, t)
      requires Loaded(obj) && obj.finalizer
      modifies this`journal, obj`status, cluster, store`objects
      ensures Outcome(Seen(obj), res) == WithClass(Ctx(obj.meta, obj.spec, c), old(Seen(obj)))
      ensures OnlyMarked(obj.meta.uid, old(cluster.artifacts), cluster.artifacts)
    {
      hide WithKey, Render.RenderKey, Render.RenderedKind, EffectiveGate;
      match c.lookup
      case NotFound =>
        obj.MarkNotReady(ClassNotFound);
        return After(30 * SECOND);
      case Unreachable =>
        return Error;
      case Found(cl) =>
        var key := Render.RenderKey(cl.keyTemplate, t.key);
        if key.None? {
          obj.MarkStalled(TemplateError);
          obj.MarkNotReady(TemplateError);
          return Done;
        }
        obj.status := obj.status.(specHash := obj.meta.identityHash);
        obj.status := obj.status.(key := key.value);
        res := ReconcileKey(obj, c, cl, key.value, t);
    }

    /** TTL, driver and expiry, then what the store says. */
    method ReconcileKey(obj: Working, c: Calls, cl: Class, key: string, t: Templates) returns (res: Result)
      requires Agrees(c, cl, t) && Loaded(obj) && obj.finalizer
      modifies this`journal, obj`status, cluster, store`objects
      ensures Outcome(Seen(obj), res) == WithKey(Ctx(obj.meta, obj.spec, c), old(Seen(obj)), cl, key)
      ensures OnlyMarked(obj.meta.uid, old(cluster.artifacts), cluster.artifacts)
    {
      hide Agrees, ExpiredPass, ExistingPass, ObservedMissingPass, MissingPass;
      var age := c.now - obj.meta.createdAt;
      if obj.spec.ttl.Some? && obj.spec.ttl.value > 0 && age >= obj.spec.ttl.value {
        var marked := cluster.DeleteArtifact(obj.meta.uid, c.crDeleteOk);
        return if marked then Done else Error;
      }
      if !c.driverOk {
        obj.MarkNotReady(StoreUnavailable);
        return After(MINUTE);
      }
      if obj.spec.deleteAfter.Some? && obj.spec.deleteAfter.value > 0 && age >= obj.spec.deleteAfter.value
         && !obj.spec.observe
      {
        res := ReconcileExpired(obj, c, cl, key);
        return;
      }
      if !c.observeOk {
        obj.MarkNotReady(StoreUnavailable);
        return AfterAbout(30 * SECOND);
      }
      var found := store.Observe(key);
      if found.Some? {
        res := ReconcileExisting(obj, c, cl, found.value, t);
      } else if obj.spec.observe {
        res := ReconcileMissingObserved(obj, c);
      } else {
        res := ReconcileMissing(obj, c, cl, t);
      }
    }

    // ----------------------------------------------------- reconcileDelete

    method ReconcileDelete(obj: Working, c: Calls) returns (res: Result)
      modifies obj, store`objects
      ensures Outcome(Seen(obj), res) == DeletePass(Ctx(obj.meta, obj.spec, c), old(Seen(obj)))
    {
      if !obj.finalizer {
        return Done;
      }
      if obj.spec.deleteOnRemoval && obj.status.key != "" && !obj.spec.observe && !c.lookup.NotFound? {
        if c.lookup.Unreachable? || !c.driverOk || !c.observeOk {
          return Error;
        }
        var found := store.Observe(obj.status.key);
        if found.Some? {
          var stamp := Stamp(found.value, c.lookup.def.stampKey);
          if stamp == "" || stamp == obj.status.specHash {
            var deleted := store.Delete(obj.status.key);
            if !deleted {
              obj.status := obj.status.(state := Deleting);
              obj.status := obj.status.(cond := obj.status.cond.(deleting := MarkFalse(StoreDeleteFailed)));
              obj.MarkNotReady(StoreDeleteFailed);
              return Error;
            }
          }
        }
      }
      obj.finalizer := false;
      return Done;
    }

    // ----------------------------------------------------------- Reconcile

    /** Cluster and store are those of a world. */
    ghost predicate Matches(w: Worlds.World)
      reads cluster, store
    {
      cluster.artifacts == w.artifacts && cluster.runs == w.runs && store.objects == w.objects
      && store.refusing == w.refusing
    }

    /** One whole pass is one step of the system, patch landed or lost. */
    method Reconcile(u: Uid, c: Calls, t: Templates, lands: bool, ghost w: Worlds.World, ghost draw: Draw)
        returns (res: Result)
      requires Matches(w) && (c.lookup.Found? ==> Agrees(c, c.lookup.def, t))
      requires u in w.artifacts ==> w.artifacts[u].meta.uid == u && Live(w.artifacts[u])
      modifies this, cluster, store
      ensures Matches(Worlds.Next(w, Worlds.Reconcile(u, c, lands, draw)))
      ensures u in w.artifacts ==> res == if lands then Worlds.OutcomeOf(w, u, c).result else Error
      ensures u !in w.artifacts ==> res == Done
    {
      hide Agrees, DeletePass, ReconcilePass, Worlds.Recorded, Persist;
      if u !in cluster.artifacts {
        return Done;
      }
      var obj := new Working(cluster.artifacts[u]);
      journal := [];
      assert Seen(obj) == Worlds.ViewOf(w, u);
      if cluster.artifacts[u].deleting {
        res := ReconcileDelete(obj, c);
      } else if !obj.finalizer {
        obj.finalizer := true;
        res := After(10_000_000);
      } else {
        res := ReconcilePresent(obj, c, t);
      }
      assert Outcome(Seen(obj), res) == Worlds.OutcomeOf(w, u, c);
      cluster.Patch(u, obj, lands);
      if !lands {
        res := Error;
      }
    }
  }

  /** A stored Artifact is not both marked for deletion and free of its finalizer. */
  predicate Live(a: Artifact) { a.deleting ==> a.finalizer }

  /** At most the deletion mark of one Artifact differs. */
  predicate OnlyMarked(u: Uid, was: map<Uid, Artifact>, now: map<Uid, Artifact>) {
    u in was && (now == was || now == was[u := was[u].(deleting := true)])
  }

  predicate LiveAt(w: Worlds.World, u: Uid) {
    u in w.artifacts ==> Live(w.artifacts[u])
  }

  lemma LiveStep(w: Worlds.World, a: Worlds.Action, u: Uid)
    requires LiveAt(w, u)
    ensures LiveAt(Worlds.Next(w, a), u)
  {
    hide Worlds.OutcomeOf, Worlds.Recorded, Worlds.Patched;
  }

  /** Every reachable state meets what `Reconcile` asks of the Artifact it is called for. */
  lemma ReachableIsLive(ws: seq<Worlds.World>, acts: seq<Worlds.Action>, n: nat, u: Uid)
    requires Worlds.Execution(ws, acts) && Worlds.Empty(ws[0]) && n < |ws|
    ensures u in ws[n].artifacts ==> ws[n].artifacts[u].meta.uid == u && Live(ws[n].artifacts[u])
  {
    hide Worlds.Next, LiveAt, History.Booked;
    forall w, a | LiveAt(w, u) && Worlds.Enabled(w, a) ensures LiveAt(Worlds.Next(w, a), u) {
      LiveStep(w, a, u);
    }
    assert LiveAt(ws[0], u) by { EmptyIsLive(ws[0], u); }
    Worlds.Throughout(ws, acts, w => LiveAt(w, u), (w, a) => true, n);
    Accounting.AlwaysBooked(ws, acts, n);
    assert History.BookedAt(ws[n], u);
    LiveMeans(ws[n], u);
  }

  lemma EmptyIsLive(w: Worlds.World, u: Uid)
    requires Worlds.Empty(w)
    ensures LiveAt(w, u)
  {
  }

  lemma LiveMeans(w: Worlds.World, u: Uid)
    requires LiveAt(w, u)
    ensures u in w.artifacts ==> Live(w.artifacts[u])
  {
  }
}
