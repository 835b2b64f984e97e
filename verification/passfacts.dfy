/**
 What one pass keeps and does, on every branch and whatever the outside world answers.
 The relation `Kept` ties the view a pass started from to the view at any later point of
 the same pass; every operation of the pass preserves it.
 */
module PassFacts {
  import opened Api
  import opened Journal
  import opened Names
  import opened Passes

  /** Status coherence. */
  predicate Coherent(st: Status) {
    && !(IsTrue(st.cond.stalled) && IsTrue(st.cond.reconciling))
    && (IsTrue(st.cond.ready) ==>
          st.state == Ready && st.failed == 0 && st.lastFailure.None?
          && !IsTrue(st.cond.stalled) && !IsTrue(st.cond.reconciling))
    && (st.failed > 0 <==> st.lastFailure.Some?)
    && (st.succeededAt.Some? ==> st.ref.Some?)
  }

  /** A rendered key goes with the hash of the immutable identity. */
  predicate Hashed(m: Meta, st: Status) {
    st.key != "" ==> st.specHash == m.identityHash
  }

  /** A property of (counters, journal so far) that every legal event keeps. */
  type Invariant = (Tracker, seq<Event>) -> bool

  ghost predicate Closed(p: Invariant) {
    && (forall t, j :: p(t, j) ==> Settled(t))
    && (forall t, j, e :: p(t, j) && Legal(t, e) ==> p(Apply(t, e), j + [e]))
  }

  predicate Journalled(p: Invariant, v: View) {
    p(TrackerOf(Persist(v.status)), v.journal)
  }

  // ------------------------------------------------------- effects on the runs

  /** The pass ended by starting a run, fresh or adopted. */
  predicate StartsRun(j: seq<Event>, adopted: bool) {
    |j| > 0 && j[|j| - 1].Started? && j[|j| - 1].adopted == adopted
  }

  predicate SameRuns(a: View, v: View) {
    v.runs == a.runs && v.status.attempts == a.status.attempts
    && !StartsRun(v.journal, true) && !StartsRun(v.journal, false)
  }

  /** The run tracked at the start has been deleted and let go. */
  predicate RemovedRun(a: View, v: View) {
    a.status.ref.Some? && v.runs == a.runs - {a.status.ref.value}
    && v.status.ref.None? && v.status.attempts == a.status.attempts
    && !StartsRun(v.journal, true) && !StartsRun(v.journal, false)
  }

  predicate NextRun(x: Ctx, a: View, v: View) {
    && !x.sp.observe && a.status.ref.None? && v.status.ref.Some? && v.status.attempts == a.status.attempts + 1
    && v.status.ref.value.name == RunName(x.m, v.status.attempts) && x.c.runKind == Some(v.status.ref.value.kind)
  }

  predicate AdoptedRun(x: Ctx, a: View, v: View) {
    && NextRun(x, a, v) && v.runs == a.runs && StartsRun(v.journal, true)
    && v.status.ref.value in a.runs && a.runs[v.status.ref.value].owner == Some(x.m.uid)
  }

  predicate CreatedRun(x: Ctx, a: View, v: View) {
    && NextRun(x, a, v) && StartsRun(v.journal, false)
    && v.status.ref.value !in a.runs
    && v.runs == a.runs[v.status.ref.value := Run(Some(x.m.uid), v.status.attempts, Some(Truncate(x.c.now)))]
  }

  /** A release that may leave the run behind: the engine called it finished, its artifact
      was verified, it expired, or the deadline could not delete it. */
  predicate LeavesRun(e: Event) {
    e.Verified? || e.Retired? || (e.Charged? && e.cause != Deadline(true))
  }

  /** A tracked run is only let go with a journalled release, and it is gone unless that
      release may leave it behind. */
  ghost predicate LetGo(a: View, v: View) {
    a.status.ref.Some? && v.status.ref.None? ==>
      exists e :: e in v.journal && Releases(e) == Some(a.status.attempts)
                  && (a.status.ref.value in v.runs ==> LeavesRun(e))
  }

  ghost predicate RunEffect(x: Ctx, a: View, v: View) {
    && LetGo(a, v)
    && (|| (SameRuns(a, v) && (v.status.ref == a.status.ref || v.status.ref.None?))
        || RemovedRun(a, v) || AdoptedRun(x, a, v) || CreatedRun(x, a, v))
  }

  // ----------------------------------------------- effects on the store, drift

  /** At most one object is deleted: never under Observe, never while the store refuses,
      and only one that is unstamped or stamped with this identity's hash. */
  ghost predicate StoreEffect(x: Ctx, a: View, v: View) {
    && v.refusing == a.refusing
    && (v.objects == a.objects
        || (!x.sp.observe && !a.refusing && x.c.lookup.Found?
            && exists k :: k in a.objects && v.objects == a.objects - {k}
                           && Own(a.objects[k], x.c.lookup.def.stampKey, x.m.identityHash)))
  }

  predicate HasVerified(j: seq<Event>) {
    exists i :: 0 <= i < |j| && j[i].Verified?
  }

  predicate HasReport(j: seq<Event>) {
    exists i :: 0 <= i < |j| && j[i].DriftReported?
  }

  lemma ReportRemains(j: seq<Event>, e: Event)
    ensures HasReport(j) ==> HasReport(j + [e])
  {
    if HasReport(j) {
      var i :| 0 <= i < |j| && j[i].DriftReported?;
      assert (j + [e])[i] == j[i];
    }
  }

  /** The object at the rendered key. */
  predicate Observed(x: Ctx, a: View) {
    x.c.key.Some? && x.c.key.value in a.objects
  }

  /** Unstamped, or stamped with this identity's hash, by the class the pass read. */
  predicate Recognized(x: Ctx, o: Object) {
    x.c.lookup.Found? && Own(o, x.c.lookup.def.stampKey, x.m.identityHash)
  }

  ghost predicate DriftEffect(x: Ctx, a: View, v: View) {
    && (HasVerified(v.journal) ==>
          Observed(x, a) && v.objects == a.objects && v.status.key == x.c.key.value
          && v.status.digest == a.objects[x.c.key.value].digest && Recognized(x, a.objects[x.c.key.value]))
    && (!HasVerified(v.journal) ==> v.status.digest == a.status.digest || v.status.digest == "")
    && (forall i :: 0 <= i < |v.journal| && v.journal[i].DriftReported? ==>
          Observed(x, a) && v.journal[i].found == a.objects[x.c.key.value].digest
          && v.journal[i].was == a.status.digest)
    && (IsTrue(a.status.cond.drifted) && !IsTrue(v.status.cond.drifted) ==>
          a.status.digest == "" && HasVerified(v.journal))
    && (!IsTrue(a.status.cond.drifted) && IsTrue(v.status.cond.drifted) ==> HasReport(v.journal))
  }

  /** Events are dated by the pass; starts and charges are gated by the class it read. */
  predicate Gated(x: Ctx, e: Event) {
    && (e.Started? ==> x.c.lookup.Found? && e.gate == EffectiveGate(x.c.lookup.def) && e.now == x.c.now)
    && (e.Charged? ==> x.c.lookup.Found? && e.gate == EffectiveGate(x.c.lookup.def) && e.now == x.c.now)
    && (e.FirstSuccess? ==> e.now == x.c.now)
  }

  predicate AllGated(x: Ctx, j: seq<Event>) {
    forall i :: 0 <= i < |j| ==> Gated(x, j[i])
  }

  /** Everything a pass keeps. */
  ghost predicate Kept(p: Invariant, x: Ctx, a: View, v: View) {
    && Coherent(v.status) && Hashed(x.m, v.status) && Journalled(p, v)
    && RunEffect(x, a, v) && StoreEffect(x, a, v) && DriftEffect(x, a, v) && AllGated(x, v.journal)
  }

  // ------------------------------------------------- operations that keep it

  /** Only conditions (but not the drift condition) and the display state differ. */
  predicate Cosmetic(v: View, w: View) {
    w == v.With(v.status.(state := w.status.state, cond := w.status.cond))
    && w.status.cond.drifted == v.status.cond.drifted
  }

  lemma CosmeticKept(p: Invariant, x: Ctx, a: View, v: View, w: View)
    requires Kept(p, x, a, v) && Cosmetic(v, w) && Coherent(w.status)
    ensures Kept(p, x, a, w)
  {
    hide Coherent, Own;
    assert TrackerOf(Persist(w.status)) == TrackerOf(Persist(v.status));
    assert RunEffect(x, a, w);
  }

  lemma NotReadyKept(p: Invariant, x: Ctx, a: View, v: View, r: Reason)
    requires Kept(p, x, a, v)
    ensures Kept(p, x, a, v.NotReady(r))
  {
    hide RunEffect, StoreEffect, DriftEffect, Journalled;
    CosmeticKept(p, x, a, v, v.NotReady(r));
  }

  lemma StallKept(p: Invariant, x: Ctx, a: View, v: View, r: Reason, s: State)
    requires Kept(p, x, a, v)
    ensures Kept(p, x, a, v.Stall(r).In(s))
  {
    hide RunEffect, StoreEffect, DriftEffect, Journalled;
    CosmeticKept(p, x, a, v, v.Stall(r).In(s));
  }

  lemma ProgressKept(p: Invariant, x: Ctx, a: View, v: View, r: Reason, q: Reason, s: State)
    requires Kept(p, x, a, v)
    ensures Kept(p, x, a, v.Progress(r, q).In(s))
  {
    hide RunEffect, StoreEffect, DriftEffect, Journalled;
    CosmeticKept(p, x, a, v, v.Progress(r, q).In(s));
  }

  /** What an event other than a verification or a drift report has to respect. */
  ghost predicate Emits(x: Ctx, a: View, v: View, w: View, e: Event) {
    && w.journal == v.journal + [e] && !e.Verified? && !e.DriftReported? && !HasVerified(v.journal)
    && Legal(TrackerOf(Persist(v.status)), e)
    && TrackerOf(Persist(w.status)) == Apply(TrackerOf(Persist(v.status)), e)
    && Coherent(w.status) && Hashed(x.m, w.status) && RunEffect(x, a, w) && Gated(x, e)
    && w.objects == v.objects && w.refusing == v.refusing
    && w.status.cond.drifted == v.status.cond.drifted
    && (w.status.digest == v.status.digest || w.status.digest == "")
  }

  lemma JournalledByEvent(p: Invariant, v: View, w: View, e: Event)
    requires Closed(p) && Journalled(p, v) && w.journal == v.journal + [e]
    requires Legal(TrackerOf(Persist(v.status)), e)
    requires TrackerOf(Persist(w.status)) == Apply(TrackerOf(Persist(v.status)), e)
    ensures Journalled(p, w)
  {
    hide Settled;
  }

  lemma Settles(p: Invariant, v: View)
    requires Closed(p) && Journalled(p, v)
    ensures Settled(TrackerOf(Persist(v.status)))
  {
    hide Settled;
  }

  lemma EventKept(p: Invariant, x: Ctx, a: View, v: View, w: View, e: Event)
    requires Closed(p) && Kept(p, x, a, v) && Emits(x, a, v, w, e)
    ensures Kept(p, x, a, w)
  {
    hide Closed, Coherent, Own, Legal, Apply, Persist, RunEffect, Gated, HasReport, Recognized;
    JournalledByEvent(p, v, w, e);
    ReportRemains(v.journal, e);
    assert !HasVerified(w.journal);
    assert DriftEffect(x, a, w);
  }

  // ------------------------------------------ judging the run in flight

  predicate Untouched(a: View, v: View) {
    v.runs == a.runs && v.status.ref == a.status.ref && v.status.attempts == a.status.attempts
  }

  /** On the missing path of a Full pass, before anything was started or let go. */
  ghost predicate Producing(p: Invariant, x: Ctx, a: View, v: View) {
    && Closed(p) && Kept(p, x, a, v) && Untouched(a, v) && !x.sp.observe
    && v.status.digest == "" && !HasVerified(v.journal)
  }

  /** Letting the tracked run go: what remains to show is the effect on the runs. */
  lemma ReleaseEffect(x: Ctx, a: View, v: View, w: View, e: Event)
    requires a.status.ref.Some? && w.status.ref.None? && w.status.attempts == a.status.attempts
    requires w.journal == v.journal + [e] && Releases(e) == Some(a.status.attempts)
    requires w.runs == a.runs - {a.status.ref.value}
             || (w.runs == a.runs && (a.status.ref.value in a.runs ==> LeavesRun(e)))
    ensures RunEffect(x, a, w)
  {
    assert e in w.journal;
    assert w.journal[|w.journal| - 1] == e;
    assert !StartsRun(w.journal, true) && !StartsRun(w.journal, false);
  }

  /** A charge that ends with Ready turned False. */
  lemma ChargeKept(p: Invariant, x: Ctx, a: View, v: View, w: View, runs: map<RunRef, Run>, g: Gate, reason: Reason,
                   cause: Cause)
    requires Producing(p, x, a, v) && v.status.ref.Some? && v.status.failed < g.budget
    requires runs == if cause == Deadline(true) then v.runs - {v.status.ref.value} else v.runs
    requires Cosmetic(Charge(x, v.(runs := runs), g, reason, cause), w)
    requires !IsTrue(w.status.cond.ready) && !(IsTrue(w.status.cond.stalled) && IsTrue(w.status.cond.reconciling))
    requires x.c.lookup.Found? && g == EffectiveGate(x.c.lookup.def)
    ensures Kept(p, x, a, w)
  {
    var e := Charged(v.status.attempts, cause, x.c.now, g);
    ReleaseEffect(x, a, v, w, e);
    hide Closed, Journalled, RunEffect, StoreEffect, DriftEffect;
    EventKept(p, x, a, v, w, e);
  }

  lemma FailureKept(p: Invariant, x: Ctx, a: View, v: View, runs: map<RunRef, Run>, g: Gate, reason: Reason,
                    cause: Cause)
    requires Producing(p, x, a, v) && v.status.ref.Some? && v.status.failed < g.budget
    requires runs == if cause == Deadline(true) then v.runs - {v.status.ref.value} else v.runs
    requires x.c.lookup.Found? && g == EffectiveGate(x.c.lookup.def)
    ensures Kept(p, x, a, Failure(x, v.(runs := runs), g, reason, cause).view)
  {
    hide Kept, Producing;
    var ch := Charge(x, v.(runs := runs), g, reason, cause);
    if v.status.failed + 1 >= g.budget {
      ChargeKept(p, x, a, v, ch.Stall(FailureBudgetExhausted).In(Degraded), runs, g, reason, cause);
    } else {
      ChargeKept(p, x, a, v, ch.Progress(BackoffPending, reason).In(StateGenerating), runs, g, reason, cause);
    }
  }

  lemma NoteSuccessKept(p: Invariant, x: Ctx, a: View, v: View)
    requires Producing(p, x, a, v) && v.status.ref.Some?
    ensures Producing(p, x, a, NoteSuccess(x, v))
    ensures NoteSuccess(x, v).status.ref == v.status.ref && NoteSuccess(x, v).status.failed == v.status.failed
  {
    var w := NoteSuccess(x, v);
    if v.status.succeededAt.None? {
      var e := FirstSuccess(x.c.now);
      assert w.journal == v.journal + [e] && w.journal[|w.journal| - 1] == e;
      assert RunEffect(x, a, w) by {
        assert SameRuns(a, w) && LetGo(a, w);
      }
      hide Closed, Journalled, RunEffect, StoreEffect, DriftEffect;
      EventKept(p, x, a, v, w, e);
    }
  }

  lemma AwaitKept(p: Invariant, x: Ctx, a: View, v: View, cl: Class)
    requires Producing(p, x, a, v) && v.status.ref.Some? && v.status.succeededAt.Some?
    requires v.status.failed < EffectiveGate(cl).budget
    requires x.c.lookup == Found(cl)
    ensures Kept(p, x, a, Await(x, v, cl).view)
  {
    assert v.(runs := v.runs) == v;
    ProgressKept(p, x, a, v, AwaitingArtifact, AwaitingArtifact, StateAwaiting);
    FailureKept(p, x, a, v, v.runs, EffectiveGate(cl), SucceededWithoutArtifact, NoArtifact);
    hide Kept, Producing, Failure, EffectiveGate;
  }

  lemma EvaluateKept(p: Invariant, x: Ctx, a: View, v: View, cl: Class, run: Run)
    requires Producing(p, x, a, v) && v.status.ref.Some? && v.status.failed < EffectiveGate(cl).budget
    requires x.c.lookup == Found(cl)
    ensures Kept(p, x, a, Evaluate(x, v, cl, v.status.ref.value, run).view)
  {
    assert v.(runs := v.runs) == v;
    hide Kept, Producing, Failure, EffectiveGate, Await, NoteSuccess;
    if x.c.failedWhen {
      FailureKept(p, x, a, v, v.runs, EffectiveGate(cl), GeneratorFailed, ReportedFailure);
    } else if x.c.succeededWhen {
      NoteSuccessKept(p, x, a, v);
      AwaitKept(p, x, a, NoteSuccess(x, v), cl);
    } else if 0 < cl.ProgressDeadline() < x.c.now - RunStart(x.m, v.status, run) {
      var runs := if x.c.runDeleteOk then v.runs - {v.status.ref.value} else v.runs;
      FailureKept(p, x, a, v, runs, EffectiveGate(cl), ProgressDeadlineExceeded, Deadline(x.c.runDeleteOk));
    } else {
      assert Kept(p, x, a, v) by { ProducingKept(p, x, a, v); }
      ProgressKept(p, x, a, v, Generating, Generating, StateGenerating);
      ProgressKept(p, x, a, v, StatusUnrecognized, StatusUnrecognized, StateGenerating);
    }
  }

  lemma ProducingKept(p: Invariant, x: Ctx, a: View, v: View)
    requires Producing(p, x, a, v)
    ensures Kept(p, x, a, v) && Closed(p)
  {
    hide Kept, Closed;
  }

  lemma InFlightKept(p: Invariant, x: Ctx, a: View, v: View, cl: Class)
    requires Producing(p, x, a, v) && v.status.ref.Some? && v.status.failed < EffectiveGate(cl).budget
    requires x.c.lookup == Found(cl)
    ensures Kept(p, x, a, InFlight(x, v, cl, v.status.ref.value).view)
  {
    ProducingKept(p, x, a, v);
    var ref := v.status.ref.value;
    if !x.c.runGetOk {
    } else if ref !in v.runs {
      VanishKept(p, x, a, v);
      hide Kept, Producing;
    } else {
      EvaluateKept(p, x, a, v, cl, v.runs[ref]);
      hide Kept, Producing, Evaluate;
    }
  }

  lemma VanishKept(p: Invariant, x: Ctx, a: View, v: View)
    requires Producing(p, x, a, v) && v.status.ref.Some? && v.status.ref.value !in v.runs
    ensures Kept(p, x, a, v.With(v.status.(ref := None, succeededAt := None)).Emit(Vanished(v.status.attempts)))
  {
    var e := Vanished(v.status.attempts);
    var w := v.With(v.status.(ref := None, succeededAt := None)).Emit(e);
    ReleaseEffect(x, a, v, w, e);
    hide Closed, Journalled, RunEffect, StoreEffect, DriftEffect;
    EventKept(p, x, a, v, w, e);
  }

  // ------------------------------------------------- starting and cancelling

  /** The view once a run was started, whatever the conditions say. */
  lemma StartEffect(x: Ctx, a: View, v: View, w: View, e: Event)
    requires Untouched(a, v) && v.status.ref.None? && x.c.runKind.Some? && !x.sp.observe
    requires e.Started? && w.journal == v.journal + [e]
    requires w.status.attempts == a.status.attempts + 1
    requires w.status.ref == Some(RunRef(x.c.runKind.value, RunName(x.m, w.status.attempts)))
    requires e.adopted ==>
               w.runs == a.runs && w.status.ref.value in a.runs && a.runs[w.status.ref.value].owner == Some(x.m.uid)
    requires !e.adopted ==> w.status.ref.value !in a.runs
                            && w.runs == a.runs[w.status.ref.value := Run(Some(x.m.uid), w.status.attempts,
                                                                          Some(Truncate(x.c.now)))]
    ensures RunEffect(x, a, w)
  {
    hide RunName;
    assert w.journal[|w.journal| - 1] == e;
  }

  lemma StartKept(p: Invariant, x: Ctx, a: View, v: View, cl: Class, ref: RunRef)
    requires Producing(p, x, a, v) && v.status.ref.None? && Persist(v.status) == v.status
    requires v.status.failed < EffectiveGate(cl).budget && GateOpen(TrackerOf(v.status), x.c.now, EffectiveGate(cl))
    requires x.c.runKind.Some? && ref == RunRef(x.c.runKind.value, RunName(x.m, v.status.attempts + 1))
             && ref !in v.runs
    requires x.c.lookup == Found(cl)
    ensures Kept(p, x, a, Start(x, v, cl, ref).Progress(Generating, Generating).In(StateGenerating))
  {
    hide EffectiveGate, RunName, GateOpen;
    var e := Started(v.status.attempts + 1, ref, false, x.c.now, EffectiveGate(cl));
    var w := Start(x, v, cl, ref).Progress(Generating, Generating).In(StateGenerating);
    assert w.journal == v.journal + [e];
    StartEffect(x, a, v, w, e);
    hide Closed, Journalled, RunEffect, StoreEffect, DriftEffect;
    EventKept(p, x, a, v, w, e);
  }

  lemma AdoptKept(p: Invariant, x: Ctx, a: View, v: View, cl: Class, ref: RunRef)
    requires Producing(p, x, a, v) && v.status.ref.None? && Persist(v.status) == v.status
    requires v.status.failed < EffectiveGate(cl).budget && GateOpen(TrackerOf(v.status), x.c.now, EffectiveGate(cl))
    requires x.c.runKind.Some? && ref == RunRef(x.c.runKind.value, RunName(x.m, v.status.attempts + 1))
    requires ref in v.runs && v.runs[ref].owner == Some(x.m.uid)
    requires x.c.lookup == Found(cl)
    ensures Kept(p, x, a, Adopt(x, v, cl, ref))
  {
    hide EffectiveGate, RunName, GateOpen;
    var e := Started(v.status.attempts + 1, ref, true, x.c.now, EffectiveGate(cl));
    var w := Adopt(x, v, cl, ref);
    assert w.journal == v.journal + [e];
    StartEffect(x, a, v, w, e);
    hide Closed, Journalled, RunEffect, StoreEffect, DriftEffect;
    EventKept(p, x, a, v, w, e);
  }

  lemma CreateRunKept(p: Invariant, x: Ctx, a: View, v: View, cl: Class)
    requires Producing(p, x, a, v) && v.status.ref.None? && Persist(v.status) == v.status
    requires v.status.failed < EffectiveGate(cl).budget && GateOpen(TrackerOf(v.status), x.c.now, EffectiveGate(cl))
    requires x.c.lookup == Found(cl)
    ensures Kept(p, x, a, CreateRun(x, v, cl).view)
  {
    hide Kept, Producing, EffectiveGate, RunName, GateOpen, Start, Adopt, Persist;
    ProducingKept(p, x, a, v);
    if x.c.runKind.None? {
      StallKept(p, x, a, v, TemplateError, v.status.state);
      assert v.Stall(TemplateError).In(v.status.state) == v.Stall(TemplateError);
    } else if !x.c.ownerRefOk {
    } else if !x.c.createOk {
      NotReadyKept(p, x, a, v, GeneratorFailed);
    } else {
      var ref := RunRef(x.c.runKind.value, RunName(x.m, v.status.attempts + 1));
      if ref !in v.runs {
        StartKept(p, x, a, v, cl, ref);
      } else if x.c.existingGetOk && v.runs[ref].owner == Some(x.m.uid) {
        AdoptKept(p, x, a, v, cl, ref);
      } else {
        NotReadyKept(p, x, a, v, GeneratorFailed);
      }
    }
  }

  lemma CancelKept(p: Invariant, x: Ctx, a: View, v: View)
    requires Closed(p) && Kept(p, x, a, v) && Untouched(a, v) && v.status.ref.Some? && !HasVerified(v.journal)
    ensures Kept(p, x, a, Cancel(v))
    ensures !HasVerified(Cancel(v).journal)
  {
    var e := Cancelled(v.status.attempts);
    ReleaseEffect(x, a, v, Cancel(v), e);
    hide Closed, Journalled, RunEffect, StoreEffect, DriftEffect;
    EventKept(p, x, a, v, Cancel(v), e);
  }

  lemma NoGeneratorKept(p: Invariant, x: Ctx, a: View, v: View)
    requires Producing(p, x, a, v)
    ensures Kept(p, x, a, NoGenerator(x, v).view)
  {
    ProducingKept(p, x, a, v);
    if v.status.ref.Some? && !x.c.runDeleteOk {
    } else if v.status.ref.Some? {
      CancelKept(p, x, a, v);
      hide Kept, Producing, Cancel;
      StallKept(p, x, a, Cancel(v), GeneratorNotConfigured, Degraded);
    } else {
      hide Kept, Producing;
      StallKept(p, x, a, v, GeneratorNotConfigured, Degraded);
    }
  }

  lemma ProduceKept(p: Invariant, x: Ctx, a: View, v: View, cl: Class)
    requires Producing(p, x, a, v) && Persist(v.status) == v.status
    requires x.c.lookup == Found(cl)
    ensures Kept(p, x, a, Produce(x, v, cl).view)
  {
    hide Kept, Producing, EffectiveGate, GateOpen, NoGenerator, InFlight, CreateRun, Persist;
    ProducingKept(p, x, a, v);
    if cl.generator.None? {
      NoGeneratorKept(p, x, a, v);
    } else if v.status.failed >= EffectiveGate(cl).budget {
      StallKept(p, x, a, v, FailureBudgetExhausted, Degraded);
    } else if v.status.ref.Some? {
      InFlightKept(p, x, a, v, cl);
    } else if !GateOpen(TrackerOf(v.status), x.c.now, EffectiveGate(cl)) {
      ProgressKept(p, x, a, v, BackoffPending, BackoffPending, StateGenerating);
    } else {
      CreateRunKept(p, x, a, v, cl);
    }
  }

  // -------------------------------------------- the store has been consulted

  /** Before the store's answer has changed anything. */
  ghost predicate Fresh(p: Invariant, x: Ctx, a: View, v: View) {
    && Closed(p) && Kept(p, x, a, v) && Persist(v.status) == v.status && !HasVerified(v.journal)
    && v.objects == a.objects && v.status.digest == a.status.digest && v.status.attempts == a.status.attempts
    && (IsTrue(a.status.cond.drifted) ==> IsTrue(v.status.cond.drifted))
    && (if x.sp.observe then v.status.ref.None? else Untouched(a, v))
  }

  lemma FreshKept(p: Invariant, x: Ctx, a: View, v: View)
    requires Fresh(p, x, a, v)
    ensures Closed(p) && Kept(p, x, a, v)
  {
    hide Closed, Kept;
  }

  lemma SameStore(x: Ctx, v: View)
    ensures StoreEffect(x, v, v)
  {
  }

  /** The relation may be restarted at any fresh point of the pass. */
  lemma Restart(p: Invariant, x: Ctx, a: View, v: View)
    requires Fresh(p, x, a, v)
    ensures Fresh(p, x, v, v)
  {
    hide Closed, Coherent, Own, Journalled, StoreEffect;
    SameStore(x, v);
    assert !StartsRun(v.journal, true) && !StartsRun(v.journal, false);
    assert RunEffect(x, v, v);
    assert DriftEffect(x, v, v);
  }

  /** An event that starts nothing and lets nothing go leaves the effect on the runs as it was. */
  lemma AppendEffect(x: Ctx, a: View, v: View, w: View, e: Event)
    requires RunEffect(x, a, v) && v.status.attempts == a.status.attempts && !e.Started?
    requires w.runs == v.runs && w.status.ref == v.status.ref && w.status.attempts == v.status.attempts
    requires w.journal == v.journal + [e]
    ensures RunEffect(x, a, w)
  {
    assert w.journal[|w.journal| - 1] == e;
    assert forall f :: f in v.journal ==> f in w.journal;
  }

  lemma BlankKept(p: Invariant, x: Ctx, a: View, v: View)
    requires Fresh(p, x, a, v) && !x.sp.observe
    ensures Producing(p, x, a, Blank(v)) && Persist(Blank(v).status) == Blank(v).status
  {
    AppendEffect(x, a, v, Blank(v), Blanked);
    hide Closed, Journalled, RunEffect, StoreEffect, DriftEffect;
    EventKept(p, x, a, v, Blank(v), Blanked);
  }

  lemma MissingKept(p: Invariant, x: Ctx, a: View, v: View, cl: Class)
    requires Fresh(p, x, a, v) && !x.sp.observe
    requires x.c.lookup == Found(cl)
    ensures Kept(p, x, a, MissingPass(x, v, cl).view)
    ensures Kept(p, x, a, MissingPass(x, v.With(v.status.(digest := "")), cl).view)
  {
    BlankKept(p, x, a, v);
    assert Blank(v.With(v.status.(digest := ""))) == Blank(v);
    hide Kept, Fresh, Producing, Blank, Produce;
    ProduceKept(p, x, a, Blank(v), cl);
  }

  lemma ObservedMissingKept(p: Invariant, x: Ctx, a: View, v: View)
    requires Fresh(p, x, a, v) && x.sp.observe
    ensures Kept(p, x, a, ObservedMissingPass(x, v).view)
  {
    var w := ObservedMissingPass(x, v).view;
    AppendEffect(x, a, v, w, ObservedAbsent);
    hide Closed, Journalled, RunEffect, StoreEffect, DriftEffect;
    EventKept(p, x, a, v, w, ObservedAbsent);
  }

  /** The object the pass observed, at the key it rendered. */
  predicate Sees(x: Ctx, a: View, v: View, o: Object) {
    Observed(x, a) && o == a.objects[x.c.key.value] && v.status.key == x.c.key.value
  }

  lemma RecordDriftKept(p: Invariant, x: Ctx, a: View, v: View, cl: Class, o: Object)
    requires Fresh(p, x, a, v) && Sees(x, a, v, o) && Drifts(v.status, o)
    ensures Fresh(p, x, a, RecordDrift(v, cl, o)) && Sees(x, a, RecordDrift(v, cl, o), o)
  {
    if cl.DriftPolicy() != Ignore {
      var e := DriftReported(v.status.digest, o.digest);
      var w := RecordDrift(v, cl, o);
      AppendEffect(x, a, v, w, e);
      JournalledByEvent(p, v, w, e);
      hide Closed, Journalled, RunEffect, Own;
      assert !HasVerified(w.journal);
      assert DriftEffect(x, a, w);
    }
  }

  lemma VerifyRuns(x: Ctx, a: View, v: View, o: Object)
    requires RunEffect(x, a, v) && v.status.attempts == a.status.attempts
    requires if x.sp.observe then v.status.ref.None? else Untouched(a, v)
    ensures RunEffect(x, a, Verify(x, v, o).view)
  {
    var e := Verified(o.digest, TrackedAttempt(TrackerOf(v.status)));
    var w := Verify(x, v, o).view;
    if v.status.ref.None? {
      AppendEffect(x, a, v, w, e);
    } else {
      ReleaseEffect(x, a, v, w, e);
    }
  }

  /** Verification, from a view whose drift condition may just have been cleared. */
  lemma VerifyKept(p: Invariant, x: Ctx, a: View, v: View, u: View, o: Object)
    requires Fresh(p, x, a, v) && Sees(x, a, v, o) && Recognized(x, o)
    requires u == v.Cond(v.status.cond.(drifted := u.status.cond.drifted))
    requires IsTrue(a.status.cond.drifted) && !IsTrue(u.status.cond.drifted) ==> a.status.digest == ""
    requires IsTrue(u.status.cond.drifted) ==> IsTrue(v.status.cond.drifted)
    ensures Kept(p, x, a, Verify(x, u, o).view)
  {
    var e := Verified(o.digest, TrackedAttempt(TrackerOf(u.status)));
    var w := Verify(x, u, o).view;
    VerifyRuns(x, a, u, o);
    JournalledByEvent(p, u, w, e);
    ReportRemains(v.journal, e);
    hide Closed, Journalled, RunEffect, Own, EffectiveGate, Recognized, HasReport;
    assert w.journal[|v.journal|] == e;
    assert HasVerified(w.journal);
    assert DriftEffect(x, a, w);
  }

  lemma ExistingKept(p: Invariant, x: Ctx, a: View, v: View, cl: Class, o: Object)
    requires Fresh(p, x, a, v) && Sees(x, a, v, o)
    requires x.c.lookup == Found(cl)
    ensures Kept(p, x, a, ExistingPass(x, v, cl, o).view)
  {
    FreshKept(p, x, a, v);
    if !Own(o, cl.stampKey, x.m.identityHash) {
      ConflictKept(p, x, a, v);
      hide Fresh, Kept, Own, Conflict;
    } else if Drifts(v.status, o) {
      RecordDriftKept(p, x, a, v, cl, o);
      var w := RecordDrift(v, cl, o);
      hide Fresh, Kept, Own, RecordDrift, Drifts, MissingPass, Verify;
      if cl.DriftPolicy() == Regenerate && !x.sp.observe {
        MissingKept(p, x, a, w, cl);
      } else {
        FreshDrifted(p, x, a, w);
        VerifyKept(p, x, a, w, w, o);
      }
    } else {
      RebaselineLatches(p, x, a, v, o);
      VerifyKept(p, x, a, v, Rebaseline(v, o), o);
      hide Fresh, Kept, Own, Drifts, Verify, Rebaseline;
    }
  }

  lemma FreshDrifted(p: Invariant, x: Ctx, a: View, v: View)
    requires Fresh(p, x, a, v)
    ensures IsTrue(a.status.cond.drifted) ==> IsTrue(v.status.cond.drifted)
  {
    hide Closed, Kept, Persist;
  }

  /** With a baseline on record no run is tracked, so an unexplained change always counts as
      drift: the condition is only cleared when there was no baseline. */
  lemma RebaselineLatches(p: Invariant, x: Ctx, a: View, v: View, o: Object)
    requires Fresh(p, x, a, v) && !Drifts(v.status, o)
    ensures IsTrue(a.status.cond.drifted) && !IsTrue(Rebaseline(v, o).status.cond.drifted) ==> a.status.digest == ""
  {
    Settles(p, v);
    hide Closed, Coherent, RunEffect, StoreEffect, DriftEffect;
  }

  lemma ConflictKept(p: Invariant, x: Ctx, a: View, v: View)
    requires Kept(p, x, a, v)
    ensures Kept(p, x, a, Conflict(x, v).view)
  {
    hide RunEffect, StoreEffect, DriftEffect, Journalled;
    CosmeticKept(p, x, a, v, Conflict(x, v).view);
  }

  // ------------------------------------------------------------------- expiry

  lemma RetireKept(p: Invariant, x: Ctx, a: View, v: View, objects: map<string, Object>)
    requires Fresh(p, x, a, v) && !x.sp.observe && StoreEffect(x, a, v.(objects := objects))
    ensures Kept(p, x, a, Retire(v.(objects := objects)))
  {
    var e := Retired(TrackedAttempt(TrackerOf(v.status)));
    var w := Retire(v.(objects := objects));
    if v.status.ref.None? {
      AppendEffect(x, a, v, w, e);
    } else {
      ReleaseEffect(x, a, v, w, e);
    }
    JournalledByEvent(p, v, w, e);
    ReportRemains(v.journal, e);
    hide Closed, Journalled, RunEffect, Own, HasReport;
    assert !HasVerified(w.journal);
    assert DriftEffect(x, a, w);
  }

  lemma ExpiredKept(p: Invariant, x: Ctx, a: View, v: View, cl: Class, key: string)
    requires Fresh(p, x, a, v) && !x.sp.observe && x.c.lookup == Found(cl)
    ensures Kept(p, x, a, ExpiredPass(x, v, cl, key).view)
  {
    FreshKept(p, x, a, v);
    NotReadyKept(p, x, a, v, StoreUnavailable);
    assert v.(objects := v.objects) == v;
    assert StoreEffect(x, a, v) && v.objects == a.objects;
    hide Fresh, Kept, Own, Retire;
    if !x.c.observeOk {
    } else if key in v.objects && Own(v.objects[key], cl.stampKey, x.m.identityHash) {
      if !v.refusing {
        RetireKept(p, x, a, v, v.objects - {key});
      }
    } else {
      RetireKept(p, x, a, v, v.objects);
    }
  }

  // ----------------------------------------------------- from class to store

  lemma ConsultKept(p: Invariant, x: Ctx, a: View, v: View, cl: Class)
    requires Fresh(p, x, a, v) && x.c.key.Some? && v.status.key == x.c.key.value
    requires x.c.lookup == Found(cl)
    ensures Kept(p, x, a, Consult(x, v, cl, x.c.key.value).view)
  {
    FreshKept(p, x, a, v);
    assert v.objects == a.objects;
    hide Fresh, Kept, ExistingPass, ObservedMissingPass, MissingPass;
    var key := x.c.key.value;
    if !x.c.observeOk {
      NotReadyKept(p, x, a, v, StoreUnavailable);
    } else if key in v.objects {
      ExistingKept(p, x, a, v, cl, v.objects[key]);
    } else if x.sp.observe {
      ObservedMissingKept(p, x, a, v);
    } else {
      MissingKept(p, x, a, v, cl);
    }
  }

  lemma DeletingKept(p: Invariant, x: Ctx, a: View, v: View)
    requires Kept(p, x, a, v)
    ensures Kept(p, x, a, v.(deleting := true))
  {
    hide Coherent, Own;
  }

  lemma WithKeyKept(p: Invariant, x: Ctx, a: View, v: View, cl: Class)
    requires Fresh(p, x, a, v) && x.c.key.Some? && v.status.key == x.c.key.value && x.c.lookup == Found(cl)
    ensures Kept(p, x, a, WithKey(x, v, cl, x.c.key.value).view)
  {
    FreshKept(p, x, a, v);
    hide Fresh, Kept, ExpiredPass, Consult, Reached;
    if Reached(x.sp.ttl, Age(x)) {
      DeletingKept(p, x, a, v);
    } else if !x.c.driverOk {
      NotReadyKept(p, x, a, v, StoreUnavailable);
    } else if Reached(x.sp.deleteAfter, Age(x)) && !x.sp.observe {
      ExpiredKept(p, x, a, v, cl, x.c.key.value);
    } else {
      ConsultKept(p, x, a, v, cl);
    }
  }

  lemma AddressKept(p: Invariant, x: Ctx, a: View, v: View, key: string)
    requires Fresh(p, x, a, v)
    ensures Fresh(p, x, a, Address(x, v, key))
  {
    assert TrackerOf(Persist(Address(x, v, key).status)) == TrackerOf(Persist(v.status));
    hide Closed, Own;
    assert RunEffect(x, a, Address(x, v, key));
  }

  lemma WithClassKept(p: Invariant, x: Ctx, a: View, v: View)
    requires Fresh(p, x, a, v)
    ensures Kept(p, x, a, WithClass(x, v).view)
  {
    FreshKept(p, x, a, v);
    hide Fresh, Kept, WithKey;
    match x.c.lookup
    case NotFound => NotReadyKept(p, x, a, v, ClassNotFound);
    case Unreachable =>
    case Found(cl) =>
      if x.c.key.None? {
        StallKept(p, x, a, v, TemplateError, v.status.state);
        assert v.Stall(TemplateError).In(v.status.state) == v.Stall(TemplateError);
      } else {
        AddressKept(p, x, a, v, x.c.key.value);
        WithKeyKept(p, x, a, Address(x, v, x.c.key.value), cl);
      }
  }

  // --------------------------------------------------------------- the pass

  /** The view a pass begins with. */
  ghost predicate Initial(p: Invariant, x: Ctx, a: View) {
    && Closed(p) && Coherent(a.status) && Hashed(x.m, a.status) && Persist(a.status) == a.status
    && a.journal == [] && Journalled(p, a)
  }

  lemma InitialKept(p: Invariant, x: Ctx, a: View)
    requires Initial(p, x, a)
    ensures Kept(p, x, a, a)
  {
    hide Closed, Coherent;
    assert RunEffect(x, a, a);
  }

  lemma BeginKept(p: Invariant, x: Ctx, a: View)
    requires Initial(p, x, a)
    ensures Kept(p, x, a, Begin(a)) && Kept(p, x, a, Suspend(Begin(a)))
  {
    InitialKept(p, x, a);
    hide RunEffect, StoreEffect, DriftEffect, Journalled, Closed;
    CosmeticKept(p, x, a, a, Begin(a));
    CosmeticKept(p, x, a, Begin(a), Suspend(Begin(a)));
  }

  /** After the retry annotation, before the Observe cancellation. */
  ghost predicate Retried(p: Invariant, x: Ctx, a: View, v: View) {
    && Closed(p) && Kept(p, x, a, v) && Persist(v.status) == v.status && !HasVerified(v.journal)
    && v.objects == a.objects && v.status.digest == a.status.digest
    && v.status.cond.drifted == a.status.cond.drifted && Untouched(a, v)
  }

  lemma BeginRetried(p: Invariant, x: Ctx, a: View)
    requires Initial(p, x, a)
    ensures Retried(p, x, a, Begin(a))
  {
    BeginKept(p, x, a);
    hide Kept, Closed, Coherent;
  }

  lemma RetryKept(p: Invariant, x: Ctx, a: View, v: View)
    requires Retried(p, x, a, v)
    ensures Retried(p, x, a, HonourRetry(x, v))
  {
    if x.sp.retry != "" && x.sp.retry != v.status.retryToken {
      var w := HonourRetry(x, v);
      AppendEffect(x, a, v, w, RetryHonoured);
      hide Closed, Journalled, RunEffect, StoreEffect, DriftEffect, AllGated;
      EventKept(p, x, a, v, w, RetryHonoured);
      assert !HasVerified(w.journal);
    }
  }

  lemma CancelledFresh(p: Invariant, x: Ctx, a: View, v: View)
    requires Retried(p, x, a, v) && x.sp.observe && v.status.ref.Some?
    ensures Fresh(p, x, a, Cancel(v))
  {
    CancelKept(p, x, a, v);
    hide Closed, Kept;
  }

  lemma RetriedFresh(p: Invariant, x: Ctx, a: View, v: View)
    requires Retried(p, x, a, v) && (x.sp.observe ==> v.status.ref.None?)
    ensures Fresh(p, x, a, v)
  {
    hide Closed, Kept;
  }

  lemma AttendKept(p: Invariant, x: Ctx, a: View, v: View)
    requires Retried(p, x, a, v)
    ensures Kept(p, x, a, Attend(x, v).view)
  {
    if x.sp.observe && v.status.ref.Some? {
      if x.c.runDeleteOk {
        CancelledFresh(p, x, a, v);
        hide Retried, Fresh, Kept, WithClass, Cancel;
        WithClassKept(p, x, a, Cancel(v));
      }
    } else {
      RetriedFresh(p, x, a, v);
      hide Retried, Fresh, Kept, WithClass;
      WithClassKept(p, x, a, v);
    }
  }

  lemma ReconcileKept(p: Invariant, x: Ctx, a: View)
    requires Initial(p, x, a)
    ensures Kept(p, x, a, ReconcilePass(x, a).view)
  {
    hide Initial, Kept, Attend, HonourRetry, Begin, Suspend, Retried;
    BeginKept(p, x, a);
    BeginRetried(p, x, a);
    RetryKept(p, x, a, Begin(a));
    AttendKept(p, x, a, HonourRetry(x, Begin(a)));
  }

  lemma BlockKept(p: Invariant, x: Ctx, a: View)
    requires Initial(p, x, a)
    ensures Kept(p, x, a, Block(a))
  {
    InitialKept(p, x, a);
    hide RunEffect, StoreEffect, DriftEffect, Journalled, Closed;
    CosmeticKept(p, x, a, a, Block(a));
  }

  lemma ReleasedKept(p: Invariant, x: Ctx, a: View, objects: map<string, Object>, finalizer: bool)
    requires Initial(p, x, a) && StoreEffect(x, a, a.(objects := objects))
    ensures Kept(p, x, a, a.(objects := objects, finalizer := finalizer))
  {
    InitialKept(p, x, a);
    hide Closed, Coherent, Own;
    assert RunEffect(x, a, a.(objects := objects, finalizer := finalizer));
  }

  lemma DeleteKept(p: Invariant, x: Ctx, a: View)
    requires Initial(p, x, a)
    ensures Kept(p, x, a, DeletePass(x, a).view)
  {
    InitialKept(p, x, a);
    BlockKept(p, x, a);
    assert a.(objects := a.objects) == a && StoreEffect(x, a, a);
    assert Hashed(x.m, a.status);
    ReleasedKept(p, x, a, a.objects, false);
    hide Initial, Kept, Own, Block;
    if a.finalizer && MustClean(x, a) && x.c.lookup.Found? && a.status.key in a.objects && !a.refusing
       && Own(a.objects[a.status.key], x.c.lookup.def.stampKey, a.status.specHash) {
      ReleasedKept(p, x, a, a.objects - {a.status.key}, false);
    }
  }

  /** Every pass, on every branch, whatever the outside world answers. */
  lemma PassKept(p: Invariant, x: Ctx, a: View)
    requires Initial(p, x, a)
    ensures Kept(p, x, a, Pass(x, a).view)
  {
    DeleteKept(p, x, a);
    ReconcileKept(p, x, a);
    assert a.(objects := a.objects) == a && StoreEffect(x, a, a);
    ReleasedKept(p, x, a, a.objects, true);
    hide Initial, Kept, DeletePass, ReconcilePass;
  }
}
