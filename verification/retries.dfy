/**
 The retry annotation over whole runs: a token is honoured at most once, lost patches included,
 so the work an Artifact ever starts is bounded by what its users and its store did.
 */
module Retries {
  import opened Api
  import opened Delays
  import opened Journal
  import opened Names
  import opened Passes
  import opened Worlds
  import opened History
  import opened Accounting
  import opened PassFacts

  const RETRY := (e: Event) => e.RetryHonoured?
  const VERIFIED := (e: Event) => e.Verified?
  const OBSERVED := (e: Event) => e.ObservedAbsent?

  lemma CountAppend(log: seq<Event>, e: Event, p: Event -> bool)
    ensures Count(log + [e], p) == Count(log, p) + One(p(e))
  {
    assert (log + [e])[..|log|] == log;
  }

  lemma {:induction false} CountConcat(log: seq<Event>, j: seq<Event>, p: Event -> bool)
    ensures Count(log + j, p) == Count(log, p) + Count(j, p)
  {
    if j == [] {
      assert log + j == log;
    } else {
      assert (log + j)[..|log + j| - 1] == log + j[..|j| - 1];
      CountConcat(log, j[..|j| - 1], p);
    }
  }

  // ------------------------------------------------------------------ one pass

  /** No token is honoured between the two views. */
  predicate Silent(v: View, w: View) {
    w.status.retryToken == v.status.retryToken && Count(w.journal, RETRY) == Count(v.journal, RETRY)
  }

  lemma ChargeSilent(x: Ctx, v: View, g: Gate, reason: Reason, cause: Cause)
    ensures Silent(v, Charge(x, v, g, reason, cause))
  {
    hide Count;
    CountAppend(v.journal, Charged(v.status.attempts, cause, x.c.now, g), RETRY);
  }

  lemma FailureSilent(x: Ctx, v: View, g: Gate, reason: Reason, cause: Cause)
    ensures Silent(v, Failure(x, v, g, reason, cause).view)
  {
    hide BackoffDelay, Charge, Count;
    ChargeSilent(x, v, g, reason, cause);
  }

  lemma NoteSilent(x: Ctx, v: View)
    ensures Silent(v, NoteSuccess(x, v))
  {
    hide Count;
    CountAppend(v.journal, FirstSuccess(x.c.now), RETRY);
  }

  lemma AwaitSilent(x: Ctx, v: View, cl: Class)
    ensures Silent(v, Await(x, NoteSuccess(x, v), cl).view)
  {
    hide Failure, EffectiveGate, NoteSuccess, Count;
    NoteSilent(x, v);
    FailureSilent(x, NoteSuccess(x, v), EffectiveGate(cl), SucceededWithoutArtifact, NoArtifact);
  }

  lemma EvaluateSilent(x: Ctx, v: View, cl: Class, ref: RunRef, run: Run)
    ensures Silent(v, Evaluate(x, v, cl, ref, run).view)
  {
    hide EffectiveGate, Failure, Await, NoteSuccess, RunStart, Count;
    FailureSilent(x, v, EffectiveGate(cl), GeneratorFailed, ReportedFailure);
    AwaitSilent(x, v, cl);
    FailureSilent(x, v.(runs := if x.c.runDeleteOk then v.runs - {ref} else v.runs), EffectiveGate(cl),
                  ProgressDeadlineExceeded, Deadline(x.c.runDeleteOk));
  }

  lemma StartSilent(x: Ctx, v: View, cl: Class, ref: RunRef)
    ensures Silent(v, Start(x, v, cl, ref)) && Silent(v, Adopt(x, v, cl, ref))
  {
    hide EffectiveGate, Count;
    CountAppend(v.journal, Started(v.status.attempts + 1, ref, false, x.c.now, EffectiveGate(cl)), RETRY);
    CountAppend(v.journal, Started(v.status.attempts + 1, ref, true, x.c.now, EffectiveGate(cl)), RETRY);
  }

  lemma CreateSilent(x: Ctx, v: View, cl: Class)
    ensures Silent(v, CreateRun(x, v, cl).view)
  {
    hide EffectiveGate, RunName, Start, Adopt, Count;
    if x.c.runKind.Some? {
      StartSilent(x, v, cl, RunRef(x.c.runKind.value, RunName(x.m, v.status.attempts + 1)));
    }
  }

  lemma CancelSilent(v: View)
    requires v.status.ref.Some?
    ensures Silent(v, Cancel(v))
  {
    hide Count;
    CountAppend(v.journal, Cancelled(v.status.attempts), RETRY);
  }

  lemma NoGeneratorSilent(x: Ctx, v: View)
    ensures Silent(v, NoGenerator(x, v).view)
  {
    hide Cancel, Count;
    if v.status.ref.Some? { CancelSilent(v); }
  }

  lemma InFlightSilent(x: Ctx, v: View, cl: Class, ref: RunRef)
    ensures Silent(v, InFlight(x, v, cl, ref).view)
  {
    hide Evaluate, Count;
    CountAppend(v.journal, Vanished(v.status.attempts), RETRY);
    if ref in v.runs { EvaluateSilent(x, v, cl, ref, v.runs[ref]); }
  }

  lemma ProduceSilent(x: Ctx, v: View, cl: Class)
    ensures Silent(v, Produce(x, v, cl).view)
  {
    hide EffectiveGate, InFlight, NoGenerator, CreateRun, GateOpen, BackoffDelay, Count;
    CreateSilent(x, v, cl);
    NoGeneratorSilent(x, v);
    if v.status.ref.Some? { InFlightSilent(x, v, cl, v.status.ref.value); }
  }

  lemma MissingSilent(x: Ctx, v: View, cl: Class)
    ensures Silent(v, MissingPass(x, v, cl).view)
  {
    hide Produce, Count;
    CountAppend(v.journal, Blanked, RETRY);
    ProduceSilent(x, Blank(v), cl);
  }

  lemma ObservedSilent(x: Ctx, v: View)
    ensures Silent(v, ObservedMissingPass(x, v).view)
  {
    hide Count;
    CountAppend(v.journal, ObservedAbsent, RETRY);
  }

  lemma RecordDriftSilent(v: View, cl: Class, o: Object)
    ensures Silent(v, RecordDrift(v, cl, o))
  {
    hide Count;
    CountAppend(v.journal, DriftReported(v.status.digest, o.digest), RETRY);
  }

  lemma VerifySilent(x: Ctx, v: View, o: Object)
    ensures Silent(v, Verify(x, v, o).view)
  {
    hide Count;
    CountAppend(v.journal, Verified(o.digest, TrackedAttempt(TrackerOf(v.status))), RETRY);
  }

  lemma ExistingSilent(x: Ctx, v: View, cl: Class, o: Object)
    ensures Silent(v, ExistingPass(x, v, cl, o).view)
  {
    hide Own, Drifts, RecordDrift, Verify, MissingPass, Count;
    var w := RecordDrift(v, cl, o);
    RecordDriftSilent(v, cl, o);
    MissingSilent(x, w.With(w.status.(digest := "")), cl);
    VerifySilent(x, w, o);
    VerifySilent(x, Rebaseline(v, o), o);
  }

  lemma RetireSilent(v: View)
    ensures Silent(v, Retire(v))
  {
    hide Count;
    CountAppend(v.journal, Retired(TrackedAttempt(TrackerOf(v.status))), RETRY);
  }

  lemma ExpiredSilent(x: Ctx, v: View, cl: Class, key: string)
    ensures Silent(v, ExpiredPass(x, v, cl, key).view)
  {
    hide Own, Retire, AfterExpiry, Count;
    RetireSilent(v);
    RetireSilent(v.(objects := v.objects - {key}));
  }

  lemma ConsultSilent(x: Ctx, v: View, cl: Class, key: string)
    ensures Silent(v, Consult(x, v, cl, key).view)
  {
    hide ExistingPass, ObservedMissingPass, MissingPass, Count;
    ObservedSilent(x, v);
    MissingSilent(x, v, cl);
    if key in v.objects { ExistingSilent(x, v, cl, v.objects[key]); }
  }

  lemma WithKeySilent(x: Ctx, v: View, cl: Class, key: string)
    ensures Silent(v, WithKey(x, v, cl, key).view)
  {
    hide Consult, ExpiredPass, Reached, Count;
    ConsultSilent(x, v, cl, key);
    ExpiredSilent(x, v, cl, key);
  }

  lemma WithClassSilent(x: Ctx, v: View)
    ensures Silent(v, WithClass(x, v).view)
  {
    hide WithKey, Count;
    if x.c.lookup.Found? && x.c.key.Some? {
      WithKeySilent(x, Address(x, v, x.c.key.value), x.c.lookup.def, x.c.key.value);
    }
  }

  lemma AttendSilent(x: Ctx, v: View)
    ensures Silent(v, Attend(x, v).view)
  {
    hide WithClass, Cancel, Count;
    WithClassSilent(x, v);
    if v.status.ref.Some? {
      CancelSilent(v);
      WithClassSilent(x, Cancel(v));
    }
  }

  lemma DeleteSilent(x: Ctx, v: View)
    ensures Silent(v, DeletePass(x, v).view)
  {
    hide Own, Count;
  }

  /** The spec carries a token the status has not recorded. */
  predicate Pends(sp: Spec, token: string) {
    sp.retry != "" && sp.retry != token
  }

  lemma HonourOnce(x: Ctx, v: View)
    ensures var w := HonourRetry(x, v);
            Count(w.journal, RETRY) + One(Pends(x.sp, w.status.retryToken)) ==
            Count(v.journal, RETRY) + One(Pends(x.sp, v.status.retryToken))
  {
    hide Count;
    CountAppend(v.journal, RetryHonoured, RETRY);
  }

  /** A pass honours a token exactly when that token then stops pending. */
  lemma PassHonours(x: Ctx, a: View)
    ensures var v := Pass(x, a).view;
            Count(v.journal, RETRY) + One(Pends(x.sp, v.status.retryToken)) ==
            Count(a.journal, RETRY) + One(Pends(x.sp, a.status.retryToken))
  {
    hide DeletePass, ReconcilePass, Count, Pends;
    DeleteSilent(x, a);
    ReconcileHonours(x, a);
  }

  lemma ReconcileHonours(x: Ctx, a: View)
    ensures var v := ReconcilePass(x, a).view;
            Count(v.journal, RETRY) + One(Pends(x.sp, v.status.retryToken)) ==
            Count(a.journal, RETRY) + One(Pends(x.sp, a.status.retryToken))
  {
    hide Attend, HonourRetry, Count, Pends;
    HonourOnce(x, Begin(a));
    AttendSilent(x, HonourRetry(x, Begin(a)));
  }

  // --------------------------------------------------------------- whole runs

  /** How often the spec of `u` is edited. */
  function EditsOf(acts: seq<Action>, u: Uid): nat {
    if acts == [] then 0
    else
      var a := acts[|acts| - 1];
      EditsOf(acts[..|acts| - 1], u) + One(a.Edit? && a.uid == u)
  }

  /** Tokens honoured in kept passes, plus the one pending, are among the first and the edited. */
  predicate Budgets(w: World, u: Uid, edits: nat) {
    && u in w.artifacts && u in w.ledgers
    && var a := w.artifacts[u];
       Count(w.ledgers[u].accounts, RETRY) + One(Pends(a.spec, a.status.retryToken)) <= 1 + edits
  }

  lemma BudgetsPass(w: World, u: Uid, c: Calls, kept: bool, draw: Draw, edits: nat)
    requires Budgets(w, u, edits) && u in AfterPass(w, u, c, kept, draw).artifacts
    ensures Budgets(AfterPass(w, u, c, kept, draw), u, edits)
  {
    hide OutcomeOf, AfterPass, Count, Pends, TruncateOpt, HasVerified, StartsRun, Wait;
    AfterPassFacts(w, u, c, kept, draw);
    OutcomeHonours(w, u, c);
    CountConcat(w.ledgers[u].accounts, OutcomeOf(w, u, c).view.journal, RETRY);
  }

  lemma OutcomeHonours(w: World, u: Uid, c: Calls)
    requires u in w.artifacts
    ensures var v, a := OutcomeOf(w, u, c).view, w.artifacts[u];
            Count(v.journal, RETRY) + One(Pends(a.spec, v.status.retryToken)) == One(Pends(a.spec, a.status.retryToken))
  {
    hide Pass, Pends;
    PassHonours(CtxOf(w, u, c), ViewOf(w, u));
  }

  lemma BudgetsStep(w: World, a: Action, u: Uid, edits: nat)
    requires Enabled(w, a) && AllBooked(w) && u in Next(w, a).artifacts && (u in w.artifacts ==> Budgets(w, u, edits))
    ensures Budgets(Next(w, a), u, edits + One(a.Edit? && a.uid == u))
  {
    hide OutcomeOf, AfterPass, Booked, Recorded, Patched;
    if a.Reconcile? && a.uid in w.artifacts {
      assert BookedAt(w, a.uid);
      AfterPassFacts(w, a.uid, a.calls, a.kept, a.draw);
      if a.uid == u {
        BudgetsPass(w, u, a.calls, a.kept, a.draw, edits);
      }
    }
  }

  /** One reset per token: the retries honoured in kept passes never outnumber the token the
      Artifact was created with and those its edits brought, however many patches are lost. */
  lemma {:induction false} RetriesBounded(ws: seq<World>, acts: seq<Action>, n: nat, u: Uid)
    requires Execution(ws, acts) && Empty(ws[0]) && n < |ws| && u in ws[n].artifacts
    ensures Budgets(ws[n], u, EditsOf(acts[..n], u))
  {
    hide Budgets, Next, BookedAt;
    assert n > 0;
    var a := acts[n - 1];
    assert Enabled(ws[n - 1], a) && ws[n] == Next(ws[n - 1], a);
    AlwaysBooked(ws, acts, n - 1);
    if u in ws[n - 1].artifacts {
      RetriesBounded(ws, acts, n - 1, u);
    }
    assert acts[..n][..n - 1] == acts[..n - 1] && acts[..n][n - 1] == a;
    BudgetsStep(ws[n - 1], a, u, EditsOf(acts[..n - 1], u));
  }

  lemma {:induction false} ResetsByCause(log: seq<Event>)
    ensures Resets(log) <= Count(log, RETRY) + Count(log, VERIFIED) + Count(log, OBSERVED)
  {
    if log != [] { ResetsByCause(log[..|log| - 1]); }
  }

  lemma Scale(budget: nat, r: nat, s: nat)
    requires r <= s
    ensures budget * (1 + r) <= budget * (1 + s)
  {
  }

  /** The work bound in terms of what happened to the Artifact: spec edits, verifications,
      absences seen as a sensor, and runs lost without being charged. */
  lemma WorkBoundedByCauses(ws: seq<World>, acts: seq<Action>, n: nat, u: Uid, budget: nat)
    requires Execution(ws, acts) && Empty(ws[0]) && n < |ws| && u in ws[n].artifacts
    requires forall i :: 0 <= i < |acts| ==> FixedBudget(acts[i], u, budget)
    ensures u in ws[n].ledgers
    ensures var st, log := ws[n].artifacts[u].status, ws[n].ledgers[u].accounts;
            st.attempts <= budget * (2 + EditsOf(acts[..n], u) + Count(log, VERIFIED) + Count(log, OBSERVED))
                           + Count(log, VANISHED) + Count(log, CANCELLED) + Count(log, RETIRED_RELEASE)
  {
    hide Execution, FixedBudget, Count, Resets, EditsOf;
    WorkBounded(ws, acts, n, u, budget);
    RetriesBounded(ws, acts, n, u);
    assert |ws| == |acts| + 1 by { Lengths(ws, acts); }
    var log, e := ws[n].ledgers[u].accounts, EditsOf(acts[..n], u);
    ResetsByCause(log);
    Scale(budget, Resets(log), 1 + e + Count(log, VERIFIED) + Count(log, OBSERVED));
  }
}
