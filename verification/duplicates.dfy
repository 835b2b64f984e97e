/**
 Why the conditions of crash-safe creation cannot be dropped: a run of the system for each,
 without any outside deletion, in which one Artifact creates an attempt twice.
 */
module Duplicates {
  import opened Api
  import opened Delays
  import opened Journal
  import opened Names
  import opened Passes
  import opened PassFacts
  import opened Worlds
  import opened CrashSafety
  import opened Safety
  import opened Convergence
  import opened Wakeups

  // -------------------------------------------------------- passes that create

  /** A searching pass with nothing in its way to a new run. */
  predicate Launches(w: World, u: Uid, c: Calls, cl: Class) {
    && u in w.artifacts && u in w.ledgers && w.artifacts[u].meta.uid == u
    && var st := w.artifacts[u].status;
       && Searches(CtxOf(w, u, c), ViewOf(w, u), cl) && NoRetry(CtxOf(w, u, c), st)
       && cl.generator.Some? && st.failed < EffectiveGate(cl).budget && st.ref.None?
       && GateOpen(TrackerOf(st), c.now, EffectiveGate(cl))
       && c.runKind.Some? && c.ownerRefOk && c.createOk && AheadRef(w.artifacts[u], c.runKind.value) !in w.runs
  }

  /** The world's runs with the one a launching pass adds. */
  function WithRun(w: World, u: Uid, c: Calls): map<RunRef, Run>
    requires u in w.artifacts && c.runKind.Some?
  {
    var a := w.artifacts[u];
    w.runs[AheadRef(a, c.runKind.value) := Run(Some(a.meta.uid), a.status.attempts + 1, Some(Truncate(c.now)))]
  }

  lemma ArrivedHolds(x: Ctx, a: View)
    requires x.c.key.Some? && NoRetry(x, a.status)
    ensures var v := Arrived(x, a);
            && v.runs == a.runs && v.objects == a.objects && v.deleting == a.deleting && v.finalizer == a.finalizer
            && v.status.attempts == a.status.attempts
  {
    assert HonourRetry(x, Begin(a)) == Begin(a);
  }

  lemma LaunchedView(x: Ctx, v: View, cl: Class)
    requires x.c.runKind.Some? && x.c.ownerRefOk && x.c.createOk
    requires RunRef(x.c.runKind.value, RunName(x.m, v.status.attempts + 1)) !in v.runs
    ensures var v', ref := CreateRun(x, v, cl).view, RunRef(x.c.runKind.value, RunName(x.m, v.status.attempts + 1));
            && v'.runs == v.runs[ref := Run(Some(x.m.uid), v.status.attempts + 1, Some(Truncate(x.c.now)))]
            && v'.objects == v.objects && v'.deleting == v.deleting && v'.finalizer == v.finalizer
            && v'.status.ref == Some(ref) && v'.status.attempts == v.status.attempts + 1 && StartsRun(v'.journal, false)
            && v'.status.failed == v.status.failed
  {
    hide EffectiveGate, RunName;
  }

  lemma LaunchCreates(w: World, u: Uid, c: Calls, cl: Class)
    requires Launches(w, u, c, cl)
    ensures var v, a := OutcomeOf(w, u, c).view, w.artifacts[u];
            && v.runs == WithRun(w, u, c) && v.objects == w.objects && !v.deleting && v.finalizer
            && v.status.ref == Some(AheadRef(a, c.runKind.value)) && v.status.attempts == a.status.attempts + 1
            && StartsRun(v.journal, false) && v.status.failed == a.status.failed
  {
    hide Pass, NoRetry, EffectiveGate, GateOpen, CreateRun, Arrived, RunName, StartsRun, Reached;
    var x, a := CtxOf(w, u, c), ViewOf(w, u);
    SecondPassCreates(x, a, cl);
    ArrivedHolds(x, a);
    ArrivedCounts(x, a);
    LaunchedView(x, Arrived(x, a), cl);
  }

  /** What a launching pass leaves: the run, one more creation, and a status that tracks it
      only if the patch landed. */
  lemma LaunchLeaves(w: World, u: Uid, c: Calls, cl: Class, kept: bool, draw: Draw)
    requires Launches(w, u, c, cl)
    ensures var w', a, r := AfterPass(w, u, c, kept, draw), w.artifacts[u], AheadRef(w.artifacts[u], c.runKind.value);
            && w'.runs == WithRun(w, u, c) && w'.objects == w.objects && w'.now == w.now
            && u in w'.artifacts && u in w'.ledgers && w'.artifacts[u].meta == a.meta && w'.artifacts[u].spec == a.spec
            && w'.artifacts[u].finalizer && !w'.artifacts[u].deleting
            && (if !kept then w'.artifacts[u] == a
                else var st := w'.artifacts[u].status;
                     st.ref == Some(r) && st.attempts == a.status.attempts + 1 && st.failed == a.status.failed)
            && w'.ledgers[u].creates == w.ledgers[u].creates + [Creation(a.status.attempts + 1, w.now, Some(r))]
  {
    hide OutcomeOf, AfterPass, Recorded, StartsRun, RunName, TruncateOpt, NoRetry, EffectiveGate, GateOpen, Reached,
         WithRun;
    LaunchCreates(w, u, c, cl);
    AfterPassFacts(w, u, c, kept, draw);
    Stays(w, u, c, kept, draw);
  }

  // ------------------------------------------------------ the kind changes

  /** Wherever a pass could create the next attempt under either of two kinds, losing the patch
      of the one and then making the other creates the attempt twice. */
  lemma KindChangeDuplicates(w: World, u: Uid, c: Calls, c': Calls, cl: Class, cl': Class, kept: bool, draw: Draw,
                             draw': Draw)
    requires Launches(w, u, c, cl) && Launches(w, u, c', cl') && c.runKind != c'.runKind
    ensures var w1 := AfterPass(w, u, c, false, draw);
            && u in w1.artifacts
            && var w2 := AfterPass(w1, u, c', kept, draw');
               && u in w2.ledgers && |w2.ledgers[u].creates| == |w.ledgers[u].creates| + 2
               && w2.ledgers[u].creates[..|w.ledgers[u].creates|] == w.ledgers[u].creates
               && (forall i :: |w.ledgers[u].creates| <= i < |w.ledgers[u].creates| + 2 ==>
                     w2.ledgers[u].creates[i].attempt == w.artifacts[u].status.attempts + 1)
  {
    hide AfterPass, RunName, NoRetry, EffectiveGate, GateOpen, Reached;
    LaunchLeaves(w, u, c, cl, false, draw);
    var w1 := AfterPass(w, u, c, false, draw);
    assert Launches(w1, u, c', cl');
    LaunchLeaves(w1, u, c', cl', kept, draw');
  }

  // -------------------------------------------------------- the runs themselves

  const START := World(0, map[], map[], map[], false, [], map[])
  const PLAIN := Spec(0, false, None, None, false, false, "")
  const MAKER := Class("", "", Some(Generator(Str(""), false, None)), None, None, 0)
  const NO_MAKER := MAKER.(generator := None)

  /** Every call is answered, at time 0. */
  function Answers(cl: Class, kind: Kind): Calls {
    Calls(0, Found(cl), Some("key"), Some(kind), true, true, true, true, true, true, true, true, false, false, false)
  }

  function PassOf(u: Uid, cl: Class, kind: Kind, kept: bool): Action {
    Reconcile(u, Answers(cl, kind), kept, 0.5)
  }

  /** Nothing in the store, at time 0. */
  predicate Bare(w: World) {
    w.now == 0 && w.objects == map[]
  }

  /** The Artifact is known, not marked for deletion, and has its finalizer or not. */
  predicate Known(w: World, m: Meta, finalizer: bool) {
    && m.uid in w.artifacts && m.uid in w.ledgers
    && var a := w.artifacts[m.uid];
       a.meta == m && a.spec == PLAIN && !a.deleting && a.finalizer == finalizer
  }

  predicate Idle(w: World, m: Meta, finalizer: bool) {
    Known(w, m, finalizer) && w.artifacts[m.uid].status == NEW_STATUS
  }

  /** Nothing of the Artifact differs. */
  predicate Unmoved(w: World, w': World, u: Uid) {
    && (u in w.artifacts <==> u in w'.artifacts) && (u in w.artifacts ==> w'.artifacts[u] == w.artifacts[u])
    && (u in w.ledgers <==> u in w'.ledgers) && (u in w.ledgers ==> w'.ledgers[u] == w.ledgers[u])
  }

  lemma Admitted(w: World, m: Meta)
    requires Bare(w) && m.uid !in w.ledgers
    ensures var w' := Next(w, Admit(m, PLAIN));
            && Bare(w') && Idle(w', m, false) && w'.ledgers[m.uid].creates == [] && w'.runs == w.runs
            && forall u :: u != m.uid ==> Unmoved(w, w', u)
  {
  }

  /** The first pass only sets the finalizer. */
  lemma FinalizerPass(w: World, u: Uid, c: Calls, draw: Draw)
    requires u in w.artifacts && u in w.ledgers
    requires var a := w.artifacts[u]; !a.deleting && !a.finalizer && Persist(a.status) == a.status
    ensures var w' := AfterPass(w, u, c, true, draw);
            && u in w'.artifacts && w'.artifacts[u] == w.artifacts[u].(finalizer := true)
            && w'.runs == w.runs && w'.objects == w.objects && w'.now == w.now && w'.refusing == w.refusing
            && u in w'.ledgers && w'.ledgers[u].creates == w.ledgers[u].creates
  {
    hide AfterPass, ReconcilePass, DeletePass, Recorded, TruncateOpt;
    assert OutcomeOf(w, u, c).view == ViewOf(w, u).(finalizer := true);
    AfterPassFacts(w, u, c, true, draw);
    Stays(w, u, c, true, draw);
  }

  lemma Finalized(w: World, m: Meta, kind: Kind)
    requires Bare(w) && Idle(w, m, false)
    ensures var w' := Next(w, PassOf(m.uid, MAKER, kind, true));
            && Bare(w') && Idle(w', m, true) && w'.ledgers[m.uid].creates == w.ledgers[m.uid].creates
            && w'.runs == w.runs
            && forall u :: u != m.uid ==> Unmoved(w, w', u)
  {
    hide AfterPass, Recorded, OutcomeOf, Patched;
    FinalizerPass(w, m.uid, Answers(MAKER, kind), 0.5);
    AfterPassFacts(w, m.uid, Answers(MAKER, kind), true, 0.5);
  }

  lemma IdleLaunches(w: World, m: Meta, kind: Kind)
    requires Bare(w) && Idle(w, m, true) && RunRef(kind, RunName(m, 1)) !in w.runs
    ensures Launches(w, m.uid, Answers(MAKER, kind), MAKER)
  {
    hide RunName, BackoffDelay;
  }

  lemma Launched(w: World, m: Meta, kind: Kind, kept: bool)
    requires Bare(w) && Idle(w, m, true) && RunRef(kind, RunName(m, 1)) !in w.runs
    ensures var w', r := Next(w, PassOf(m.uid, MAKER, kind, kept)), RunRef(kind, RunName(m, 1));
            && Bare(w') && Known(w', m, true)
            && (if kept then w'.artifacts[m.uid].status.ref == Some(r) else Idle(w', m, true))
            && w'.runs == w.runs[r := Run(Some(m.uid), 1, Some(0))]
            && w'.ledgers[m.uid].creates == w.ledgers[m.uid].creates + [Creation(1, 0, Some(r))]
            && forall u :: u != m.uid ==> Unmoved(w, w', u)
  {
    hide AfterPass, RunName, Launches, Recorded, Patched, OutcomeOf;
    IdleLaunches(w, m, kind);
    LaunchLeaves(w, m.uid, Answers(MAKER, kind), MAKER, kept, 0.5);
    AfterPassFacts(w, m.uid, Answers(MAKER, kind), kept, 0.5);
  }

  /** The class drops its generator; the tracked name is deleted, whoever owns the run that
      holds it, and the patch is lost. */
  lemma CancelLost(w: World, m: Meta, kind: Kind, r: RunRef)
    requires Bare(w) && Known(w, m, true) && w.artifacts[m.uid].status.ref == Some(r)
    ensures var w' := Next(w, PassOf(m.uid, NO_MAKER, kind, false));
            && Bare(w') && Known(w', m, true) && w'.artifacts[m.uid].status.ref == Some(r) && w'.runs == w.runs - {r}
            && forall u :: u != m.uid ==> Unmoved(w, w', u)
  {
    hide AfterPass, Recorded, OutcomeOf, Pass;
    var u, c := m.uid, Answers(NO_MAKER, kind);
    var x, v := CtxOf(w, u, c), ViewOf(w, u);
    assert Searches(x, v, NO_MAKER);
    OutcomeIsPass(w, u, c);
    GeneratorlessCancels(x, v, NO_MAKER);
    SearchingHolds(x, v, NO_MAKER);
    AfterPassFacts(w, u, c, false, 0.5);
    Stays(w, u, c, false, 0.5);
  }

  // ------------------------------------------------------------ the witnesses

  /** A run of the system from the empty world to `w`, all of whose actions are `ok`. */
  ghost predicate Reaches(ws: seq<World>, acts: seq<Action>, w: World, ok: Action -> bool) {
    Execution(ws, acts) && Empty(ws[0]) && ws[|acts|] == w && forall i :: 0 <= i < |acts| ==> ok(acts[i])
  }

  lemma StartReached(ok: Action -> bool)
    ensures Reaches([START], [], START, ok) && Bare(START) && START.ledgers == map[] && START.runs == map[]
  {
  }

  lemma GoOn(ws: seq<World>, acts: seq<Action>, w: World, a: Action, ok: Action -> bool)
    requires Reaches(ws, acts, w, ok) && Enabled(w, a) && ok(a)
    ensures Reaches(ws + [Next(w, a)], acts + [a], Next(w, a), ok)
  {
    hide Next, Enabled, Execution, Empty;
    assert |ws| == |acts| + 1 by { Lengths(ws, acts); }
    Extend(ws, acts, a);
  }

  /** A pass at time 0 is enabled in a bare world. */
  lemma PassEnabled(w: World, u: Uid, cl: Class, kind: Kind, kept: bool)
    requires Bare(w)
    ensures Enabled(w, PassOf(u, cl, kind, kept))
  {
  }

  /** Only passes of `u`, and no outside deletion. */
  function Solo(u: Uid): Action -> bool {
    (a: Action) => !a.DropRun? && (a.Reconcile? ==> a.uid == u)
  }

  lemma SoloIsAlone(w: World, a: Action, u: Uid)
    requires Solo(u)(a)
    ensures Alone(w, a, u)
  {
  }

  lemma TwoKindsReached(m: Meta, k: Kind, k': Kind) returns (ws: seq<World>, acts: seq<Action>, w: World)
    requires k != k'
    ensures Reaches(ws, acts, w, Solo(m.uid)) && m.uid in w.ledgers
    ensures w.ledgers[m.uid].creates ==
            [Creation(1, 0, Some(RunRef(k, RunName(m, 1)))), Creation(1, 0, Some(RunRef(k', RunName(m, 1))))]
  {
    hide RunName, Next, Bare, Unmoved, Reaches;
    var u, ok := m.uid, Solo(m.uid);
    StartReached(ok);
    ws, acts := [START], [];
    GoOn(ws, acts, START, Admit(m, PLAIN), ok);
    Admitted(START, m);
    ws, acts, w := ws + [Next(START, Admit(m, PLAIN))], acts + [Admit(m, PLAIN)], Next(START, Admit(m, PLAIN));
    var a1, a2, a3 := PassOf(u, MAKER, k, true), PassOf(u, MAKER, k, false), PassOf(u, MAKER, k', true);
    PassEnabled(w, u, MAKER, k, true);
    GoOn(ws, acts, w, a1, ok);
    Finalized(w, m, k);
    ws, acts, w := ws + [Next(w, a1)], acts + [a1], Next(w, a1);
    PassEnabled(w, u, MAKER, k, false);
    GoOn(ws, acts, w, a2, ok);
    Launched(w, m, k, false);
    ws, acts, w := ws + [Next(w, a2)], acts + [a2], Next(w, a2);
    PassEnabled(w, u, MAKER, k', true);
    GoOn(ws, acts, w, a3, ok);
    Launched(w, m, k', true);
    ws, acts, w := ws + [Next(w, a3)], acts + [a3], Next(w, a3);
  }

  /** The one-kind condition is needed: an Artifact alone in the namespace whose class renders
      another kind between a lost creation and the retry creates attempt 1 twice. */
  lemma TwoKindsDuplicate(m: Meta, k: Kind, k': Kind) returns (ws: seq<World>, acts: seq<Action>)
    requires k != k'
    ensures Execution(ws, acts) && Empty(ws[0]) && forall i :: 0 <= i < |acts| ==> Alone(ws[i], acts[i], m.uid)
    ensures m.uid in ws[|acts|].ledgers
    ensures ws[|acts|].ledgers[m.uid].creates ==
            [Creation(1, 0, Some(RunRef(k, RunName(m, 1)))), Creation(1, 0, Some(RunRef(k', RunName(m, 1))))]
  {
    hide RunName, Next, Alone, Solo;
    var w;
    ws, acts, w := TwoKindsReached(m, k, k');
    forall i | 0 <= i < |acts| ensures Alone(ws[i], acts[i], m.uid) {
      SoloIsAlone(ws[i], acts[i], m.uid);
    }
  }

  /** Every pass renders the same kind, and no outside deletion. */
  function Uniform(k: Kind): Action -> bool {
    (a: Action) => !a.DropRun? && (a.Reconcile? ==> a.calls.runKind == Some(k))
  }

  /** Artifact `m` tracks its first run; its namesake `m'` waits with its finalizer set. */
  lemma NamesakesReached(m: Meta, m': Meta, k: Kind) returns (ws: seq<World>, acts: seq<Action>, w: World)
    requires m.uid != m'.uid
    ensures Reaches(ws, acts, w, Uniform(k)) && Bare(w) && Known(w, m, true) && Idle(w, m', true)
    ensures w.artifacts[m.uid].status.ref == Some(RunRef(k, RunName(m, 1)))
    ensures w.runs.Keys == {RunRef(k, RunName(m, 1))} && w.ledgers[m'.uid].creates == []
  {
    hide RunName, Next, Bare, Reaches;
    var u, u', ok := m.uid, m'.uid, Uniform(k);
    StartReached(ok);
    ws, acts := [START], [];
    var b1, b2 := Admit(m, PLAIN), Admit(m', PLAIN);
    GoOn(ws, acts, START, b1, ok);
    Admitted(START, m);
    ws, acts, w := ws + [Next(START, b1)], acts + [b1], Next(START, b1);
    assert u' !in w.ledgers by { assert Unmoved(START, w, u'); }
    GoOn(ws, acts, w, b2, ok);
    Admitted(w, m');
    assert Unmoved(w, Next(w, b2), u);
    ws, acts, w := ws + [Next(w, b2)], acts + [b2], Next(w, b2);
    var a1, a2, a3 := PassOf(u, MAKER, k, true), PassOf(u', MAKER, k, true), PassOf(u, MAKER, k, true);
    PassEnabled(w, u, MAKER, k, true);
    GoOn(ws, acts, w, a1, ok);
    Finalized(w, m, k);
    assert Unmoved(w, Next(w, a1), u');
    ws, acts, w := ws + [Next(w, a1)], acts + [a1], Next(w, a1);
    PassEnabled(w, u', MAKER, k, true);
    GoOn(ws, acts, w, a2, ok);
    Finalized(w, m', k);
    assert Unmoved(w, Next(w, a2), u);
    ws, acts, w := ws + [Next(w, a2)], acts + [a2], Next(w, a2);
    PassEnabled(w, u, MAKER, k, true);
    GoOn(ws, acts, w, a3, ok);
    Launched(w, m, k, true);
    assert Unmoved(w, Next(w, a3), u');
    ws, acts, w := ws + [Next(w, a3)], acts + [a3], Next(w, a3);
  }

  /** The condition on other Artifacts is needed: while one namesake keeps retrying a
      cancellation whose patch is lost, it deletes the run the other has just created under the
      shared name, and the other creates its attempt 1 twice. */
  lemma NamesakesDuplicate(m: Meta, m': Meta, k: Kind) returns (ws: seq<World>, acts: seq<Action>)
    requires m.uid != m'.uid && RunPrefix(m) == RunPrefix(m')
    ensures Execution(ws, acts) && Empty(ws[0])
    ensures forall i :: 0 <= i < |acts| ==> !acts[i].DropRun? && OneKind(acts[i], m'.uid, k)
    ensures m'.uid in ws[|acts|].ledgers
    ensures var r := RunRef(k, RunName(m', 1));
            ws[|acts|].ledgers[m'.uid].creates == [Creation(1, 0, Some(r)), Creation(1, 0, Some(r))]
  {
    hide RunName, Next, Bare, Execution, Empty;
    var u, u', ok, w := m.uid, m'.uid, Uniform(k), START;
    ws, acts, w := NamesakesReached(m, m', k);
    var r := RunRef(k, RunName(m', 1));
    assert RunName(m, 1) == RunName(m', 1) by { RunNamesAgree(m, 1, m', 1); }
    var cancel, launch := PassOf(u, NO_MAKER, k, false), PassOf(u', MAKER, k, false);
    PassEnabled(w, u, NO_MAKER, k, false);
    GoOn(ws, acts, w, cancel, ok);
    CancelLost(w, m, k, r);
    assert Unmoved(w, Next(w, cancel), u');
    ws, acts, w := ws + [Next(w, cancel)], acts + [cancel], Next(w, cancel);
    PassEnabled(w, u', MAKER, k, false);
    GoOn(ws, acts, w, launch, ok);
    Launched(w, m', k, false);
    assert Unmoved(w, Next(w, launch), u);
    ws, acts, w := ws + [Next(w, launch)], acts + [launch], Next(w, launch);
    PassEnabled(w, u, NO_MAKER, k, false);
    GoOn(ws, acts, w, cancel, ok);
    CancelLost(w, m, k, r);
    assert Unmoved(w, Next(w, cancel), u');
    ws, acts, w := ws + [Next(w, cancel)], acts + [cancel], Next(w, cancel);
    PassEnabled(w, u', MAKER, k, false);
    GoOn(ws, acts, w, launch, ok);
    Launched(w, m', k, false);
    ws, acts, w := ws + [Next(w, launch)], acts + [launch], Next(w, launch);
  }
}
