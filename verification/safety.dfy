/**
 What the controller never does: destroy foreign objects, act for a sensor, forget a run it
 was told to cancel, or release an Artifact whose object still stands.
 */
module Safety {
  import opened Api
  import opened Delays
  import opened Journal
  import opened Names
  import opened Passes
  import opened PassFacts
  import opened Worlds
  import opened History
  import opened Accounting
  import opened CrashSafety
  import opened Drift

  // ---------------------------------------------------------- foreign objects

  lemma PassStore(w: World, u: Uid, c: Calls)
    requires u in w.artifacts && BookedAt(w, u)
    ensures StoreEffect(CtxOf(w, u, c), ViewOf(w, u), OutcomeOf(w, u, c).view)
  {
    hide OutcomeOf, BookedAt, RunEffect, StoreEffect, DriftEffect, AllGated, Journalled, Coherent;
    PassRelated(w, u, c);
  }

  /** Foreign objects survive: over every run of the system, through whatever route, a pass
      writes nothing to the store and removes at most objects that are unstamped or stamped
      with the hash of the identity the Artifact was created with. */
  lemma ForeignObjectsSurvive(ws: seq<World>, acts: seq<Action>, n: nat, k: string)
    requires Execution(ws, acts) && Empty(ws[0]) && n < |acts| && acts[n].Reconcile?
    ensures k in ws[n + 1].objects ==> k in ws[n].objects && ws[n + 1].objects[k] == ws[n].objects[k]
    ensures k in ws[n].objects && k !in ws[n + 1].objects ==>
              && acts[n].uid in ws[n].artifacts && acts[n].calls.lookup.Found?
              && Own(ws[n].objects[k], acts[n].calls.lookup.def.stampKey,
                     ws[n].artifacts[acts[n].uid].meta.identityHash)
  {
    hide BookedAt, OutcomeOf, AfterPass, Own;
    AlwaysBooked(ws, acts, n);
    var w, u, c := ws[n], acts[n].uid, acts[n].calls;
    assert Enabled(w, acts[n]) && ws[n + 1] == Next(w, acts[n]);
    if u in w.artifacts {
      assert BookedAt(w, u);
      AfterPassObjects(w, u, c, acts[n].kept, acts[n].draw);
      PassStore(w, u, c);
    }
  }

  lemma AfterPassObjects(w: World, u: Uid, c: Calls, kept: bool, draw: Draw)
    requires u in w.artifacts
    ensures AfterPass(w, u, c, kept, draw).objects == OutcomeOf(w, u, c).view.objects
    ensures AfterPass(w, u, c, kept, draw).runs == OutcomeOf(w, u, c).view.runs
  {
    hide OutcomeOf, Recorded, Stored, Patched;
  }

  // ------------------------------------------------------------------ Observe

  /** The pass gets past suspension, deletion and the Observe cancellation. */
  predicate Attends(x: Ctx, a: View) {
    !a.deleting && a.finalizer && !x.sp.suspend && (a.status.ref.Some? ==> x.c.runDeleteOk)
  }

  lemma SensorUntracks(p: Invariant, x: Ctx, a: View)
    requires Initial(p, x, a) && x.sp.observe && Attends(x, a)
    ensures Pass(x, a).view.status.ref.None?
    ensures Pass(x, a).view.runs == if a.status.ref.Some? then a.runs - {a.status.ref.value} else a.runs
  {
    hide Initial, Retried, Fresh, WithClass, HonourRetry, RunName;
    BeginRetried(p, x, a);
    RetryKept(p, x, a, Begin(a));
    var w := HonourRetry(x, Begin(a));
    HonourKeepsRef(x, Begin(a));
    assert w.runs == a.runs;
    if w.status.ref.Some? {
      CancelledFresh(p, x, a, w);
      StaysUntracked(p, x, a, Cancel(w));
    } else {
      RetriedFresh(p, x, a, w);
      StaysUntracked(p, x, a, w);
    }
  }

  lemma StaysUntracked(p: Invariant, x: Ctx, a: View, v: View)
    requires Fresh(p, x, a, v) && x.sp.observe && v.status.ref.None?
    ensures WithClass(x, v).view.status.ref.None? && WithClass(x, v).view.runs == v.runs
  {
    hide Fresh, WithClass, RunName, LetGo, StartsRun, StoreEffect, DriftEffect, Journalled, Coherent, AllGated;
    Restart(p, x, a, v);
    WithClassKept(p, x, v, v);
  }

  /** Observe is a sensor: no pass under Observe creates a run or changes the store, through
      any route, and every pass that is not suspended, terminating or stuck on the cancellation
      call leaves nothing tracked. */
  lemma ObserveIsASensor(ws: seq<World>, acts: seq<Action>, n: nat, u: Uid)
    requires Execution(ws, acts) && Empty(ws[0]) && n < |acts|
    requires acts[n].Reconcile? && acts[n].uid == u && u in ws[n].artifacts && ws[n].artifacts[u].spec.observe
    ensures ws[n + 1].objects == ws[n].objects
    ensures forall r :: r in ws[n + 1].runs ==> r in ws[n].runs && ws[n + 1].runs[r] == ws[n].runs[r]
    ensures u in ws[n].ledgers && u in ws[n + 1].ledgers && ws[n + 1].ledgers[u].creates == ws[n].ledgers[u].creates
    ensures acts[n].kept && u in ws[n + 1].artifacts && Attends(CtxOf(ws[n], u, acts[n].calls), ViewOf(ws[n], u)) ==>
              ws[n + 1].artifacts[u].status.ref.None?
  {
    hide Booked, OutcomeOf, AfterPass, Attends, Recorded, Patched;
    AlwaysBooked(ws, acts, n);
    var w, c := ws[n], acts[n].calls;
    assert Enabled(w, acts[n]) && ws[n + 1] == Next(w, acts[n]);
    assert BookedAt(w, u);
    AfterPassFacts(w, u, c, acts[n].kept, acts[n].draw);
    SensorEffects(w, u, c);
  }

  lemma SensorEffects(w: World, u: Uid, c: Calls)
    requires u in w.artifacts && BookedAt(w, u) && w.artifacts[u].spec.observe
    ensures var v := OutcomeOf(w, u, c).view;
            && v.objects == w.objects && !StartsRun(v.journal, false)
            && (forall r :: r in v.runs ==> r in w.runs && v.runs[r] == w.runs[r])
            && (Attends(CtxOf(w, u, c), ViewOf(w, u)) ==> v.status.ref.None?)
  {
    hide Booked, Pass, RunName, LetGo, StartsRun, Attends, Initial;
    PassStore(w, u, c);
    PassRuns(w, u, c);
    PassInitial(w, u, c);
    if Attends(CtxOf(w, u, c), ViewOf(w, u)) {
      SensorUntracks(Continues(w.ledgers[u].accounts), CtxOf(w, u, c), ViewOf(w, u));
    }
  }

  // ------------------------------------------------------------- cancellation

  /** An Observe flip cancels the tracked run: once the delete call succeeds the reference is
      cleared and the run is gone; a failed call keeps both and returns the error. */
  lemma ObserveCancels(w: World, u: Uid, c: Calls)
    requires u in w.artifacts && BookedAt(w, u) && w.artifacts[u].status.ref.Some?
    requires var a := w.artifacts[u]; a.spec.observe && !a.spec.suspend && !a.deleting && a.finalizer
    ensures var o, r := OutcomeOf(w, u, c), w.artifacts[u].status.ref.value;
            if c.runDeleteOk then o.view.status.ref.None? && o.view.runs == w.runs - {r}
            else o.result == Error && o.view.status.ref == Some(r) && o.view.runs == w.runs
  {
    hide Booked, Initial, WithClass, Closed;
    PassInitial(w, u, c);
    if c.runDeleteOk {
      SensorUntracks(Continues(w.ledgers[u].accounts), CtxOf(w, u, c), ViewOf(w, u));
    }
  }

  /** A cancellation whose patch was lost converges: the next pass finds the run gone, clears
      the reference and changes nothing else in the cluster. */
  lemma LostCancellationConverges(w: World, u: Uid, c: Calls, c': Calls, draw: Draw)
    requires u in w.artifacts && BookedAt(w, u) && w.artifacts[u].status.ref.Some? && c.runDeleteOk && c'.runDeleteOk
    requires var a := w.artifacts[u]; a.spec.observe && !a.spec.suspend && !a.deleting && a.finalizer
    ensures var w' := AfterPass(w, u, c, false, draw);
            u in w'.artifacts && !w'.artifacts[u].deleting ==>
              OutcomeOf(w', u, c').view.status.ref.None? && OutcomeOf(w', u, c').view.runs == w'.runs
  {
    hide Booked, OutcomeOf, AfterPass, Recorded;
    ObserveCancels(w, u, c);
    AfterPassFacts(w, u, c, false, draw);
    BookedPass(w, u, c, false, draw, u);
    var w' := AfterPass(w, u, c, false, draw);
    if u in w'.artifacts && !w'.artifacts[u].deleting {
      ObserveCancels(w', u, c');
    }
  }

  /** The pass of a Full Artifact gets as far as finding nothing at the rendered key. */
  predicate Searches(x: Ctx, a: View, cl: Class) {
    && !a.deleting && a.finalizer && !x.sp.suspend && !x.sp.observe && x.c.lookup == Found(cl) && x.c.key.Some?
    && !Reached(x.sp.ttl, Age(x)) && x.c.driverOk && !Reached(x.sp.deleteAfter, Age(x))
    && x.c.observeOk && x.c.key.value !in a.objects
  }

  lemma SearchingPass(x: Ctx, a: View, cl: Class)
    requires Searches(x, a, cl)
    ensures Pass(x, a) == MissingPass(x, Handed(x, a), cl)
  {
    hide ExistingPass, Reached, ExpiredPass, ObservedMissingPass, MissingPass, DeletePass;
    var w := HonourRetry(x, Begin(a));
    assert w.objects == a.objects;
    assert Pass(x, a) == Attend(x, w) == WithClass(x, w) == WithKey(x, Handed(x, a), cl, x.c.key.value);
  }

  /** A class that lost its generator cancels the tracked run under the same rule. */
  lemma GeneratorlessCancels(x: Ctx, a: View, cl: Class)
    requires Searches(x, a, cl) && cl.generator.None? && a.status.ref.Some?
    ensures var o, r := Pass(x, a), a.status.ref.value;
            if x.c.runDeleteOk then o.view.status.ref.None? && o.view.runs == a.runs - {r}
            else o.result == Error && o.view.status.ref == Some(r) && o.view.runs == a.runs
  {
    hide Pass, Reached, EffectiveGate, CreateRun, InFlight, Handed;
    SearchingPass(x, a, cl);
    HandedKeeps(x, a);
  }

  /** And a cancellation whose patch was lost converges on this route too: the next pass finds
      the run gone, clears the reference and changes no run. */
  lemma LostGeneratorlessConverges(w: World, u: Uid, c: Calls, c': Calls, cl: Class, cl': Class, draw: Draw)
    requires u in w.artifacts && BookedAt(w, u) && w.artifacts[u].status.ref.Some? && c.runDeleteOk && c'.runDeleteOk
    requires Searches(CtxOf(w, u, c), ViewOf(w, u), cl) && cl.generator.None? && cl'.generator.None?
    ensures var w' := AfterPass(w, u, c, false, draw);
            u in w'.artifacts && Searches(CtxOf(w', u, c'), ViewOf(w', u), cl') ==>
              OutcomeOf(w', u, c').view.status.ref.None? && OutcomeOf(w', u, c').view.runs == w'.runs
  {
    hide Booked, Pass, AfterPass, Recorded, Searches;
    GeneratorlessCancels(CtxOf(w, u, c), ViewOf(w, u), cl);
    AfterPassFacts(w, u, c, false, draw);
    var w' := AfterPass(w, u, c, false, draw);
    if u in w'.artifacts && Searches(CtxOf(w', u, c'), ViewOf(w', u), cl') {
      GeneratorlessCancels(CtxOf(w', u, c'), ViewOf(w', u), cl');
    }
  }

  lemma HandedKeeps(x: Ctx, a: View)
    requires x.c.key.Some?
    ensures Handed(x, a).runs == a.runs && Handed(x, a).status.ref == a.status.ref && Handed(x, a).objects == a.objects
  {
    hide HonourRetry;
    HonourKeepsRef(x, Begin(a));
  }

  // ------------------------------------------------------------ the finalizer

  /** A terminating Full Artifact whose deletion policy has an object of its own to remove. */
  predicate Holds(w: World, u: Uid, stampKey: string, o: Object) {
    && u in w.artifacts
    && var a := w.artifacts[u];
       && a.deleting && a.finalizer && !a.spec.observe && a.spec.deleteOnRemoval && a.status.key != ""
       && a.status.key in w.objects && w.objects[a.status.key] == o && Own(o, stampKey, a.status.specHash)
  }

  /** Passes find the class (or fail to reach it), the store keeps refusing, and nobody else
      touches the object or the spec. */
  predicate Stubborn(w: World, a: Action, u: Uid, stampKey: string) {
    && (a.Reconcile? && a.uid == u ==>
          !a.calls.lookup.NotFound? && (a.calls.lookup.Found? ==> a.calls.lookup.def.stampKey == stampKey))
    && !(a.Refuse? && !a.refuse) && !(a.Edit? && a.uid == u)
    && (u in w.artifacts ==>
          !(a.Upload? && a.key == w.artifacts[u].status.key) && !(a.Erase? && a.key == w.artifacts[u].status.key))
  }

  lemma RefusedPass(w: World, u: Uid, c: Calls, kept: bool, draw: Draw, stampKey: string, o: Object)
    requires Holds(w, u, stampKey, o) && w.refusing
    requires !c.lookup.NotFound? && (c.lookup.Found? ==> c.lookup.def.stampKey == stampKey)
    ensures Holds(AfterPass(w, u, c, kept, draw), u, stampKey, o)
    ensures OutcomeOf(w, u, c).result == Error && AfterPass(w, u, c, kept, draw).objects == w.objects
  {
    hide ReconcilePass, Recorded, TruncateOpt, Own;
  }

  lemma RefusedStep(w: World, a: Action, u: Uid, stampKey: string, o: Object)
    requires Enabled(w, a) && AllBooked(w) && Holds(w, u, stampKey, o) && w.refusing && Stubborn(w, a, u, stampKey)
    ensures Holds(Next(w, a), u, stampKey, o) && Next(w, a).refusing
  {
    hide OutcomeOf, Booked, AfterPass, Own;
    assert BookedAt(w, u);
    if a.Reconcile? && a.uid in w.artifacts {
      assert BookedAt(w, a.uid);
      AfterPassFacts(w, a.uid, a.calls, a.kept, a.draw);
      if a.uid == u {
        RefusedPass(w, u, a.calls, a.kept, a.draw, stampKey, o);
      } else {
        PassStore(w, a.uid, a.calls);
      }
    }
  }

  /** Any sequence of refused deletes leaves the object and the finalizer in place. */
  lemma RefusedDeletesChangeNothing(ws: seq<World>, acts: seq<Action>, n: nat, u: Uid, stampKey: string, o: Object)
    requires Execution(ws, acts) && n < |ws| && AllBooked(ws[0]) && Holds(ws[0], u, stampKey, o) && ws[0].refusing
    requires forall i :: 0 <= i < |acts| ==> Stubborn(ws[i], acts[i], u, stampKey)
    ensures Holds(ws[n], u, stampKey, o) && ws[n].refusing
  {
    forall w, a | AllBooked(w) && Holds(w, u, stampKey, o) && w.refusing && Stubborn(w, a, u, stampKey) && Enabled(w, a)
      ensures AllBooked(Next(w, a)) && Holds(Next(w, a), u, stampKey, o) && Next(w, a).refusing
    {
      hide BookedAt, Next, Holds, Stubborn;
      BookedStep(w, a);
      RefusedStep(w, a, u, stampKey, o);
    }
    hide BookedAt, Next, Holds, Stubborn;
    Throughout(ws, acts, w => AllBooked(w) && Holds(w, u, stampKey, o) && w.refusing,
               (w, a) => Stubborn(w, a, u, stampKey), n);
  }

  /** The first permitted pass completes: the object is gone and so is the Artifact. */
  lemma PermittedDeleteCompletes(w: World, u: Uid, c: Calls, draw: Draw, stampKey: string, o: Object)
    requires Holds(w, u, stampKey, o) && !w.refusing
    requires c.lookup.Found? && c.lookup.def.stampKey == stampKey && c.driverOk && c.observeOk
    ensures var w' := AfterPass(w, u, c, true, draw);
            u !in w'.artifacts && w'.objects == w.objects - {w.artifacts[u].status.key}
  {
    hide ReconcilePass, Recorded, TruncateOpt, Own;
  }

  /** However long the store refused, lifting the refusal lets the next pass finish. */
  lemma RefusalsThenPermission(ws: seq<World>, acts: seq<Action>, u: Uid, stampKey: string, o: Object, c: Calls,
                               draw: Draw)
    requires Execution(ws, acts) && AllBooked(ws[0]) && Holds(ws[0], u, stampKey, o) && ws[0].refusing
    requires forall i :: 0 <= i < |acts| ==> Stubborn(ws[i], acts[i], u, stampKey)
    requires c.lookup.Found? && c.lookup.def.stampKey == stampKey && c.driverOk && c.observeOk
    ensures var w := ws[|acts|];
            && u in w.artifacts && w.artifacts[u].status.key in w.objects
            && var w' := AfterPass(Next(w, Refuse(false)), u, c, true, draw);
               u !in w'.artifacts && w'.objects == w.objects - {w.artifacts[u].status.key}
  {
    hide AfterPass, Stubborn, BookedAt, Own;
    RefusedDeletesChangeNothing(ws, acts, |acts|, u, stampKey, o);
    PermittedDeleteCompletes(Next(ws[|acts|], Refuse(false)), u, c, draw, stampKey, o);
  }

  /** Finalizer release: when the finalizer drops from a Full Artifact with deletion policy
      Delete, a rendered key and a class that is found, no object of its own is left there. */
  lemma ReleaseLeavesNothing(w: World, u: Uid, c: Calls, kept: bool, draw: Draw)
    requires u in w.artifacts && BookedAt(w, u)
    requires var a := w.artifacts[u];
             a.deleting && a.finalizer && !a.spec.observe && a.spec.deleteOnRemoval && a.status.key != ""
    requires c.lookup.Found?
    ensures var w', key := AfterPass(w, u, c, kept, draw), w.artifacts[u].status.key;
            u !in w'.artifacts ==>
              !(key in w'.objects && Own(w'.objects[key], c.lookup.def.stampKey, w.artifacts[u].meta.identityHash))
  {
    hide ReconcilePass, Recorded, TruncateOpt, Own, RunName, Coherent, LegalLog, Replay;
  }

  // -------------------------------------------------------------------- expiry

  /** The pass of a Full Artifact reaches its expiry. */
  predicate AtExpiry(x: Ctx, a: View, cl: Class) {
    && !a.deleting && a.finalizer && !x.sp.suspend && !x.sp.observe && x.c.lookup == Found(cl) && x.c.key.Some?
    && !Reached(x.sp.ttl, Age(x)) && x.c.driverOk && Reached(x.sp.deleteAfter, Age(x))
  }

  /** ... and parks the Artifact. */
  predicate Retires(x: Ctx, a: View, cl: Class) {
    AtExpiry(x, a, cl) && x.c.observeOk && !a.refusing
  }

  lemma HonourHolds(x: Ctx, v: View)
    ensures var w := HonourRetry(x, v);
            w.objects == v.objects && w.refusing == v.refusing && w.deleting == v.deleting && w.finalizer == v.finalizer
  {
  }

  lemma ExpiryPass(x: Ctx, a: View, cl: Class)
    requires AtExpiry(x, a, cl)
    ensures var v := Handed(x, a);
            && v.objects == a.objects && v.refusing == a.refusing
            && v.deleting == a.deleting && v.finalizer == a.finalizer
            && Pass(x, a) == ExpiredPass(x, v, cl, x.c.key.value)
  {
    hide HonourRetry, Consult, DeletePass, Reached, ExpiredPass;
    var w := HonourRetry(x, Begin(a));
    HonourHolds(x, Begin(a));
    assert Pass(x, a) == Attend(x, w) == WithClass(x, w) == WithKey(x, Handed(x, a), cl, x.c.key.value);
  }

  /** A pass at expiry deletes the object at the key exactly when the store answers, allows it
      and the object is our own, whatever the status already says; it touches no other object,
      and parks the Artifact when it deletes. */
  lemma ExpiryDeletesExactly(x: Ctx, a: View, cl: Class)
    requires AtExpiry(x, a, cl) && x.c.key.value in a.objects
    ensures var v, key := Pass(x, a).view, x.c.key.value;
            && v.objects == (if key in v.objects then a.objects else a.objects - {key})
            && (key !in v.objects <==>
                  x.c.observeOk && !a.refusing && Own(a.objects[key], cl.stampKey, x.m.identityHash))
            && (key !in v.objects ==> v.status.state == StateExpired)
  {
    hide Own, Pass, Handed, Reached;
    ExpiryPass(x, a, cl);
  }

  lemma RetiringPass(x: Ctx, a: View, cl: Class)
    requires Retires(x, a, cl)
    ensures Pass(x, a).result == AfterExpiry(x)
    ensures var v := Pass(x, a).view; v.status.state == StateExpired && !v.deleting && v.finalizer
    ensures var o, key := Pass(x, a), x.c.key.value;
            key in a.objects && Own(a.objects[key], cl.stampKey, x.m.identityHash) ==>
            o.view.objects == a.objects - {key}
  {
    hide Own, Pass, Handed, Reached, AfterExpiry;
    ExpiryPass(x, a, cl);
  }

  /** A retiring pass with an object of ours at the key deletes it and, kept, stays parked. */
  lemma RetiringStep(w: World, a: Action, u: Uid, cl: Class)
    requires a.Reconcile? && a.uid == u && u in w.artifacts && BookedAt(w, u)
    requires Retires(CtxOf(w, u, a.calls), ViewOf(w, u), cl)
    ensures a.kept ==> u in Next(w, a).artifacts && Next(w, a).artifacts[u].status.state == StateExpired
    ensures var key := a.calls.key.value;
            key in w.objects && Own(w.objects[key], cl.stampKey, w.artifacts[u].meta.identityHash) ==>
            key !in Next(w, a).objects
  {
    hide Pass, AfterPass, Recorded, Own, Booked, Retires, TruncateOpt;
    RetiringPass(CtxOf(w, u, a.calls), ViewOf(w, u), cl);
    AfterPassFacts(w, u, a.calls, a.kept, a.draw);
    Stays(w, u, a.calls, a.kept, a.draw);
  }

  /** Deleting after expiry is not a one-shot: once a kept pass has deleted the object and
      parked the Artifact, an object of ours that someone uploads is deleted by the next pass,
      the status being Expired already. */
  lemma ExpiryDeletesAgain(ws: seq<World>, acts: seq<Action>, n: nat, u: Uid, cl: Class, cl': Class)
    requires Execution(ws, acts) && Empty(ws[0]) && n + 3 <= |acts|
    requires acts[n].Reconcile? && acts[n].uid == u && acts[n].kept && acts[n + 2].Reconcile? && acts[n + 2].uid == u
    requires u in ws[n].artifacts && Retires(CtxOf(ws[n], u, acts[n].calls), ViewOf(ws[n], u), cl)
    requires u in ws[n + 2].artifacts && Retires(CtxOf(ws[n + 2], u, acts[n + 2].calls), ViewOf(ws[n + 2], u), cl')
    requires acts[n + 1].Upload? && acts[n].calls.key == acts[n + 2].calls.key == Some(acts[n + 1].key)
    requires var hash, o := ws[n].artifacts[u].meta.identityHash, acts[n + 1].content;
             && acts[n + 1].key in ws[n].objects && Own(ws[n].objects[acts[n + 1].key], cl.stampKey, hash)
             && Own(o, cl'.stampKey, hash)
    ensures var key := acts[n + 1].key;
            && key in ws[n].objects && key !in ws[n + 1].objects && key in ws[n + 2].objects
            && key !in ws[n + 3].objects
            && ws[n + 2].artifacts[u].status.state == StateExpired
  {
    hide BookedAt, AfterPass, Own, Retires;
    AlwaysBooked(ws, acts, n);
    AlwaysBooked(ws, acts, n + 2);
    assert BookedAt(ws[n], u) && BookedAt(ws[n + 2], u);
    assert ws[n + 1] == Next(ws[n], acts[n]) && ws[n + 2] == Next(ws[n + 1], acts[n + 1])
           && ws[n + 3] == Next(ws[n + 2], acts[n + 2]);
    RetiringStep(ws[n], acts[n], u, cl);
    KeptMeta(ws[n], acts[n], u);
    RetiringStep(ws[n + 2], acts[n + 2], u, cl');
  }

  lemma KeptMeta(w: World, a: Action, u: Uid)
    requires a.Reconcile? && a.uid == u && u in w.artifacts && BookedAt(w, u) && u in Next(w, a).artifacts
    ensures Next(w, a).artifacts[u].meta == w.artifacts[u].meta
  {
    hide Booked, AfterPass, Patched, Recorded, OutcomeOf;
    AfterPassFacts(w, u, a.calls, a.kept, a.draw);
  }
}
