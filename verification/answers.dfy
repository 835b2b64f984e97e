/**
 The answers of a pass: for every route through the reconciler, what the pass leaves behind
 and what it asks for, said once for the whole pass in terms of the Artifact it started from.
 The answers name none of the functions the pass is made of (only the lemmas that lead to them
 do), so each is a statement about what those functions do together.
 */
module Answers {
  import opened Api
  import opened Delays
  import opened Journal
  import opened Names
  import opened Passes
  import opened PassFacts
  import opened Worlds
  import opened History
  import opened Accounting
  import opened Retries
  import opened Drift

  /** An outcome without its record of events. */
  function Shown(o: Outcome): Outcome {
    Outcome(o.view.(journal := []), o.result)
  }

  // ------------------------------------------------------------- before the class

  /** The status once the pass is under way: no longer blank, and a new token honoured. */
  function Greeted(x: Ctx, st: Status): Status {
    var s := st.(state := if st.state == NoState then State.Pending else st.state);
    if Pends(x.sp, st.retryToken)
    then s.(retryToken := x.sp.retry, failed := 0, lastFailure := None, cond := st.cond.(stalled := Absent))
    else s
  }

  /** Under Observe a tracked run is cancelled first. */
  predicate Cancels(x: Ctx, st: Status) {
    x.sp.observe && st.ref.Some?
  }

  function Attended(x: Ctx, st: Status): Status {
    var s := Greeted(x, st);
    if Cancels(x, st) then s.(ref := None, succeededAt := None, cond := s.cond.(generatorSucceeded := Absent)) else s
  }

  function RunsLeft(x: Ctx, a: View): map<RunRef, Run> {
    if Cancels(x, a.status) then a.runs - {a.status.ref.value} else a.runs
  }

  /** The pass is not suspended, terminating, or the one that sets the finalizer. */
  predicate Active(x: Ctx, a: View) {
    !a.deleting && a.finalizer && !x.sp.suspend
  }

  lemma BegunView(a: View)
    ensures Begin(a) == a.(status := a.status.(state := if a.status.state == NoState then State.Pending
                                               else a.status.state))
  {
  }

  lemma HonouredView(x: Ctx, v: View)
    ensures HonourRetry(x, v).(journal := []) ==
            v.(journal := [],
               status := if !Pends(x.sp, v.status.retryToken) then v.status
                         else v.status.(retryToken := x.sp.retry, failed := 0, lastFailure := None,
                                        cond := v.status.cond.(stalled := Absent)))
  {
  }

  lemma GreetedView(x: Ctx, a: View)
    ensures HonourRetry(x, Begin(a)).(journal := []) == a.(journal := [], status := Greeted(x, a.status))
  {
    hide HonourRetry, Begin;
    BegunView(a);
    HonouredView(x, Begin(a));
  }

  /** The view in which the pass turns to its class. */
  function AtClass(x: Ctx, a: View): View {
    var w := HonourRetry(x, Begin(a));
    if x.sp.observe && w.status.ref.Some? then Cancel(w) else w
  }

  lemma AtClassView(x: Ctx, a: View)
    ensures AtClass(x, a).(journal := []) == a.(journal := [], status := Attended(x, a.status), runs := RunsLeft(x, a))
  {
    hide HonourRetry, Greeted;
    GreetedView(x, a);
    var w := HonourRetry(x, Begin(a));
    assert w.status == Greeted(x, a.status) && w.runs == a.runs;
    assert w.status.ref == a.status.ref by { GreetedRef(x, a.status); }
  }

  lemma GreetedRef(x: Ctx, st: Status)
    ensures Greeted(x, st).ref == st.ref && Greeted(x, st).succeededAt == st.succeededAt
  {
  }

  /** A suspended pass touches nothing: it says so, and asks for no other pass. */
  lemma SuspendedAnswer(x: Ctx, a: View)
    requires x.sp.suspend && a.finalizer && !a.deleting
    ensures Pass(x, a) ==
            Outcome(a.(status := a.status.(state := StateSuspended,
                                           cond := a.status.cond.(reconciling := Absent,
                                                                  ready := MarkFalse(Suspended)))),
                    Done)
  {
    hide DeletePass, Attend;
  }

  /** The first pass sets the finalizer and comes back at once. */
  lemma FinalizerAnswer(x: Ctx, a: View)
    requires !a.finalizer && !a.deleting
    ensures Pass(x, a) == Outcome(a.(finalizer := true), After(10_000_000))
  {
    hide DeletePass, ReconcilePass;
  }

  /** A cancellation that fails is retried: nothing else happens. */
  lemma StuckAnswer(x: Ctx, a: View)
    requires Active(x, a) && Cancels(x, a.status) && !x.c.runDeleteOk
    ensures Shown(Pass(x, a)) == Outcome(a.(journal := [], status := Greeted(x, a.status)), Error)
  {
    hide DeletePass, WithClass, HonourRetry, Greeted;
    GreetedView(x, a);
    var w := HonourRetry(x, Begin(a));
    assert w.status == Greeted(x, a.status);
    GreetedRef(x, a.status);
  }

  lemma ClassPass(x: Ctx, a: View)
    requires Active(x, a) && (Cancels(x, a.status) ==> x.c.runDeleteOk)
    ensures Pass(x, a) == WithClass(x, AtClass(x, a))
  {
    hide DeletePass, WithClass, HonourRetry, Cancel, Greeted;
    GreetedView(x, a);
    var w := HonourRetry(x, Begin(a));
    assert w.status == Greeted(x, a.status);
    GreetedRef(x, a.status);
  }

  /** Without a class, or without a key, the pass ends there and says why. */
  lemma ClasslessAnswer(x: Ctx, a: View)
    requires Active(x, a) && (Cancels(x, a.status) ==> x.c.runDeleteOk)
    ensures var st, b := Attended(x, a.status), a.(journal := [], runs := RunsLeft(x, a));
            match x.c.lookup
            case NotFound =>
              Shown(Pass(x, a)) ==
              Outcome(b.(status := st.(cond := st.cond.(ready := MarkFalse(ClassNotFound)))), After(30 * SECOND))
            case Unreachable => Shown(Pass(x, a)) == Outcome(b.(status := st), Error)
            case Found(_) =>
              x.c.key.None? ==>
                Shown(Pass(x, a)) ==
                Outcome(b.(status := st.(cond := st.cond.(reconciling := Absent, stalled := MarkTrue(TemplateError),
                                                          ready := MarkFalse(TemplateError)))), Done)
  {
    hide Pass, AtClass, Attended, RunsLeft, WithKey;
    ClassPass(x, a);
    AtClassView(x, a);
    var v := AtClass(x, a);
    assert v.status == Attended(x, a.status);
  }

  // ------------------------------------------------------------- up to the store

  /** A positive age limit, counted from the Artifact's creation, has come. */
  lemma ReachedMeans(x: Ctx, limit: Option<int>)
    ensures Reached(limit, Age(x)) <==>
            limit.Some? && limit.value > 0 && x.m.createdAt + limit.value <= x.c.now
  {
  }

  /** The pass has a class and a key. */
  predicate Addressed(x: Ctx, a: View, cl: Class) {
    && Active(x, a) && (Cancels(x, a.status) ==> x.c.runDeleteOk) && x.c.lookup == Found(cl) && x.c.key.Some?
  }

  /** What the pass starts from once the key is recorded. */
  function Entered(x: Ctx, a: View): View
    requires x.c.key.Some?
  {
    a.(journal := [], runs := RunsLeft(x, a),
       status := Attended(x, a.status).(specHash := x.m.identityHash, key := x.c.key.value))
  }

  /** The same view with only Ready changed. */
  function Unready(v: View, r: Reason): View {
    v.(status := v.status.(cond := v.status.cond.(ready := MarkFalse(r))))
  }

  function AtKey(x: Ctx, a: View): View
    requires x.c.key.Some?
  {
    Address(x, AtClass(x, a), x.c.key.value)
  }

  lemma AtKeyView(x: Ctx, a: View)
    requires x.c.key.Some?
    ensures AtKey(x, a).(journal := []) == Entered(x, a)
  {
    hide AtClass, Attended, RunsLeft;
    AtClassView(x, a);
    assert AtClass(x, a).status == Attended(x, a.status);
  }

  /** Views that differ in their journal only. */
  lemma JournalApart(v: View, b: View)
    requires v.(journal := []) == b
    ensures v.status == b.status && v.runs == b.runs && v.objects == b.objects
    ensures v.deleting == b.deleting && v.finalizer == b.finalizer && v.refusing == b.refusing
  {
  }

  lemma KeyPass(x: Ctx, a: View, cl: Class)
    requires Addressed(x, a, cl)
    ensures Pass(x, a) == WithKey(x, AtKey(x, a), cl, x.c.key.value)
  {
    hide Pass, AtClass, WithKey;
    ClassPass(x, a);
  }

  /** The TTL deletes the Artifact, and nothing else happens. */
  lemma TtlAnswer(x: Ctx, a: View, cl: Class)
    requires Addressed(x, a, cl) && Reached(x.sp.ttl, Age(x))
    ensures Shown(Pass(x, a)) ==
            if x.c.crDeleteOk then Outcome(Entered(x, a).(deleting := true), Done) else Outcome(Entered(x, a), Error)
  {
    hide Pass, AtKey, Entered, Addressed, Reached, Consult, ExpiredPass;
    assert x.c.key.Some? by { HasKey(x, a, cl); }
    KeyPass(x, a, cl);
    AtKeyView(x, a);
  }

  lemma HasKey(x: Ctx, a: View, cl: Class)
    requires Addressed(x, a, cl)
    ensures x.c.key.Some? && x.c.lookup == Found(cl)
  {
    hide Active, Cancels;
  }

  /** A driver that cannot be built, or a store that does not answer, only turns Ready False. */
  lemma StoreSilentAnswer(x: Ctx, a: View, cl: Class)
    requires Addressed(x, a, cl) && !Reached(x.sp.ttl, Age(x)) && (!x.c.driverOk || !x.c.observeOk)
    ensures Shown(Pass(x, a)) ==
            Outcome(Unready(Entered(x, a), StoreUnavailable),
                    if !x.c.driverOk then After(MINUTE)
                    else if Reached(x.sp.deleteAfter, Age(x)) && !x.sp.observe then AfterAbout(MINUTE)
                    else AfterAbout(30 * SECOND))
  {
    hide Pass, AtKey, Entered, Addressed, Reached;
    HasKey(x, a, cl);
    KeyPass(x, a, cl);
    AtKeyView(x, a);
    JournalApart(AtKey(x, a), Entered(x, a));
  }

  // --------------------------------------------------------------------- expiry

  /** An own or unstamped object stands at the key. */
  predicate OwnAt(x: Ctx, a: View, cl: Class, key: string) {
    key in a.objects && Own(a.objects[key], cl.stampKey, x.m.identityHash)
  }

  predicate Expiry(x: Ctx, a: View, cl: Class) {
    && Addressed(x, a, cl) && !Reached(x.sp.ttl, Age(x)) && x.c.driverOk && x.c.observeOk
    && Reached(x.sp.deleteAfter, Age(x)) && !x.sp.observe
  }

  /** At expiry a refused delete only turns Ready False. */
  lemma ExpiryRefusedAnswer(x: Ctx, a: View, cl: Class)
    requires Expiry(x, a, cl) && a.refusing && OwnAt(x, a, cl, x.c.key.value)
    ensures Shown(Pass(x, a)) == Outcome(Unready(Entered(x, a), StoreUnavailable), AfterAbout(MINUTE))
  {
    hide Pass, AtKey, Addressed, Reached, Own, RunsLeft, Attended;
    HasKey(x, a, cl);
    KeyPass(x, a, cl);
    AtKeyView(x, a);
    JournalApart(AtKey(x, a), Entered(x, a));
  }

  /** Otherwise the Artifact is parked: our own object is gone, a foreign one stays, the run is
      let go, and only a TTL asks for another pass. */
  lemma ExpiryAnswer(x: Ctx, a: View, cl: Class)
    requires Expiry(x, a, cl) && !(a.refusing && OwnAt(x, a, cl, x.c.key.value))
    ensures var e, key := Entered(x, a), x.c.key.value;
            Shown(Pass(x, a)) ==
            Outcome(e.(objects := if OwnAt(x, a, cl, key) then a.objects - {key} else a.objects,
                       status := e.status.(state := StateExpired, digest := "", ref := None, succeededAt := None,
                                           cond := e.status.cond.(reconciling := Absent, stalled := Absent,
                                                                  inStore := MarkFalse(Expired),
                                                                  ready := MarkFalse(Expired)))),
                    if x.sp.ttl.Some? && x.sp.ttl.value > 0 then After(x.sp.ttl.value - Age(x) + SECOND) else Done)
  {
    hide Pass, AtKey, Addressed, Own, RunsLeft, Attended;
    HasKey(x, a, cl);
    KeyPass(x, a, cl);
    AtKeyView(x, a);
    JournalApart(AtKey(x, a), Entered(x, a));
  }

  // ------------------------------------------------------ an object at the key

  /** The store answers, and there is an object at the key. */
  predicate Finds(x: Ctx, a: View, cl: Class) {
    && Addressed(x, a, cl) && !Reached(x.sp.ttl, Age(x)) && x.c.driverOk && x.c.observeOk
    && (Reached(x.sp.deleteAfter, Age(x)) ==> x.sp.observe) && x.c.key.value in a.objects
  }

  lemma FoundPass(x: Ctx, a: View, cl: Class)
    requires Finds(x, a, cl)
    ensures x.c.key.Some? && Pass(x, a) == ExistingPass(x, AtKey(x, a), cl, a.objects[x.c.key.value])
    ensures AtKey(x, a).(journal := []) == Entered(x, a)
  {
    hide Pass, AtKey, Addressed, Reached, ExistingPass, RunsLeft, Attended;
    HasKey(x, a, cl);
    KeyPass(x, a, cl);
    AtKeyView(x, a);
    JournalApart(AtKey(x, a), Entered(x, a));
  }

  /** A foreign object is neither adopted nor overwritten: the pass reports the conflict and
      leaves digest, counters, runs and store alone. */
  lemma ConflictAnswer(x: Ctx, a: View, cl: Class)
    requires Finds(x, a, cl) && !OwnAt(x, a, cl, x.c.key.value)
    ensures var e := Entered(x, a);
            Shown(Pass(x, a)) ==
            Outcome(e.(status := e.status.(state := StateConflict,
                                           cond := e.status.cond.(reconciling := Absent,
                                                                  inStore := MarkFalse(KeyConflict),
                                                                  ready := MarkFalse(KeyConflict)))),
                    AfterAbout(x.sp.Interval()))
    ensures a.journal == [] ==> !HasVerified(Pass(x, a).view.journal)
  {
    hide Pass, AtKey, Finds, Own, RunsLeft, Attended, MissingPass, Verify, HasVerified;
    FoundPass(x, a, cl);
    if a.journal == [] { NothingVerified(x, a); }
    assert x.c.key.value in a.objects by { FindsObject(x, a, cl); }
    JournalApart(AtKey(x, a), Entered(x, a));
  }

  /** Getting to the store verifies nothing. */
  lemma NothingVerified(x: Ctx, a: View)
    requires x.c.key.Some? && a.journal == []
    ensures !HasVerified(AtKey(x, a).journal)
  {
    hide HonourRetry, Cancel;
    var w := HonourRetry(x, Begin(a));
    HonourWrites(x, Begin(a));
    assert Begin(a).journal == [];
    if w.status.ref.Some? { CancelWrites(w); }
  }

  lemma HonourWrites(x: Ctx, v: View)
    ensures HonourRetry(x, v).journal == v.journal || HonourRetry(x, v).journal == v.journal + [RetryHonoured]
  {
  }

  lemma CancelWrites(v: View)
    requires v.status.ref.Some?
    ensures Cancel(v).journal == v.journal + [Cancelled(v.status.attempts)]
  {
  }

  lemma FindsObject(x: Ctx, a: View, cl: Class)
    requires Finds(x, a, cl)
    ensures x.c.key.Some? && x.c.key.value in a.objects
  {
    hide Active, Cancels, Reached;
  }

  /** The content differs from a recorded baseline with no run of ours since. */
  predicate Drifted(st: Status, found: string) {
    found != "" && st.digest != "" && found != st.digest && st.ref.None? && st.succeededAt.None?
  }

  /** A Full Artifact whose class regenerates what drifted. */
  predicate Regenerates(x: Ctx, st: Status, cl: Class, found: string) {
    Drifted(st, found) && cl.DriftPolicy() == Regenerate && !x.sp.observe
  }

  /** The drift condition after a verification: raised by drift unless the class ignores it,
      cleared by an expected change, else as it was. */
  function DriftAfter(st: Status, cl: Class, found: string): Condition {
    if Drifted(st, found) then (if cl.DriftPolicy() == Ignore then st.cond.drifted else MarkTrue(ContentDrifted))
    else if found != "" && found != st.digest then Absent
    else st.cond.drifted
  }

  /** An own object makes the Artifact Ready, with a fresh baseline and a full budget. */
  lemma VerifiedAnswer(x: Ctx, a: View, cl: Class)
    requires Finds(x, a, cl) && OwnAt(x, a, cl, x.c.key.value)
    requires !Regenerates(x, Entered(x, a).status, cl, a.objects[x.c.key.value].digest)
    ensures var e, found := Entered(x, a), a.objects[x.c.key.value].digest;
            Shown(Pass(x, a)) ==
            Outcome(e.(status := e.status.(digest := found, lastVerified := Some(x.c.now), failed := 0,
                                           lastFailure := None,
                                           ref := None, succeededAt := None, state := Ready,
                                           cond := e.status.cond.(reconciling := Absent, stalled := Absent,
                                                                  drifted := DriftAfter(e.status, cl, found),
                                                                  inStore := MarkTrue(ArtifactAvailable),
                                                                  ready := MarkTrue(ArtifactAvailable)))),
                    AfterAbout(x.sp.Interval()))
  {
    hide Pass, AtKey, Finds, Own, RunsLeft, Attended, MissingPass;
    FoundPass(x, a, cl);
    JournalApart(AtKey(x, a), Entered(x, a));
    VerifiedView(x, AtKey(x, a), cl, a.objects[x.c.key.value]);
  }

  lemma VerifiedView(x: Ctx, v: View, cl: Class, o: Object)
    requires Own(o, cl.stampKey, x.m.identityHash) && !Regenerates(x, v.status, cl, o.digest)
    ensures Shown(ExistingPass(x, v, cl, o)) ==
            Outcome(v.(journal := [],
                       status := v.status.(digest := o.digest, lastVerified := Some(x.c.now), failed := 0,
                                           lastFailure := None, ref := None, succeededAt := None, state := Ready,
                                           cond := v.status.cond.(reconciling := Absent, stalled := Absent,
                                                                  drifted := DriftAfter(v.status, cl, o.digest),
                                                                  inStore := MarkTrue(ArtifactAvailable),
                                                                  ready := MarkTrue(ArtifactAvailable)))),
                    AfterAbout(x.sp.Interval()))
  {
    hide Own, MissingPass, Verify, RecordDrift, Rebaseline, DriftAfter;
    var w := if Drifts(v.status, o) then RecordDrift(v, cl, o) else Rebaseline(v, o);
    JudgedView(v, cl, o);
    JournalApart(w, w.(journal := []));
    assert ExistingPass(x, v, cl, o) == Verify(x, w, o);
    VerifyView(x, w, o);
  }

  lemma JudgedView(v: View, cl: Class, o: Object)
    ensures var w := if Drifts(v.status, o) then RecordDrift(v, cl, o) else Rebaseline(v, o);
            w.(journal := []) ==
            v.(journal := [],
               status := v.status.(cond := v.status.cond.(drifted := DriftAfter(v.status, cl, o.digest))))
  {
  }

  lemma VerifyView(x: Ctx, v: View, o: Object)
    ensures Shown(Verify(x, v, o)) ==
            Outcome(v.(journal := [],
                       status := v.status.(digest := o.digest, lastVerified := Some(x.c.now), failed := 0,
                                           lastFailure := None, ref := None, succeededAt := None, state := Ready,
                                           cond := v.status.cond.(reconciling := Absent, stalled := Absent,
                                                                  inStore := MarkTrue(ArtifactAvailable),
                                                                  ready := MarkTrue(ArtifactAvailable)))),
                    AfterAbout(x.sp.Interval()))
  {
  }

  // ------------------------------------------------------------ nothing there

  /** The store answers, and there is nothing at the key. */
  predicate Misses(x: Ctx, a: View, cl: Class) {
    && Addressed(x, a, cl) && !Reached(x.sp.ttl, Age(x)) && x.c.driverOk && x.c.observeOk
    && (Reached(x.sp.deleteAfter, Age(x)) ==> x.sp.observe) && x.c.key.value !in a.objects
  }

  /** A sensor reports absence, forgets old failures and keeps watching. */
  lemma SensorAnswer(x: Ctx, a: View, cl: Class)
    requires Misses(x, a, cl) && x.sp.observe
    ensures var e := Entered(x, a);
            Shown(Pass(x, a)) ==
            Outcome(e.(status := e.status.(failed := 0, lastFailure := None, digest := "", state := Missing,
                                           cond := e.status.cond.(generatorSucceeded := Absent, reconciling := Absent,
                                                                  stalled := Absent,
                                                                  inStore := MarkFalse(ArtifactMissing),
                                                                  ready := MarkFalse(ArtifactMissing)))),
                    AfterAbout(x.sp.Interval()))
  {
    hide Pass, AtKey, Addressed, Reached, RunsLeft, Attended;
    HasKey(x, a, cl);
    KeyPass(x, a, cl);
    AtKeyView(x, a);
    JournalApart(AtKey(x, a), Entered(x, a));
  }

  // ------------------------------------------------------- driving the generator

  /** The pass turns to the generator: nothing is there, or what is there drifted and the class
      regenerates it. */
  predicate Generates(x: Ctx, a: View, cl: Class) {
    || (Misses(x, a, cl) && !x.sp.observe)
    || (Finds(x, a, cl) && OwnAt(x, a, cl, x.c.key.value)
        && Regenerates(x, Entered(x, a).status, cl, a.objects[x.c.key.value].digest))
  }

  /** The artifact counts as missing, and drift that led here is on record. */
  function Wanted(x: Ctx, a: View): View
    requires x.c.key.Some?
  {
    var e, drifted := Entered(x, a), x.c.key.value in a.objects;
    e.(status := e.status.(digest := "",
                           cond := e.status.cond.(inStore := MarkFalse(ArtifactMissing),
                                                  drifted := if drifted then MarkTrue(ContentDrifted)
                                                             else e.status.cond.drifted)))
  }

  /** The view from which the generator is driven. */
  function AtGenerator(x: Ctx, a: View, cl: Class): View
    requires x.c.key.Some?
  {
    var v := AtKey(x, a);
    if x.c.key.value in a.objects then
      var w := RecordDrift(v, cl, a.objects[x.c.key.value]);
      Blank(w.With(w.status.(digest := "")))
    else Blank(v)
  }

  lemma GeneratorPass(x: Ctx, a: View, cl: Class)
    requires Generates(x, a, cl)
    ensures x.c.key.Some? && Pass(x, a) == Produce(x, AtGenerator(x, a, cl), cl)
    ensures AtGenerator(x, a, cl).(journal := []) == Wanted(x, a)
  {
    if Misses(x, a, cl) && !x.sp.observe {
      MissingRoute(x, a, cl);
    } else {
      DriftRoute(x, a, cl);
    }
  }

  lemma MissingRoute(x: Ctx, a: View, cl: Class)
    requires Misses(x, a, cl) && !x.sp.observe
    ensures x.c.key.Some? && Pass(x, a) == Produce(x, AtGenerator(x, a, cl), cl)
    ensures AtGenerator(x, a, cl).(journal := []) == Wanted(x, a)
  {
    hide Pass, AtKey, Addressed, Reached, RunsLeft, Attended, Produce;
    HasKey(x, a, cl);
    KeyPass(x, a, cl);
    AtKeyView(x, a);
    JournalApart(AtKey(x, a), Entered(x, a));
  }

  lemma DriftRoute(x: Ctx, a: View, cl: Class)
    requires Finds(x, a, cl) && OwnAt(x, a, cl, x.c.key.value)
    requires Regenerates(x, Entered(x, a).status, cl, a.objects[x.c.key.value].digest)
    ensures x.c.key.Some? && Pass(x, a) == Produce(x, AtGenerator(x, a, cl), cl)
    ensures AtGenerator(x, a, cl).(journal := []) == Wanted(x, a)
  {
    hide Pass, AtKey, Finds, Own, RunsLeft, Attended, Produce, Verify;
    FoundPass(x, a, cl);
    JournalApart(AtKey(x, a), Entered(x, a));
  }

  /** Stalled for a reason, not Ready, Degraded. */
  function Degrade(st: Status, r: Reason): Status {
    st.(state := Degraded,
        cond := st.cond.(reconciling := Absent, stalled := MarkTrue(r), ready := MarkFalse(r)))
  }

  /** Reconciling for one reason, not Ready for another. */
  function Working(st: Status, s: State, r: Reason, notReady: Reason): Status {
    st.(state := s, cond := st.cond.(stalled := Absent, reconciling := MarkTrue(r), ready := MarkFalse(notReady)))
  }

  /** A class without a generator: a tracked run is cancelled and forgotten once it is gone, and
      the Artifact stalls while the store is still watched. */
  lemma NoGeneratorAnswer(x: Ctx, a: View, cl: Class)
    requires Generates(x, a, cl) && cl.generator.None?
    ensures x.c.key.Some?
    ensures var e := Wanted(x, a);
            var r := e.status.ref;
            Shown(Pass(x, a)) ==
            if r.None? then Outcome(e.(status := Degrade(e.status, GeneratorNotConfigured)),
                                    AfterAbout(x.sp.Interval()))
            else if !x.c.runDeleteOk then Outcome(e, Error)
            else var st := e.status.(ref := None, succeededAt := None,
                                     cond := e.status.cond.(generatorSucceeded := Absent));
                 Outcome(e.(runs := e.runs - {r.value}, status := Degrade(st, GeneratorNotConfigured)),
                         AfterAbout(x.sp.Interval()))
  {
    hide Pass, AtGenerator, Wanted, Generates, EffectiveGate, InFlight, CreateRun, GateOpen, BackoffDelay;
    GeneratorPass(x, a, cl);
    JournalApart(AtGenerator(x, a, cl), Wanted(x, a));
  }

  /** A spent budget: the Artifact stays Degraded, whatever it tracks, and is seldom looked at. */
  lemma SpentAnswer(x: Ctx, a: View, cl: Class)
    requires Generates(x, a, cl) && cl.generator.Some?
    requires x.c.key.Some? && Wanted(x, a).status.failed >= EffectiveGate(cl).budget
    ensures var e := Wanted(x, a);
            Shown(Pass(x, a)) ==
            Outcome(e.(status := Degrade(e.status, FailureBudgetExhausted)), AfterAbout(10 * x.sp.Interval()))
  {
    hide Pass, AtGenerator, Wanted, Generates, EffectiveGate, InFlight, CreateRun, NoGenerator, GateOpen, BackoffDelay;
    GeneratorPass(x, a, cl);
    JournalApart(AtGenerator(x, a, cl), Wanted(x, a));
  }

  /** The generator is driven with budget to spare. */
  predicate Affords(x: Ctx, a: View, cl: Class) {
    && Generates(x, a, cl) && cl.generator.Some? && x.c.key.Some?
    && Wanted(x, a).status.failed < EffectiveGate(cl).budget
  }

  /** ... and a run is tracked. */
  predicate Checks(x: Ctx, a: View, cl: Class) {
    Affords(x, a, cl) && Wanted(x, a).status.ref.Some?
  }

  lemma CheckPass(x: Ctx, a: View, cl: Class)
    requires Checks(x, a, cl)
    ensures var v := AtGenerator(x, a, cl);
            && v.status.ref.Some? && v.(journal := []) == Wanted(x, a)
            && Pass(x, a) == InFlight(x, v, cl, v.status.ref.value)
  {
    hide Pass, AtGenerator, Wanted, Generates, EffectiveGate, InFlight, CreateRun, NoGenerator, GateOpen, BackoffDelay;
    GeneratorPass(x, a, cl);
    JournalApart(AtGenerator(x, a, cl), Wanted(x, a));
  }

  /** A run that cannot be read changes nothing; one that is gone is forgotten without charge. */
  lemma UnreadableAnswer(x: Ctx, a: View, cl: Class)
    requires Checks(x, a, cl) && (!x.c.runGetOk || Wanted(x, a).status.ref.value !in Wanted(x, a).runs)
    ensures var e := Wanted(x, a);
            Shown(Pass(x, a)) ==
            if !x.c.runGetOk then Outcome(e, Error)
            else Outcome(e.(status := e.status.(ref := None, succeededAt := None)), After(SECOND))
  {
    hide Pass, AtGenerator, Wanted, Generates, EffectiveGate, Evaluate;
    CheckPass(x, a, cl);
    JournalApart(AtGenerator(x, a, cl), Wanted(x, a));
  }

  // ---------------------------------------------------------- judging the run

  /** The failure is counted and dated, and the run let go. */
  function Counted(st: Status, now: int, reason: Reason): Status {
    st.(failed := st.failed + 1, lastFailure := Some(now), ref := None, succeededAt := None,
        cond := st.cond.(generatorSucceeded := MarkFalse(reason)))
  }

  /** The budget decides what is said about it ... */
  function AfterCharge(st: Status, now: int, g: Gate, reason: Reason): Status {
    if st.failed + 1 >= g.budget then Degrade(Counted(st, now, reason), FailureBudgetExhausted)
    else Working(Counted(st, now, reason), StateGenerating, BackoffPending, reason)
  }

  /** ... and when to come back: in ten intervals once it is spent, else after the backoff. */
  function ChargeWait(st: Status, g: Gate, sp: Spec): Result {
    if st.failed + 1 >= g.budget then AfterAbout(10 * sp.Interval())
    else After(BackoffDelay(st.failed + 1, g.initial, g.max))
  }

  lemma CountedView(x: Ctx, v: View, g: Gate, reason: Reason, cause: Cause)
    ensures Charge(x, v, g, reason, cause).(journal := []) ==
            v.(journal := [], status := Counted(v.status, x.c.now, reason))
  {
  }

  lemma ChargedOutcome(x: Ctx, v: View, g: Gate, reason: Reason, cause: Cause)
    ensures Shown(Failure(x, v, g, reason, cause)) ==
            Outcome(v.(journal := [], status := AfterCharge(v.status, x.c.now, g, reason)),
                    ChargeWait(v.status, g, x.sp))
  {
    hide BackoffDelay, Charge, Counted, Degrade, Working, View.Stall, View.Progress, View.In;
    CountedView(x, v, g, reason, cause);
    var w := Charge(x, v, g, reason, cause);
    JournalApart(w, v.(journal := [], status := Counted(v.status, x.c.now, reason)));
    CountedFailed(v.status, x.c.now, reason);
    StalledView(w, FailureBudgetExhausted);
    ProgressView(w, BackoffPending, reason);
  }

  lemma StalledView(v: View, r: Reason)
    ensures v.Stall(r).In(Degraded) == v.(status := Degrade(v.status, r))
  {
  }

  lemma ProgressView(v: View, r: Reason, notReady: Reason)
    ensures v.Progress(r, notReady).In(StateGenerating) == v.(status := Working(v.status, StateGenerating, r, notReady))
  {
  }

  lemma CountedFailed(st: Status, now: int, reason: Reason)
    ensures Counted(st, now, reason).failed == st.failed + 1
  {
  }

  /** A tracked run stands and can be read. */
  predicate Examines(x: Ctx, a: View, cl: Class) {
    && Checks(x, a, cl) && x.c.runGetOk && Wanted(x, a).status.ref.value in Wanted(x, a).runs
  }

  lemma JudgePass(x: Ctx, a: View, cl: Class)
    requires Examines(x, a, cl)
    ensures var v := AtGenerator(x, a, cl);
            && v.status.ref.Some? && v.(journal := []) == Wanted(x, a) && v.status.ref.value in v.runs
            && Pass(x, a) == Evaluate(x, v, cl, v.status.ref.value, v.runs[v.status.ref.value])
  {
    hide Pass, AtGenerator, Wanted, Generates, EffectiveGate, Evaluate;
    CheckPass(x, a, cl);
    JournalApart(AtGenerator(x, a, cl), Wanted(x, a));
  }

  /** A run that reports failure is charged. */
  lemma FailedAnswer(x: Ctx, a: View, cl: Class)
    requires Examines(x, a, cl) && x.c.failedWhen
    ensures var e, g := Wanted(x, a), EffectiveGate(cl);
            Shown(Pass(x, a)) ==
            Outcome(e.(status := AfterCharge(e.status, x.c.now, g, GeneratorFailed)), ChargeWait(e.status, g, x.sp))
  {
    hide Pass, AtGenerator, Wanted, Checks, EffectiveGate, Failure, AfterCharge, ChargeWait;
    JudgeHasKey(x, a, cl);
    JudgePass(x, a, cl);
    var v := AtGenerator(x, a, cl);
    JournalApart(v, Wanted(x, a));
    ChargedOutcome(x, v, EffectiveGate(cl), GeneratorFailed, ReportedFailure);
  }

  lemma JudgeHasKey(x: Ctx, a: View, cl: Class)
    requires Examines(x, a, cl)
    ensures x.c.key.Some?
  {
    hide Wanted, Generates, EffectiveGate;
  }

  /** The time of the first success: recorded, or now. */
  function SuccessTime(x: Ctx, st: Status): int {
    if st.succeededAt.Some? then st.succeededAt.value else x.c.now
  }

  /** The status once a success is on record. */
  function Succeeded(x: Ctx, st: Status): Status {
    if st.succeededAt.Some? then st
    else st.(succeededAt := Some(x.c.now), cond := st.cond.(generatorSucceeded := MarkTrue(GeneratorSucceeded)))
  }

  /** A run that reports success is waited for through the grace period, then charged: charged
      if and only if the grace period since the first success is over. */
  lemma SucceededAnswer(x: Ctx, a: View, cl: Class)
    requires Examines(x, a, cl) && !x.c.failedWhen && x.c.succeededWhen
    ensures var e, g := Wanted(x, a), EffectiveGate(cl);
            var st, left := Succeeded(x, e.status), SuccessTime(x, e.status) + cl.GracePeriod() - x.c.now;
            Shown(Pass(x, a)) ==
            if left <= 0
            then Outcome(e.(status := AfterCharge(st, x.c.now, g, SucceededWithoutArtifact)), ChargeWait(st, g, x.sp))
            else Outcome(e.(status := Working(st, StateAwaiting, AwaitingArtifact, AwaitingArtifact)),
                         After(if left < 10 * SECOND then left + SECOND else 10 * SECOND))
  {
    hide Pass, AtGenerator, Wanted, Checks, EffectiveGate, Await, NoteSuccess, AfterCharge, ChargeWait, Succeeded,
         Working;
    JudgeHasKey(x, a, cl);
    JudgePass(x, a, cl);
    var v := AtGenerator(x, a, cl);
    JournalApart(v, Wanted(x, a));
    AwaitOutcome(x, v, cl);
  }

  lemma NotedView(x: Ctx, v: View)
    ensures NoteSuccess(x, v).(journal := []) == v.(journal := [], status := Succeeded(x, v.status))
    ensures NoteSuccess(x, v).status.succeededAt == Some(SuccessTime(x, v.status))
  {
  }

  lemma AwaitOutcome(x: Ctx, v: View, cl: Class)
    ensures var st, left := Succeeded(x, v.status), SuccessTime(x, v.status) + cl.GracePeriod() - x.c.now;
            Shown(Await(x, NoteSuccess(x, v), cl)) ==
            if left <= 0
            then Outcome(v.(journal := [],
                            status := AfterCharge(st, x.c.now, EffectiveGate(cl), SucceededWithoutArtifact)),
                         ChargeWait(st, EffectiveGate(cl), x.sp))
            else Outcome(v.(journal := [], status := Working(st, StateAwaiting, AwaitingArtifact, AwaitingArtifact)),
                         After(if left < 10 * SECOND then left + SECOND else 10 * SECOND))
  {
    hide NoteSuccess, Succeeded, Failure, EffectiveGate, AfterCharge, ChargeWait;
    var w := NoteSuccess(x, v);
    NotedView(x, v);
    JournalApart(w, w.(journal := []));
    ChargedOutcome(x, w, EffectiveGate(cl), SucceededWithoutArtifact, NoArtifact);
  }

  /** When the run began: its own time, else the last failure, else the Artifact's creation. */
  function Began(x: Ctx, st: Status, run: Run): int {
    match (run.started, st.lastFailure)
    case (Some(t), _) => t
    case (None, Some(t)) => t
    case (None, None) => x.m.createdAt
  }

  /** A run that reports neither is charged if and only if a deadline is configured and passed,
      and is then deleted if it can be; otherwise run and counters stay, and the pass comes back
      in about half a minute.  It is called unrecognized only when the class closes its
      vocabulary, the run has had its time to report, and it is not in progress. */
  lemma UnfinishedAnswer(x: Ctx, a: View, cl: Class)
    requires Examines(x, a, cl) && !x.c.failedWhen && !x.c.succeededWhen
    ensures var e, g := Wanted(x, a), EffectiveGate(cl);
            var r := e.status.ref.value;
            var elapsed := x.c.now - Began(x, e.status, e.runs[r]);
            var odd := cl.generator.value.closesVocabulary && elapsed > 15 * SECOND && !x.c.inProgressWhen;
            var why := if odd then StatusUnrecognized else Generating;
            Shown(Pass(x, a)) ==
            if 0 < cl.ProgressDeadline() < elapsed
            then Outcome(e.(runs := if x.c.runDeleteOk then e.runs - {r} else e.runs,
                            status := AfterCharge(e.status, x.c.now, g, ProgressDeadlineExceeded)),
                         ChargeWait(e.status, g, x.sp))
            else Outcome(e.(status := Working(e.status, StateGenerating, why, why)), AfterAbout(30 * SECOND))
  {
    hide Pass, AtGenerator, Wanted, Generates, EffectiveGate, Failure, AfterCharge, ChargeWait, Await, NoteSuccess;
    JudgePass(x, a, cl);
    var v := AtGenerator(x, a, cl);
    JournalApart(v, Wanted(x, a));
    var w := v.(runs := if x.c.runDeleteOk then v.runs - {v.status.ref.value} else v.runs);
    ChargedOutcome(x, w, EffectiveGate(cl), ProgressDeadlineExceeded, Deadline(x.c.runDeleteOk));
  }

  /** When a run in flight is charged: it reports failure, or success with the grace period over,
      or neither with the configured deadline passed. */
  predicate Chargeable(x: Ctx, e: View, cl: Class)
    requires e.status.ref.Some? && e.status.ref.value in e.runs
  {
    if x.c.failedWhen then true
    else if x.c.succeededWhen then SuccessTime(x, e.status) + cl.GracePeriod() <= x.c.now
    else 0 < cl.ProgressDeadline() < x.c.now - Began(x, e.status, e.runs[e.status.ref.value])
  }

  /** Charged exactly then; a run that is not charged stays tracked, in place, and uncounted. */
  lemma ChargedExactly(x: Ctx, a: View, cl: Class)
    requires Examines(x, a, cl)
    ensures var e, v := Wanted(x, a), Pass(x, a).view;
            if Chargeable(x, e, cl) then v.status.failed == e.status.failed + 1 && v.status.ref.None?
            else v.status.failed == e.status.failed && v.status.ref == e.status.ref && v.runs == e.runs
  {
    hide Pass, Wanted, Checks, EffectiveGate, Generates;
    JudgeHasKey(x, a, cl);
    if x.c.failedWhen {
      FailedAnswer(x, a, cl);
    } else if x.c.succeededWhen {
      SucceededAnswer(x, a, cl);
    } else {
      UnfinishedAnswer(x, a, cl);
    }
    JournalApart(Pass(x, a).view, Shown(Pass(x, a)).view);
  }

  // --------------------------------------------------------- starting a run

  /** When the backoff lets the next attempt start. */
  function Opens(st: Status, g: Gate): int {
    if st.failed > 0 && st.lastFailure.Some? then st.lastFailure.value + BackoffDelay(st.failed, g.initial, g.max)
    else 0
  }

  predicate Backs(st: Status) {
    st.failed > 0 && st.lastFailure.Some?
  }

  /** Before the backoff is over no run is created; the pass comes back a second after it is. */
  lemma BackoffAnswer(x: Ctx, a: View, cl: Class)
    requires Affords(x, a, cl) && Wanted(x, a).status.ref.None? && Backs(Wanted(x, a).status)
    requires x.c.now < Opens(Wanted(x, a).status, EffectiveGate(cl))
    ensures var e := Wanted(x, a);
            Shown(Pass(x, a)) ==
            Outcome(e.(status := Working(e.status, StateGenerating, BackoffPending, BackoffPending)),
                    After(Opens(e.status, EffectiveGate(cl)) - x.c.now + SECOND))
  {
    hide Pass, AtGenerator, Wanted, Generates, EffectiveGate, InFlight, CreateRun, NoGenerator, BackoffDelay;
    GeneratorPass(x, a, cl);
    JournalApart(AtGenerator(x, a, cl), Wanted(x, a));
  }

  /** The next attempt may start. */
  predicate MayStart(x: Ctx, a: View, cl: Class) {
    && Affords(x, a, cl) && Wanted(x, a).status.ref.None?
    && (Backs(Wanted(x, a).status) ==> Opens(Wanted(x, a).status, EffectiveGate(cl)) <= x.c.now)
  }

  lemma CreatePass(x: Ctx, a: View, cl: Class)
    requires MayStart(x, a, cl)
    ensures var v := AtGenerator(x, a, cl);
            v.(journal := []) == Wanted(x, a) && Pass(x, a) == CreateRun(x, v, cl)
  {
    hide Pass, AtGenerator, Wanted, Generates, EffectiveGate, InFlight, CreateRun, NoGenerator, BackoffDelay;
    GeneratorPass(x, a, cl);
    JournalApart(AtGenerator(x, a, cl), Wanted(x, a));
  }

  /** A template that does not render stalls the Artifact; a run that cannot be created or owned
      leaves counters and runs alone. */
  lemma UncreatedAnswer(x: Ctx, a: View, cl: Class)
    requires MayStart(x, a, cl) && (x.c.runKind.None? || !x.c.ownerRefOk || !x.c.createOk)
    ensures var e := Wanted(x, a);
            Shown(Pass(x, a)) ==
            if x.c.runKind.None?
            then Outcome(e.(status := e.status.(cond := e.status.cond.(reconciling := Absent,
                                                                       stalled := MarkTrue(TemplateError),
                                                                       ready := MarkFalse(TemplateError)))), Done)
            else if !x.c.ownerRefOk then Outcome(e, Error)
            else Outcome(Unready(e, GeneratorFailed), AfterAbout(MINUTE))
  {
    hide Pass, AtGenerator, Wanted, Generates, EffectiveGate, RunName, Start, Adopt, BackoffDelay;
    CreatePass(x, a, cl);
    JournalApart(AtGenerator(x, a, cl), Wanted(x, a));
  }

  /** The run the next attempt is named for. */
  function NextRef(x: Ctx, st: Status): RunRef
    requires x.c.runKind.Some?
  {
    RunRef(x.c.runKind.value, RunName(x.m, st.attempts + 1))
  }

  /** A fresh name: the run is created, owned, dated and tracked as the next attempt.  A name
      taken by our own run: it is tracked as the next attempt and nothing is created.  A name
      taken by anyone else, or unreadable: nothing but Ready changes. */
  lemma CreatedAnswer(x: Ctx, a: View, cl: Class)
    requires MayStart(x, a, cl) && x.c.runKind.Some? && x.c.ownerRefOk && x.c.createOk
    ensures var e := Wanted(x, a);
            var r, n := NextRef(x, e.status), e.status.attempts + 1;
            Shown(Pass(x, a)) ==
            if r !in e.runs then
              var st := e.status.(attempts := n, ref := Some(r), succeededAt := None,
                                  cond := e.status.cond.(generatorSucceeded := MarkUnknown(Generating)));
              Outcome(e.(runs := e.runs[r := Run(Some(x.m.uid), n, Some(Truncate(x.c.now)))],
                         status := Working(st, StateGenerating, Generating, Generating)),
                      AfterAbout(30 * SECOND))
            else if x.c.existingGetOk && e.runs[r].owner == Some(x.m.uid) then
              Outcome(e.(status := e.status.(attempts := n, ref := Some(r))), After(SECOND))
            else Outcome(Unready(e, GeneratorFailed), After(MINUTE))
  {
    hide Pass, AtGenerator, Wanted, Generates, EffectiveGate, RunName, Start, Adopt, BackoffDelay;
    CreatePass(x, a, cl);
    var v := AtGenerator(x, a, cl);
    JournalApart(v, Wanted(x, a));
    StartedView(x, v, cl, NextRef(x, v.status));
    AdoptedView(x, v, cl, NextRef(x, v.status));
  }

  lemma StartedView(x: Ctx, v: View, cl: Class, r: RunRef)
    ensures Start(x, v, cl, r).(journal := []) ==
            v.(journal := [], runs := v.runs[r := Run(Some(x.m.uid), v.status.attempts + 1, Some(Truncate(x.c.now)))],
               status := v.status.(attempts := v.status.attempts + 1, ref := Some(r), succeededAt := None,
                                   cond := v.status.cond.(generatorSucceeded := MarkUnknown(Generating))))
  {
    hide EffectiveGate;
  }

  lemma AdoptedView(x: Ctx, v: View, cl: Class, r: RunRef)
    ensures Adopt(x, v, cl, r).(journal := []) ==
            v.(journal := [], status := v.status.(attempts := v.status.attempts + 1, ref := Some(r)))
  {
    hide EffectiveGate;
  }

  // --------------------------------------------------------------- terminating

  /** The deletion policy asks for nothing in the store, or there is no class to reach it by. */
  predicate LetsGo(x: Ctx, a: View) {
    !x.sp.deleteOnRemoval || a.status.key == "" || x.sp.observe || x.c.lookup.NotFound?
  }

  /** Class, driver and store answer. */
  predicate Reachable(x: Ctx) {
    x.c.lookup.Found? && x.c.driverOk && x.c.observeOk
  }

  /** An own or unstamped object, by the hash on record, stands at the recorded key. */
  predicate OwnLeft(x: Ctx, a: View) {
    x.c.lookup.Found? && a.status.key in a.objects
    && Own(a.objects[a.status.key], x.c.lookup.def.stampKey, a.status.specHash)
  }

  /** The whole terminating pass. */
  lemma TerminatingAnswer(x: Ctx, a: View)
    requires a.deleting
    ensures Pass(x, a) ==
            if !a.finalizer then Outcome(a, Done)
            else if LetsGo(x, a) then Outcome(a.(finalizer := false), Done)
            else if !Reachable(x) then Outcome(a, Error)
            else if !OwnLeft(x, a) then Outcome(a.(finalizer := false), Done)
            else if a.refusing then
              Outcome(a.(status := a.status.(state := Deleting,
                                             cond := a.status.cond.(deleting := MarkFalse(StoreDeleteFailed),
                                                                    ready := MarkFalse(StoreDeleteFailed)))), Error)
            else Outcome(a.(objects := a.objects - {a.status.key}, finalizer := false), Done)
  {
    hide Own, ReconcilePass;
  }

  /** Release, exactly: the finalizer drops if and only if the policy asks for nothing, or class,
      driver and store answer and no own object is left that the store refuses to delete. */
  lemma ReleasesExactly(x: Ctx, a: View)
    requires a.deleting && a.finalizer
    ensures var v := Pass(x, a).view;
            && (!v.finalizer <==> LetsGo(x, a) || (Reachable(x) && !(OwnLeft(x, a) && a.refusing)))
            && (LetsGo(x, a) || !OwnLeft(x, a) ==> v.objects == a.objects)
            && (!v.finalizer ==> v.status == a.status && Pass(x, a).result == Done)
  {
    hide Pass, LetsGo, Reachable, OwnLeft;
    TerminatingAnswer(x, a);
  }

  // ----------------------------------------------------------- every pass has one

  /** The routes of a pass past its class and key. */
  predicate StoreRoute(x: Ctx, a: View, cl: Class) {
    || (Addressed(x, a, cl) && Reached(x.sp.ttl, Age(x)))
    || (Addressed(x, a, cl) && !Reached(x.sp.ttl, Age(x)) && (!x.c.driverOk || !x.c.observeOk))
    || Expiry(x, a, cl)
    || (Finds(x, a, cl) && !OwnAt(x, a, cl, x.c.key.value))
    || (Finds(x, a, cl) && OwnAt(x, a, cl, x.c.key.value)
        && !Regenerates(x, Entered(x, a).status, cl, a.objects[x.c.key.value].digest))
    || (Misses(x, a, cl) && x.sp.observe)
    || Generates(x, a, cl)
  }

  lemma EveryStoreRoute(x: Ctx, a: View, cl: Class)
    requires Addressed(x, a, cl)
    ensures StoreRoute(x, a, cl)
  {
    hide Reached, Own, Entered, Active, Cancels;
  }

  /** The routes of a pass that drives the generator. */
  predicate GeneratorRoute(x: Ctx, a: View, cl: Class)
    requires x.c.key.Some?
  {
    || cl.generator.None? || Wanted(x, a).status.failed >= EffectiveGate(cl).budget
    || (Checks(x, a, cl) && (!x.c.runGetOk || Wanted(x, a).status.ref.value !in Wanted(x, a).runs))
    || Examines(x, a, cl)
    || (Affords(x, a, cl) && Wanted(x, a).status.ref.None? && Backs(Wanted(x, a).status)
        && x.c.now < Opens(Wanted(x, a).status, EffectiveGate(cl)))
    || MayStart(x, a, cl)
  }

  /** The answers leave no pass out. */
  lemma EveryPassIsAnswered(x: Ctx, a: View)
    ensures || a.deleting || !a.finalizer || x.sp.suspend
            || (Active(x, a) && Cancels(x, a.status) && !x.c.runDeleteOk)
            || (Active(x, a) && (!x.c.lookup.Found? || x.c.key.None?))
            || (x.c.lookup.Found? && StoreRoute(x, a, x.c.lookup.def))
    ensures forall cl :: Generates(x, a, cl) ==> x.c.key.Some? && GeneratorRoute(x, a, cl)
  {
    hide StoreRoute, Generates, Wanted, EffectiveGate, Opens;
    if x.c.lookup.Found? && Addressed(x, a, x.c.lookup.def) {
      EveryStoreRoute(x, a, x.c.lookup.def);
    }
    forall cl | Generates(x, a, cl) ensures x.c.key.Some? && GeneratorRoute(x, a, cl) {
      GeneratorPass(x, a, cl);
    }
  }

  // --------------------------------------------------------------- over whole runs

  /** Over every run of the system, a pass of a suspended Artifact leaves the cluster's runs, the
      store and its whole history alone; if kept, the status says Suspended and not Ready. */
  lemma SuspendedIsLeftAlone(ws: seq<World>, acts: seq<Action>, n: nat, u: Uid)
    requires Execution(ws, acts) && Empty(ws[0]) && n < |acts| && acts[n].Reconcile? && acts[n].uid == u
    requires u in ws[n].artifacts
    requires var a := ws[n].artifacts[u]; a.spec.suspend && a.finalizer && !a.deleting
    ensures ws[n + 1].runs == ws[n].runs && ws[n + 1].objects == ws[n].objects
    ensures u in ws[n].ledgers && u in ws[n + 1].ledgers && u in ws[n + 1].artifacts
    ensures ws[n + 1].ledgers[u].creates == ws[n].ledgers[u].creates
    ensures ws[n + 1].ledgers[u].accounts == ws[n].ledgers[u].accounts
    ensures var st, st' := ws[n].artifacts[u].status, ws[n + 1].artifacts[u].status;
            if !acts[n].kept then st' == st
            else st' == st.(state := StateSuspended,
                            cond := st.cond.(reconciling := Absent, ready := MarkFalse(Suspended)))
  {
    hide BookedAt, AfterPass, Pass, TruncateOpt, Wait;
    AlwaysBooked(ws, acts, n);
    var w, a := ws[n], acts[n];
    assert Enabled(w, a) && ws[n + 1] == Next(w, a);
    assert u in w.ledgers && Persist(w.artifacts[u].status) == w.artifacts[u].status by { BookedMeans(w, u); }
    SuspendedAnswer(CtxOf(w, u, a.calls), ViewOf(w, u));
    AfterPassFacts(w, u, a.calls, a.kept, a.draw);
    Stays(w, u, a.calls, a.kept, a.draw);
    assert w.ledgers[u].accounts + [] == w.ledgers[u].accounts;
  }

  lemma BookedMeans(w: World, u: Uid)
    requires AllBooked(w) && u in w.artifacts
    ensures u in w.ledgers && Persist(w.artifacts[u].status) == w.artifacts[u].status
  {
    assert BookedAt(w, u);
    hide Coherent, LegalLog, Replay, RunName;
  }

  /** Over every run of the system, what a pass verifies is an object at the rendered key that is
      unstamped or carries the hash of the Artifact's identity. */
  lemma OnlyOwnIsVerified(ws: seq<World>, acts: seq<Action>, n: nat, u: Uid)
    requires Execution(ws, acts) && Empty(ws[0]) && n < |acts| && acts[n].Reconcile? && acts[n].uid == u
    requires u in ws[n].artifacts && HasVerified(OutcomeOf(ws[n], u, acts[n].calls).view.journal)
    ensures var c := acts[n].calls;
            && c.key.Some? && c.key.value in ws[n].objects && c.lookup.Found?
            && Own(ws[n].objects[c.key.value], c.lookup.def.stampKey, ws[n].artifacts[u].meta.identityHash)
  {
    hide Booked, OutcomeOf, HasVerified, Own, Execution;
    assert |ws| == |acts| + 1 by { Lengths(ws, acts); }
    AlwaysBooked(ws, acts, n);
    assert BookedAt(ws[n], u);
    PassDrift(ws[n], u, acts[n].calls);
  }

  /** A terminating Artifact leaves the world exactly with a kept pass that releases it. */
  lemma ReleasedIsGone(w: World, u: Uid, c: Calls, kept: bool, draw: Draw)
    requires u in w.artifacts && u in w.ledgers && w.artifacts[u].deleting && w.artifacts[u].finalizer
    ensures var x, a := CtxOf(w, u, c), ViewOf(w, u);
            u !in AfterPass(w, u, c, kept, draw).artifacts <==>
            kept && (LetsGo(x, a) || (Reachable(x) && !(OwnLeft(x, a) && a.refusing)))
  {
    hide Pass, LetsGo, Reachable, OwnLeft, Recorded, Persist;
    ReleasesExactly(CtxOf(w, u, c), ViewOf(w, u));
    StillDeleting(CtxOf(w, u, c), ViewOf(w, u));
  }

  lemma StillDeleting(x: Ctx, a: View)
    requires a.deleting
    ensures Pass(x, a).view.deleting
  {
    hide Pass, LetsGo, Reachable, OwnLeft;
    TerminatingAnswer(x, a);
  }
}
