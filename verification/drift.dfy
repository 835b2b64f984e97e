/**
 Drift detection over whole runs: what a report means, that no change goes unreported,
 and when the condition clears.
 */
module Drift {
  import opened Api
  import opened Delays
  import opened Journal
  import opened Names
  import opened Passes
  import opened PassFacts
  import opened Worlds
  import opened History
  import opened Accounting

  predicate OwnWriter(u: Uid, writer: Writer) {
    writer.ByRun? && writer.owner == u
  }

  /** Someone other than the runs of `u` wrote the key since position `from`. */
  ghost predicate ForeignWrite(writes: seq<Write>, from: nat, key: string, u: Uid) {
    exists i :: from <= i < |writes| && writes[i].key == key && !OwnWriter(u, writes[i].writer)
  }

  /** Runs of `u` upload only while the persisted status tracks them. */
  predicate UploadsWhileTracked(w: World, a: Action, u: Uid) {
    a.Upload? && OwnWriter(u, a.writer) ==> u in w.artifacts && w.artifacts[u].status.ref == Some(a.writer.ref)
  }

  /** A baseline still describes what is stored where it was taken, unless a stranger wrote there. */
  ghost predicate Attributed(w: World, u: Uid) {
    u in w.artifacts && u in w.ledgers && w.artifacts[u].status.digest != "" ==>
      var l := w.ledgers[u];
      && l.baselineAt <= |w.writes|
      && (|| ForeignWrite(w.writes, l.baselineAt, l.baselineKey, u)
          || l.baselineKey !in w.objects
          || w.objects[l.baselineKey].digest == w.artifacts[u].status.digest)
  }

  /** A pass never writes: what it leaves in the store was there before. */
  lemma PassOnlyDeletes(w: World, u: Uid, c: Calls, k: string)
    requires u in w.artifacts && BookedAt(w, u) && k in OutcomeOf(w, u, c).view.objects
    ensures k in w.objects && OutcomeOf(w, u, c).view.objects[k] == w.objects[k]
  {
    hide OutcomeOf, BookedAt, RunEffect, DriftEffect, AllGated, Journalled, Coherent, Own;
    PassRelated(w, u, c);
  }

  lemma PassDrift(w: World, u: Uid, c: Calls)
    requires u in w.artifacts && BookedAt(w, u)
    ensures DriftEffect(CtxOf(w, u, c), ViewOf(w, u), OutcomeOf(w, u, c).view)
  {
    hide OutcomeOf, BookedAt, RunEffect, StoreEffect, DriftEffect, AllGated, Journalled, Coherent;
    PassRelated(w, u, c);
  }

  lemma OwnPassAttributed(w: World, u: Uid, c: Calls, kept: bool, draw: Draw)
    requires u in w.artifacts && BookedAt(w, u) && Attributed(w, u)
    ensures Attributed(AfterPass(w, u, c, kept, draw), u)
  {
    hide OutcomeOf, Booked, AfterPass, StartsRun, Wait, ForeignWrite, HasVerified, TruncateOpt;
    AfterPassFacts(w, u, c, kept, draw);
    PassDrift(w, u, c);
    var v := OutcomeOf(w, u, c).view;
    var k := if kept && HasVerified(v.journal) then v.status.key else w.ledgers[u].baselineKey;
    if k in v.objects { PassOnlyDeletes(w, u, c, k); }
  }

  lemma OtherPassAttributed(w: World, u: Uid, c: Calls, kept: bool, draw: Draw, u': Uid)
    requires u in w.artifacts && BookedAt(w, u) && Attributed(w, u') && u' != u
    ensures Attributed(AfterPass(w, u, c, kept, draw), u')
  {
    hide OutcomeOf, Booked, AfterPass, Patched, Recorded, ForeignWrite;
    AfterPassFacts(w, u, c, kept, draw);
    if u' in w.ledgers && w.ledgers[u'].baselineKey in OutcomeOf(w, u, c).view.objects {
      PassOnlyDeletes(w, u, c, w.ledgers[u'].baselineKey);
    }
  }

  /** With a baseline on record the Artifact tracks nothing, so an upload is a stranger's. */
  lemma UploadAttributed(w: World, a: Action, u: Uid)
    requires a.Upload? && BookedAt(w, u) && Attributed(w, u) && UploadsWhileTracked(w, a, u)
    ensures Attributed(Next(w, a), u)
  {
    hide Coherent, RunName, LegalLog, Replay;
    var w' := Next(w, a);
    if u in w.artifacts && w.artifacts[u].status.digest != "" {
      var l := w.ledgers[u];
      LegalLogSettled(l.accounts);
      if a.key == l.baselineKey {
        assert w'.writes[|w.writes|] == Write(a.key, a.writer);
        assert ForeignWrite(w'.writes, l.baselineAt, l.baselineKey, u);
      } else if ForeignWrite(w.writes, l.baselineAt, l.baselineKey, u) {
        var i :| l.baselineAt <= i < |w.writes| && w.writes[i].key == l.baselineKey
            && !OwnWriter(u, w.writes[i].writer);
        assert w'.writes[i] == w.writes[i];
      }
    }
  }

  lemma AttributedStep(w: World, a: Action, u: Uid)
    requires Enabled(w, a) && AllBooked(w) && Attributed(w, u) && UploadsWhileTracked(w, a, u)
    ensures Attributed(Next(w, a), u)
  {
    hide OutcomeOf, Booked, AfterPass, ForeignWrite;
    assert BookedAt(w, u);
    if a.Reconcile? && a.uid in w.artifacts {
      assert BookedAt(w, a.uid);
      if a.uid == u {
        OwnPassAttributed(w, u, a.calls, a.kept, a.draw);
      } else {
        OtherPassAttributed(w, a.uid, a.calls, a.kept, a.draw, u);
      }
    } else if a.Upload? {
      UploadAttributed(w, a, u);
    }
  }

  lemma {:induction false} LegalEntry(log: seq<Event>, i: nat)
    requires LegalLog(log) && i < |log|
    ensures Legal(Replay(log[..i]), log[i])
  {
    if i < |log| - 1 {
      LegalEntry(log[..|log| - 1], i);
      assert log[..|log| - 1][..i] == log[..i];
    }
  }

  /** A drift report of the pass names two different, non-empty digests. */
  lemma ReportsDiffer(w: World, u: Uid, c: Calls, i: nat)
    requires u in w.artifacts && BookedAt(w, u)
    requires var j := OutcomeOf(w, u, c).view.journal; i < |j| && j[i].DriftReported?
    ensures var e := OutcomeOf(w, u, c).view.journal[i]; e.was != "" && e.found != "" && e.was != e.found
  {
    hide OutcomeOf, Booked, RunEffect, StoreEffect, DriftEffect, AllGated, Coherent, LegalLog, Replay;
    PassRelated(w, u, c);
    var log, j := w.ledgers[u].accounts, OutcomeOf(w, u, c).view.journal;
    assert LegalLog(log + j);
    LegalEntry(log + j, |log| + i);
    assert (log + j)[|log| + i] == j[i];
  }

  /** Drift soundness: a report made at the key where the baseline was taken means someone
      other than our runs wrote that key since, provided our runs upload only while tracked.
      Patches may be lost and other Artifacts may interfere. */
  lemma DriftReportsAreSound(ws: seq<World>, acts: seq<Action>, n: nat, u: Uid, i: nat)
    requires Execution(ws, acts) && Empty(ws[0]) && n < |acts|
    requires forall k :: 0 <= k < |acts| ==> UploadsWhileTracked(ws[k], acts[k], u)
    requires acts[n].Reconcile? && acts[n].uid == u && u in ws[n].artifacts
    requires var j := OutcomeOf(ws[n], u, acts[n].calls).view.journal; i < |j| && j[i].DriftReported?
    ensures u in ws[n].ledgers && acts[n].calls.key.Some?
    ensures acts[n].calls.key.value == ws[n].ledgers[u].baselineKey ==>
              ForeignWrite(ws[n].writes, ws[n].ledgers[u].baselineAt, ws[n].ledgers[u].baselineKey, u)
  {
    forall w, a | AllBooked(w) && Attributed(w, u) && UploadsWhileTracked(w, a, u) && Enabled(w, a)
      ensures AllBooked(Next(w, a)) && Attributed(Next(w, a), u)
    {
      hide BookedAt, Next, Attributed, UploadsWhileTracked;
      BookedStep(w, a);
      AttributedStep(w, a, u);
    }
    assert AllBooked(ws[0]) && Attributed(ws[0], u) by { StartBooked(ws[0]); }
    hide BookedAt, Next, UploadsWhileTracked, OutcomeOf, Attributed;
    Throughout(ws, acts, w => AllBooked(w) && Attributed(w, u), (w, a) => UploadsWhileTracked(w, a, u), n);
    ReportedIsForeign(ws[n], u, acts[n].calls, i);
  }

  /** So does the condition itself: a pass that raises it at the key of the baseline has seen the
      work of someone else. */
  lemma DriftConditionIsSound(ws: seq<World>, acts: seq<Action>, n: nat, u: Uid)
    requires Execution(ws, acts) && Empty(ws[0]) && n < |acts|
    requires forall k :: 0 <= k < |acts| ==> UploadsWhileTracked(ws[k], acts[k], u)
    requires acts[n].Reconcile? && acts[n].uid == u && u in ws[n].artifacts
    requires !IsTrue(ws[n].artifacts[u].status.cond.drifted)
    requires IsTrue(OutcomeOf(ws[n], u, acts[n].calls).view.status.cond.drifted)
    ensures u in ws[n].ledgers && acts[n].calls.key.Some?
    ensures acts[n].calls.key.value == ws[n].ledgers[u].baselineKey ==>
              ForeignWrite(ws[n].writes, ws[n].ledgers[u].baselineAt, ws[n].ledgers[u].baselineKey, u)
  {
    hide Booked, OutcomeOf, Next, UploadsWhileTracked, ForeignWrite;
    AlwaysBooked(ws, acts, n);
    assert BookedAt(ws[n], u);
    PassDrift(ws[n], u, acts[n].calls);
    var j := OutcomeOf(ws[n], u, acts[n].calls).view.journal;
    assert HasReport(j);
    var i :| 0 <= i < |j| && j[i].DriftReported?;
    DriftReportsAreSound(ws, acts, n, u, i);
  }

  lemma ReportedIsForeign(w: World, u: Uid, c: Calls, i: nat)
    requires AllBooked(w) && Attributed(w, u) && u in w.artifacts
    requires var j := OutcomeOf(w, u, c).view.journal; i < |j| && j[i].DriftReported?
    ensures u in w.ledgers && c.key.Some?
    ensures c.key.value == w.ledgers[u].baselineKey ==>
            ForeignWrite(w.writes, w.ledgers[u].baselineAt, w.ledgers[u].baselineKey, u)
  {
    hide OutcomeOf, Booked, ForeignWrite, HasVerified;
    assert BookedAt(w, u);
    PassDrift(w, u, c);
    ReportsDiffer(w, u, c, i);
  }

  // ---------------------------------------------------------------- latching

  /** The drift condition, once True, clears only in a kept pass that verified the object and
      had no baseline on record. */
  lemma DriftLatches(ws: seq<World>, acts: seq<Action>, n: nat, u: Uid)
    requires Execution(ws, acts) && Empty(ws[0]) && n < |acts|
    requires u in ws[n].artifacts && u in ws[n + 1].artifacts
    requires IsTrue(ws[n].artifacts[u].status.cond.drifted) && !IsTrue(ws[n + 1].artifacts[u].status.cond.drifted)
    ensures acts[n].Reconcile? && acts[n].uid == u && acts[n].kept
    ensures ws[n].artifacts[u].status.digest == "" && HasVerified(OutcomeOf(ws[n], u, acts[n].calls).view.journal)
  {
    hide BookedAt, OutcomeOf, HasVerified, Next, AfterPass;
    AlwaysBooked(ws, acts, n);
    assert Enabled(ws[n], acts[n]) && ws[n + 1] == Next(ws[n], acts[n]);
    LatchStep(ws[n], acts[n], u);
  }

  lemma LatchStep(w: World, a: Action, u: Uid)
    requires Enabled(w, a) && AllBooked(w) && u in w.artifacts && u in Next(w, a).artifacts
    requires IsTrue(w.artifacts[u].status.cond.drifted) && !IsTrue(Next(w, a).artifacts[u].status.cond.drifted)
    ensures a.Reconcile? && a.uid == u && a.kept
    ensures w.artifacts[u].status.digest == "" && HasVerified(OutcomeOf(w, u, a.calls).view.journal)
  {
    hide Booked, OutcomeOf, HasVerified, AfterPass, Recorded;
    assert BookedAt(w, u);
    if a.Reconcile? && a.uid in w.artifacts {
      assert BookedAt(w, a.uid);
      AfterPassFacts(w, a.uid, a.calls, a.kept, a.draw);
      PassDrift(w, a.uid, a.calls);
    }
  }

  // ------------------------------------------------------------ completeness

  /** The pass gets as far as judging the object at the rendered key. */
  predicate Judges(x: Ctx, a: View, cl: Class) {
    && !a.deleting && a.finalizer && !x.sp.suspend && x.c.lookup == Found(cl) && x.c.key.Some?
    && !Reached(x.sp.ttl, Age(x)) && x.c.driverOk && !(Reached(x.sp.deleteAfter, Age(x)) && !x.sp.observe)
    && x.c.observeOk && x.c.key.value in a.objects
  }

  /** The object carries our stamp or none, and its digest is not the one on record. */
  predicate Changed(x: Ctx, a: View, cl: Class) {
    Judges(x, a, cl) && Own(a.objects[x.c.key.value], cl.stampKey, x.m.identityHash)
    && a.objects[x.c.key.value].digest != "" && a.status.digest != ""
    && a.objects[x.c.key.value].digest != a.status.digest
  }

  /** The view a judging pass of an Artifact that tracks nothing hands to the verification. */
  function Handed(x: Ctx, a: View): View
    requires x.c.key.Some?
  {
    Address(x, HonourRetry(x, Begin(a)), x.c.key.value)
  }

  lemma JudgingPass(x: Ctx, a: View, cl: Class)
    requires Judges(x, a, cl) && a.status.ref.None?
    ensures Pass(x, a) == ExistingPass(x, Handed(x, a), cl, a.objects[x.c.key.value])
  {
    hide ExistingPass, Reached, ExpiredPass, ObservedMissingPass, MissingPass, DeletePass;
    var w := HonourRetry(x, Begin(a));
    assert w.status.ref.None? && w.objects == a.objects;
    assert Pass(x, a) == Attend(x, w) == WithClass(x, w) == WithKey(x, Handed(x, a), cl, x.c.key.value);
  }

  /** The hand-over is as fresh as the pass's start. */
  lemma HandedFresh(p: Invariant, x: Ctx, a: View)
    requires Initial(p, x, a) && a.status.ref.None? && x.c.key.Some?
    ensures Fresh(p, x, a, Handed(x, a))
  {
    hide Initial, Fresh, Retried, HonourRetry;
    BeginRetried(p, x, a);
    RetryKept(p, x, a, Begin(a));
    var w := HonourRetry(x, Begin(a));
    assert w.status.ref.None? by { HonourKeepsRef(x, Begin(a)); }
    RetriedFresh(p, x, a, w);
    AddressKept(p, x, a, w, x.c.key.value);
  }

  lemma HonourKeepsRef(x: Ctx, v: View)
    ensures HonourRetry(x, v).status.ref == v.status.ref && HonourRetry(x, v).status.attempts == v.status.attempts
    ensures HonourRetry(x, v).runs == v.runs && HonourRetry(x, v).objects == v.objects
  {
  }

  lemma RecordedDriftStays(p: Invariant, x: Ctx, w: View, cl: Class)
    requires Fresh(p, x, w, w) && IsTrue(w.status.cond.drifted) && w.status.digest != "" && !x.sp.observe
             && x.c.lookup == Found(cl)
    ensures IsTrue(MissingPass(x, w.With(w.status.(digest := "")), cl).view.status.cond.drifted)
  {
    hide Fresh, MissingPass, RunEffect, StoreEffect, Journalled, Coherent, AllGated, HasVerified;
    MissingKept(p, x, w, w, cl);
  }

  /** Drift completeness: in a reachable state a change between non-empty digests is always
      reported, unless the class ignores drift: no pending run ever suppresses it. */
  lemma EveryChangeIsReported(p: Invariant, x: Ctx, a: View, cl: Class)
    requires Initial(p, x, a) && Changed(x, a, cl) && cl.DriftPolicy() != Ignore
    ensures IsTrue(Pass(x, a).view.status.cond.drifted)
  {
    assert a.status.ref.None? && a.status.succeededAt.None? by { Settles(p, a); }
    JudgingPass(x, a, cl);
    HandedFresh(p, x, a);
    HandedDrifts(p, x, a, cl);
    ReportStays(p, x, a, Handed(x, a), cl, a.objects[x.c.key.value]);
  }

  lemma HandedDrifts(p: Invariant, x: Ctx, a: View, cl: Class)
    requires Initial(p, x, a) && Changed(x, a, cl) && a.status.ref.None? && a.status.succeededAt.None?
    ensures Drifts(Handed(x, a).status, a.objects[x.c.key.value]) && Sees(x, a, Handed(x, a), a.objects[x.c.key.value])
  {
  }

  lemma ReportStays(p: Invariant, x: Ctx, a: View, v: View, cl: Class, o: Object)
    requires Fresh(p, x, a, v) && Sees(x, a, v, o) && Drifts(v.status, o) && x.c.lookup == Found(cl)
    requires Own(o, cl.stampKey, x.m.identityHash) && cl.DriftPolicy() != Ignore
    ensures IsTrue(ExistingPass(x, v, cl, o).view.status.cond.drifted)
  {
    hide Fresh, MissingPass, Own;
    RecordDriftKept(p, x, a, v, cl, o);
    var w := RecordDrift(v, cl, o);
    Restart(p, x, a, w);
    if cl.DriftPolicy() == Regenerate && !x.sp.observe {
      RecordedDriftStays(p, x, w, cl);
    }
  }

  /** The same for every reachable state. */
  lemma DriftIsNeverMissed(ws: seq<World>, acts: seq<Action>, n: nat, u: Uid, c: Calls)
    requires Execution(ws, acts) && Empty(ws[0]) && n < |ws| && u in ws[n].artifacts && c.lookup.Found?
    requires Changed(CtxOf(ws[n], u, c), ViewOf(ws[n], u), c.lookup.def) && c.lookup.def.DriftPolicy() != Ignore
    ensures IsTrue(OutcomeOf(ws[n], u, c).view.status.cond.drifted)
  {
    hide Booked, Changed, Pass, Next, Closed;
    AlwaysBooked(ws, acts, n);
    assert BookedAt(ws[n], u);
    PassInitial(ws[n], u, c);
    EveryChangeIsReported(Continues(ws[n].ledgers[u].accounts), CtxOf(ws[n], u, c), ViewOf(ws[n], u), c.lookup.def);
  }

  // --------------------------------------------------------------- exactness

  lemma QuietExisting(x: Ctx, v: View, cl: Class, o: Object)
    requires !IsTrue(v.status.cond.drifted)
    requires !(Own(o, cl.stampKey, x.m.identityHash) && Drifts(v.status, o)) || cl.DriftPolicy() == Ignore
    ensures !IsTrue(ExistingPass(x, v, cl, o).view.status.cond.drifted)
  {
    hide Own, MissingPass, Drifts;
  }

  lemma HonourQuiet(x: Ctx, v: View)
    ensures var w := HonourRetry(x, v);
            w.objects == v.objects && w.status.cond.drifted == v.status.cond.drifted
            && w.status.digest == v.status.digest
  {
  }

  lemma HandedQuiet(x: Ctx, a: View)
    requires x.c.key.Some?
    ensures var w := HonourRetry(x, Begin(a));
            && Handed(x, a).status.digest == a.status.digest
            && Handed(x, a).status.cond.drifted == a.status.cond.drifted
            && w.objects == a.objects && w.status.cond.drifted == a.status.cond.drifted
            && w.status.digest == a.status.digest
  {
    hide HonourRetry;
    HonourQuiet(x, Begin(a));
  }

  lemma QuietPass(x: Ctx, a: View, cl: Class)
    requires Judges(x, a, cl) && !IsTrue(a.status.cond.drifted) && (a.status.ref.Some? ==> a.status.digest == "")
    requires !Changed(x, a, cl) || cl.DriftPolicy() == Ignore
    ensures !IsTrue(Pass(x, a).view.status.cond.drifted)
  {
    hide ExistingPass, Reached, ExpiredPass, ObservedMissingPass, MissingPass, DeletePass, HonourRetry, Begin, Own;
    var w := HonourRetry(x, Begin(a));
    HandedQuiet(x, a);
    if a.status.ref.None? {
      HonourKeepsRef(x, Begin(a));
      JudgingPass(x, a, cl);
      QuietExisting(x, Handed(x, a), cl, a.objects[x.c.key.value]);
    } else if !(x.sp.observe && w.status.ref.Some? && !x.c.runDeleteOk) {
      var v := if x.sp.observe && w.status.ref.Some? then Cancel(w) else w;
      assert Pass(x, a) == WithClass(x, v) ==
             ExistingPass(x, Address(x, v, x.c.key.value), cl, a.objects[x.c.key.value]);
      QuietExisting(x, Address(x, v, x.c.key.value), cl, a.objects[x.c.key.value]);
    }
  }

  /** Reports are about content: a pass that judges the object raises the condition exactly
      when the digest differs from a non-empty baseline, whoever wrote it and wherever the
      baseline was taken. */
  lemma ReportsExactly(p: Invariant, x: Ctx, a: View, cl: Class)
    requires Initial(p, x, a) && Judges(x, a, cl) && !IsTrue(a.status.cond.drifted)
    ensures IsTrue(Pass(x, a).view.status.cond.drifted) <==> Changed(x, a, cl) && cl.DriftPolicy() != Ignore
  {
    hide Initial, Judges, Changed, Pass;
    if Changed(x, a, cl) && cl.DriftPolicy() != Ignore {
      EveryChangeIsReported(p, x, a, cl);
    } else {
      assert a.status.ref.Some? ==> a.status.digest == "" by { Untaken(p, x, a); }
      QuietPass(x, a, cl);
    }
  }

  lemma Untaken(p: Invariant, x: Ctx, a: View)
    requires Initial(p, x, a)
    ensures a.status.ref.Some? ==> a.status.digest == ""
  {
    Settles(p, a);
  }

  /** The same for every reachable state. */
  lemma DriftReportedExactly(ws: seq<World>, acts: seq<Action>, n: nat, u: Uid, c: Calls)
    requires Execution(ws, acts) && Empty(ws[0]) && n < |ws| && u in ws[n].artifacts && c.lookup.Found?
    requires Judges(CtxOf(ws[n], u, c), ViewOf(ws[n], u), c.lookup.def)
             && !IsTrue(ws[n].artifacts[u].status.cond.drifted)
    ensures IsTrue(OutcomeOf(ws[n], u, c).view.status.cond.drifted) <==>
            Changed(CtxOf(ws[n], u, c), ViewOf(ws[n], u), c.lookup.def) && c.lookup.def.DriftPolicy() != Ignore
  {
    hide Booked, Judges, Changed, Pass, Next, Closed;
    AlwaysBooked(ws, acts, n);
    assert BookedAt(ws[n], u);
    PassInitial(ws[n], u, c);
    ReportsExactly(Continues(ws[n].ledgers[u].accounts), CtxOf(ws[n], u, c), ViewOf(ws[n], u), c.lookup.def);
  }

  // ------------------------------------------------- a class edit moves the key

  /** Two keys, each holding an unstamped object from the start. */
  datatype Move = Move(from: Key, was: string, to: Key, found: string) {
    ghost predicate Valid() { from != to && was != "" && found != "" && was != found }

    function Start(): World {
      World(0, map[], map[], map[from := Object(was, map[]), to := Object(found, map[])], false, [], map[])
    }
  }

  const MOVED_CLASS := Class("", "", None, None, None, 0)
  const MOVED_META := Meta(1, "a", 0, "h")
  const MOVED_SPEC := Spec(0, false, None, None, false, false, "")

  function MovedCalls(key: Key): Calls {
    Calls(0, Found(MOVED_CLASS), Some(key), None, true, true, true, true, true, true, true, true, false, false, false)
  }

  function MovedPass(key: Key): Action {
    Reconcile(1, MovedCalls(key), true, 0.5)
  }

  /** A world of this run in which the Artifact has reached a given status. */
  predicate MovedAt(w: World, mv: Move, finalizer: bool, st: Status) {
    && w.now == 0 && w.objects == mv.Start().objects && w.writes == []
    && 1 in w.ledgers && 1 in w.artifacts && w.artifacts[1] == Artifact(MOVED_META, MOVED_SPEC, st, finalizer, false)
  }

  lemma MovedFinalizer(w: World, mv: Move)
    requires MovedAt(w, mv, false, NEW_STATUS)
    ensures MovedAt(Next(w, MovedPass(mv.from)), mv, true, NEW_STATUS)
  {
    hide AfterPass, ReconcilePass, DeletePass;
    var c := MovedCalls(mv.from);
    AfterPassFacts(w, 1, c, true, 0.5);
    assert OutcomeOf(w, 1, c).view == ViewOf(w, 1).(finalizer := true);
    assert 1 in AfterPass(w, 1, c, true, 0.5).artifacts by { Stays(w, 1, c, true, 0.5); }
  }

  lemma MovedVerified(w: World, mv: Move)
    requires mv.Valid() && MovedAt(w, mv, true, NEW_STATUS)
    ensures var w' := Next(w, MovedPass(mv.from));
            1 in w'.artifacts && w'.artifacts[1].status.digest == mv.was
            && MovedAt(w', mv, true, w'.artifacts[1].status)
  {
    hide AfterPass, DeletePass, MissingPass, ExpiredPass, TruncateOpt;
    var c := MovedCalls(mv.from);
    AfterPassFacts(w, 1, c, true, 0.5);
    var x, a := CtxOf(w, 1, c), ViewOf(w, 1);
    assert Judges(x, a, MOVED_CLASS);
    JudgingPass(x, a, MOVED_CLASS);
    var v, o := Handed(x, a), a.objects[mv.from];
    assert Pass(x, a) == Verify(x, Rebaseline(v, o), o);
    Stays(w, 1, c, true, 0.5);
  }

  function MovedActs(mv: Move): seq<Action> {
    [Admit(MOVED_META, MOVED_SPEC), MovedPass(mv.from), MovedPass(mv.from)]
  }

  /** An Artifact is admitted, gets its finalizer, and is verified at its first key. */
  function MovedRun(mv: Move): seq<World> {
    var w1 := Next(mv.Start(), Admit(MOVED_META, MOVED_SPEC));
    var w2 := Next(w1, MovedPass(mv.from));
    [mv.Start(), w1, w2, Next(w2, MovedPass(mv.from))]
  }

  lemma MovedRunExecutes(mv: Move)
    ensures Execution(MovedRun(mv), MovedActs(mv))
  {
    hide AfterPass;
    var w1 := Next(mv.Start(), Admit(MOVED_META, MOVED_SPEC));
    assert MovedAt(w1, mv, false, NEW_STATUS);
    MovedFinalizer(w1, mv);
  }

  lemma MovedRunEnds(mv: Move)
    requires mv.Valid()
    ensures var w := MovedRun(mv)[3];
            1 in w.artifacts && w.artifacts[1].status.digest == mv.was && MovedAt(w, mv, true, w.artifacts[1].status)
  {
    hide AfterPass;
    var w1 := Next(mv.Start(), Admit(MOVED_META, MOVED_SPEC));
    assert MovedAt(w1, mv, false, NEW_STATUS);
    MovedFinalizer(w1, mv);
    MovedVerified(Next(w1, MovedPass(mv.from)), mv);
  }

  /** A drift report without any write, for any two keys and any two contents: this run uploads
      nothing and the baseline object still stands, yet the pass that renders the moved key
      reports drift.  So the condition of `DriftReportsAreSound` on the key cannot be dropped. */
  lemma MovedKeyMisleads(mv: Move)
    requires mv.Valid()
    ensures Execution(MovedRun(mv), MovedActs(mv)) && Empty(MovedRun(mv)[0])
    ensures var w := MovedRun(mv)[3];
            && 1 in w.artifacts && w.writes == [] && w.objects == mv.Start().objects
            && w.artifacts[1].status.digest == mv.was
            && IsTrue(OutcomeOf(w, 1, MovedCalls(mv.to)).view.status.cond.drifted)
  {
    hide Next, Pass, OutcomeOf, Execution;
    MovedRunExecutes(mv);
    MovedRunEnds(mv);
    DriftIsNeverMissed(MovedRun(mv), MovedActs(mv), 3, 1, MovedCalls(mv.to));
  }
}
