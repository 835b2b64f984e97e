/**
 Who owns which run: many Artifacts, run names that may collide, every patch landing.
 */
module Ownership {
  import opened Api
  import opened Delays
  import opened Journal
  import opened Names
  import opened Passes
  import opened PassFacts
  import opened Worlds
  import opened History
  import opened Accounting
  import opened CrashSafety

  /** The tracked run exists, is controlled by this Artifact, and is the current attempt. */
  predicate OwnsTracked(w: World, u: Uid) {
    u in w.artifacts && w.artifacts[u].status.ref.Some? ==>
      var r := w.artifacts[u].status.ref.value;
      r in w.runs && w.runs[r].owner == Some(u) && w.runs[r].attempt == w.artifacts[u].status.attempts
  }

  ghost predicate AllOwn(w: World) {
    forall u :: OwnsTracked(w, u)
  }

  /** Patches land, and runs are only removed by the controller. */
  predicate Orderly(a: Action) {
    (a.Reconcile? ==> a.kept) && !a.DropRun?
  }

  /** After its own pass the Artifact owns what it tracks. */
  lemma OwnPassOwns(w: World, u: Uid, c: Calls)
    requires u in w.artifacts && BookedAt(w, u) && AllIndexed(w) && OwnsTracked(w, u)
    ensures var v := OutcomeOf(w, u, c).view;
            v.status.ref.Some? ==>
              && v.status.ref.value in v.runs
              && v.runs[v.status.ref.value].owner == Some(u) && v.runs[v.status.ref.value].attempt == v.status.attempts
  {
    hide OutcomeOf, RunName, LetGo, StartsRun, Booked;
    PassRuns(w, u, c);
    var v := OutcomeOf(w, u, c).view;
    if AdoptedRun(CtxOf(w, u, c), ViewOf(w, u), v) {
      var r := v.status.ref.value;
      assert IndexedAt(w, r);
      RunNameInjective(w.artifacts[u].meta, w.runs[r].attempt, v.status.attempts);
    }
  }

  lemma OwnershipPass(w: World, u: Uid, c: Calls, draw: Draw, u': Uid)
    requires u in w.artifacts && BookedAt(w, u) && AllIndexed(w) && AllOwn(w)
    ensures OwnsTracked(AfterPass(w, u, c, true, draw), u')
  {
    hide OutcomeOf, Booked, AllIndexed, AfterPass, Recorded, Patched;
    AfterPassFacts(w, u, c, true, draw);
    assert OwnsTracked(w, u) && OwnsTracked(w, u');
    OwnPassOwns(w, u, c);
    if u' != u && u' in w.artifacts && w.artifacts[u'].status.ref.Some? {
      var r := w.artifacts[u'].status.ref.value;
      if r !in OutcomeOf(w, u, c).view.runs {
        DeletesOnlyTracked(w, u, c, r);
      } else {
        RunsAreImmutable(w, u, c, r);
      }
    }
  }

  lemma OwnershipStep(w: World, a: Action)
    requires Enabled(w, a) && AllBooked(w) && AllIndexed(w) && AllOwn(w) && Orderly(a)
    ensures AllOwn(Next(w, a))
  {
    hide OutcomeOf, BookedAt, AllIndexed, AfterPass;
    forall u ensures OwnsTracked(Next(w, a), u) {
      assert OwnsTracked(w, u);
      if a.Reconcile? && a.uid in w.artifacts {
        assert BookedAt(w, a.uid);
        OwnershipPass(w, a.uid, a.calls, a.draw, u);
      }
    }
  }

  /** Interleaved ownership: colliding names or not, every tracked run exists and belongs to
      the Artifact tracking it, and a pass deletes none but its own current run. */
  lemma InterleavedOwnership(ws: seq<World>, acts: seq<Action>, n: nat)
    requires Execution(ws, acts) && Empty(ws[0]) && n < |ws|
    requires forall i :: 0 <= i < |acts| ==> Orderly(acts[i])
    ensures AllBooked(ws[n]) && AllIndexed(ws[n]) && AllOwn(ws[n])
    ensures n < |acts| && acts[n].Reconcile? ==>
              forall r :: r in ws[n].runs && r !in ws[n + 1].runs ==>
                acts[n].uid in ws[n].artifacts && ws[n].runs[r].owner == Some(acts[n].uid)
                && ws[n].runs[r].attempt == ws[n].artifacts[acts[n].uid].status.attempts
  {
    forall w, a | AllBooked(w) && AllIndexed(w) && AllOwn(w) && Orderly(a) && Enabled(w, a)
      ensures AllBooked(Next(w, a)) && AllIndexed(Next(w, a)) && AllOwn(Next(w, a))
    {
      hide BookedAt, Next, AllIndexed, OwnsTracked, Orderly;
      BookedStep(w, a);
      IndexedStep(w, a);
      OwnershipStep(w, a);
    }
    hide BookedAt, Next, AllIndexed, OwnsTracked, Orderly;
    assert AllBooked(ws[0]) && AllIndexed(ws[0]) && AllOwn(ws[0]) by { EmptyOwns(ws[0]); }
    Throughout(ws, acts, w => AllBooked(w) && AllIndexed(w) && AllOwn(w), (w, a) => Orderly(a), n);
    if n < |acts| && acts[n].Reconcile? {
      forall r | r in ws[n].runs && r !in ws[n + 1].runs
        ensures acts[n].uid in ws[n].artifacts && ws[n].runs[r].owner == Some(acts[n].uid)
                && ws[n].runs[r].attempt == ws[n].artifacts[acts[n].uid].status.attempts
      {
        DeletedWasOwn(ws[n], acts[n], r);
      }
    }
  }

  lemma EmptyOwns(w: World)
    requires Empty(w)
    ensures AllBooked(w) && AllIndexed(w) && AllOwn(w)
  {
  }

  lemma DeletedWasOwn(w: World, a: Action, r: RunRef)
    requires a.Reconcile? && AllBooked(w) && AllOwn(w) && r in w.runs && r !in Next(w, a).runs
    ensures a.uid in w.artifacts && w.runs[r].owner == Some(a.uid)
            && w.runs[r].attempt == w.artifacts[a.uid].status.attempts
  {
    hide OutcomeOf, Booked, AfterPass, Recorded, Patched;
    assert BookedAt(w, a.uid) && OwnsTracked(w, a.uid);
    if a.uid in w.artifacts {
      AfterPassFacts(w, a.uid, a.calls, a.kept, a.draw);
      DeletesOnlyTracked(w, a.uid, a.calls, r);
    }
  }

  // ------------------------------------------------ why untracked runs remain

  /** A run of `u` is tracked, or its attempt was let go by a release that may leave it. */
  ghost predicate Explained(w: World, u: Uid, r: RunRef) {
    u in w.artifacts && u in w.ledgers && r in w.runs && w.runs[r].owner == Some(u) ==>
      || w.artifacts[u].status.ref == Some(r)
      || exists i :: 0 <= i < |w.ledgers[u].accounts|
                     && Releases(w.ledgers[u].accounts[i]) == Some(w.runs[r].attempt)
                     && LeavesRun(w.ledgers[u].accounts[i])
  }

  lemma ExplainedByRelease(log: seq<Event>, j: seq<Event>, n: nat)
    requires exists e :: e in j && Releases(e) == Some(n) && LeavesRun(e)
    ensures exists i :: 0 <= i < |log + j| && Releases((log + j)[i]) == Some(n) && LeavesRun((log + j)[i])
  {
    var e :| e in j && Releases(e) == Some(n) && LeavesRun(e);
    var k :| 0 <= k < |j| && j[k] == e;
    assert (log + j)[|log| + k] == e;
  }

  /** A run that was explained stays explained when the journal grows. */
  lemma ExplainedLonger(log: seq<Event>, j: seq<Event>, n: nat)
    requires exists i :: 0 <= i < |log| && Releases(log[i]) == Some(n) && LeavesRun(log[i])
    ensures exists i :: 0 <= i < |log + j| && Releases((log + j)[i]) == Some(n) && LeavesRun((log + j)[i])
  {
    var i :| 0 <= i < |log| && Releases(log[i]) == Some(n) && LeavesRun(log[i]);
    assert (log + j)[i] == log[i];
  }

  lemma ExplainedPass(w: World, u: Uid, c: Calls, draw: Draw, r: RunRef)
    requires u in w.artifacts && BookedAt(w, u) && Explained(w, u, r)
    requires w.artifacts[u].status.ref == Some(r) && r in w.runs && w.runs[r].owner == Some(u) ==>
               w.runs[r].attempt == w.artifacts[u].status.attempts
    ensures Explained(AfterPass(w, u, c, true, draw), u, r)
  {
    hide OutcomeOf, Booked, AfterPass, Patched, RunName, StartsRun, HasVerified, LeavesRun, Releases, Wait;
    AfterPassFacts(w, u, c, true, draw);
    PassRuns(w, u, c);
    var v, log := OutcomeOf(w, u, c).view, w.ledgers[u].accounts;
    if r in v.runs && v.runs[r].owner == Some(u) && v.status.ref != Some(r) && r in w.runs {
      RunsAreImmutable(w, u, c, r);
      if w.artifacts[u].status.ref == Some(r) {
        ExplainedByRelease(log, v.journal, w.runs[r].attempt);
      } else {
        ExplainedLonger(log, v.journal, w.runs[r].attempt);
      }
    }
  }

  /** Every patch of `u` lands. */
  predicate Lands(a: Action, u: Uid) {
    a.Reconcile? && a.uid == u ==> a.kept
  }

  /** A run that is both tracked and controlled is the current attempt: names are injective. */
  lemma TrackedIsCurrent(w: World, u: Uid, r: RunRef)
    requires u in w.artifacts && BookedAt(w, u) && IndexedAt(w, r)
    requires w.artifacts[u].status.ref == Some(r) && r in w.runs && w.runs[r].owner == Some(u)
    ensures w.runs[r].attempt == w.artifacts[u].status.attempts
  {
    hide RunName, Coherent, LegalLog, Replay;
    RunNameInjective(w.artifacts[u].meta, w.runs[r].attempt, w.artifacts[u].status.attempts);
  }

  lemma ExplainedStep(w: World, a: Action, u: Uid)
    requires Enabled(w, a) && AllBooked(w) && AllIndexed(w) && Lands(a, u) && forall r :: Explained(w, u, r)
    ensures forall r :: Explained(Next(w, a), u, r)
  {
    hide OutcomeOf, Booked, AfterPass, Indexed;
    forall r ensures Explained(Next(w, a), u, r) {
      assert Explained(w, u, r) && BookedAt(w, u) && IndexedAt(w, r);
      if a.Reconcile? && a.uid == u && u in w.artifacts {
        if w.artifacts[u].status.ref == Some(r) && r in w.runs && w.runs[r].owner == Some(u) {
          TrackedIsCurrent(w, u, r);
        }
        ExplainedPass(w, u, a.calls, a.draw, r);
      } else if a.Reconcile? && a.uid in w.artifacts {
        OthersKeepExplained(w, a, u, r);
      }
    }
  }

  lemma OthersKeepExplained(w: World, a: Action, u: Uid, r: RunRef)
    requires a.Reconcile? && a.uid != u && a.uid in w.artifacts && AllBooked(w) && Explained(w, u, r)
    ensures Explained(Next(w, a), u, r)
  {
    hide OutcomeOf, Booked, AfterPass, Patched, Recorded, LeavesRun, Releases;
    assert BookedAt(w, a.uid);
    AfterPassFacts(w, a.uid, a.calls, a.kept, a.draw);
    PassRuns(w, a.uid, a.calls);
    var v := OutcomeOf(w, a.uid, a.calls).view;
    if r in v.runs && v.runs[r].owner == Some(u) { OtherRunSame(w, a.uid, a.calls, r); }
  }

  /** When no patch of its own is lost, a run of `u` that is still there though untracked was
      let go because its artifact was verified, it expired, the engine called it finished, or
      the deadline could not delete it. */
  lemma UntrackedRunsExplained(ws: seq<World>, acts: seq<Action>, n: nat, u: Uid, r: RunRef)
    requires Execution(ws, acts) && Empty(ws[0]) && n < |ws|
    requires forall i :: 0 <= i < |acts| ==> Lands(acts[i], u)
    ensures Explained(ws[n], u, r)
  {
    forall w, a | AllBooked(w) && AllIndexed(w) && (forall q :: Explained(w, u, q)) && Lands(a, u) && Enabled(w, a)
      ensures AllBooked(Next(w, a)) && AllIndexed(Next(w, a)) && forall q :: Explained(Next(w, a), u, q)
    {
      hide BookedAt, Next, AllIndexed, Lands, Explained;
      BookedStep(w, a);
      IndexedStep(w, a);
      ExplainedStep(w, a, u);
    }
    hide BookedAt, Next, AllIndexed, Lands;
    assert AllBooked(ws[0]) && AllIndexed(ws[0]) by { EmptyOwns(ws[0]); }
    Throughout(ws, acts, w => AllBooked(w) && AllIndexed(w) && forall q :: Explained(w, u, q),
               (w, a) => Lands(a, u), n);
  }
}
