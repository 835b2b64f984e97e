/**
 Crash-safe creation: what the deterministic run names guarantee when the status patch of
 a creating pass may be lost.
 */
module CrashSafety {
  import opened Api
  import opened Delays
  import opened Journal
  import opened Names
  import opened Passes
  import opened PassFacts
  import opened Worlds
  import opened History
  import opened Accounting

  /** A run controlled by Artifact `a` carries an index the counters account for; the one
      index ahead of the counter exists only while no run is tracked. */
  predicate Indexed(a: Artifact, now: int, r: RunRef, run: Run) {
    && r.name == RunName(a.meta, run.attempt)
    && 1 <= run.attempt <= a.status.attempts + 1
    && (run.attempt == a.status.attempts + 1 ==> a.status.ref.None?)
    && run.started.Some? && run.started.value <= now
  }

  predicate IndexedAt(w: World, r: RunRef) {
    r in w.runs && w.runs[r].owner.Some? ==>
      var u := w.runs[r].owner.value;
      u in w.ledgers && (u in w.artifacts ==> Indexed(w.artifacts[u], w.now, r, w.runs[r]))
  }

  ghost predicate AllIndexed(w: World) {
    forall r :: IndexedAt(w, r)
  }

  lemma PassRuns(w: World, u: Uid, c: Calls)
    requires u in w.artifacts && BookedAt(w, u)
    ensures RunEffect(CtxOf(w, u, c), ViewOf(w, u), OutcomeOf(w, u, c).view)
  {
    hide OutcomeOf, BookedAt, RunEffect, StoreEffect, DriftEffect, AllGated, Journalled, Coherent;
    PassRelated(w, u, c);
  }

  /** The pass of `u` leaves the run `r` indexed, kept or lost. */
  lemma OwnRunIndexed(w: World, u: Uid, c: Calls, kept: bool, r: RunRef)
    requires u in w.artifacts && BookedAt(w, u) && IndexedAt(w, r) && c.now == w.now
    requires RunEffect(CtxOf(w, u, c), ViewOf(w, u), OutcomeOf(w, u, c).view)
    requires var v := OutcomeOf(w, u, c).view; r in v.runs && v.runs[r].owner == Some(u)
    ensures Indexed(Patched(w.artifacts[u], OutcomeOf(w, u, c).view, kept), w.now, r, OutcomeOf(w, u, c).view.runs[r])
  {
    var v := OutcomeOf(w, u, c).view;
    hide OutcomeOf, RunName, LetGo, Booked, StartsRun;
    if r !in w.runs {
      assert CreatedRun(CtxOf(w, u, c), ViewOf(w, u), v);
    } else if CreatedRun(CtxOf(w, u, c), ViewOf(w, u), v) {
    } else if AdoptedRun(CtxOf(w, u, c), ViewOf(w, u), v) {
    } else {
    }
  }

  /** A run that survives the pass of `u` and is not one of its own was there before. */
  lemma OtherRunSame(w: World, u: Uid, c: Calls, r: RunRef)
    requires u in w.artifacts && BookedAt(w, u)
    requires RunEffect(CtxOf(w, u, c), ViewOf(w, u), OutcomeOf(w, u, c).view)
    requires var v := OutcomeOf(w, u, c).view; r in v.runs && v.runs[r].owner != Some(u)
    ensures r in w.runs && OutcomeOf(w, u, c).view.runs[r] == w.runs[r]
  {
    hide OutcomeOf, RunName, LetGo, Booked, StartsRun;
  }

  lemma IndexedPass(w: World, u: Uid, c: Calls, kept: bool, draw: Draw, r: RunRef)
    requires u in w.artifacts && BookedAt(w, u) && IndexedAt(w, r) && c.now == w.now
    ensures IndexedAt(AfterPass(w, u, c, kept, draw), r)
  {
    hide OutcomeOf, BookedAt, Recorded, Indexed, RunEffect, Patched;
    PassRuns(w, u, c);
    var v := OutcomeOf(w, u, c).view;
    if r in v.runs && v.runs[r].owner == Some(u) {
      OwnRunIndexed(w, u, c, kept, r);
    } else if r in v.runs {
      OtherRunSame(w, u, c, r);
    }
  }

  lemma IndexedStep(w: World, a: Action)
    requires Enabled(w, a) && AllBooked(w) && AllIndexed(w)
    ensures AllIndexed(Next(w, a))
  {
    forall r ensures IndexedAt(Next(w, a), r) {
      assert IndexedAt(w, r);
      if a.Reconcile? && a.uid in w.artifacts {
        assert BookedAt(w, a.uid);
        IndexedPass(w, a.uid, a.calls, a.kept, a.draw, r);
      } else {
        hide RunName, OutcomeOf, BookedAt;
      }
    }
  }

  /** In every reachable state every controlled run has an index at most one ahead of the
      persisted counter, and exactly one ahead only while nothing is tracked. */
  lemma AlwaysIndexed(ws: seq<World>, acts: seq<Action>, n: nat)
    requires Execution(ws, acts) && Empty(ws[0]) && n < |ws|
    ensures AllBooked(ws[n]) && AllIndexed(ws[n])
  {
    forall w, a | AllBooked(w) && AllIndexed(w) && Enabled(w, a)
      ensures AllBooked(Next(w, a)) && AllIndexed(Next(w, a))
    {
      BookedStep(w, a);
      IndexedStep(w, a);
    }
    StartBooked(ws[0]);
    hide BookedAt, Indexed, Next;
    Throughout(ws, acts, w => AllBooked(w) && AllIndexed(w), (w, a) => true, n);
  }

  // ------------------------------------------------- no index is created twice

  /** Nobody outside deletes a run of `u`, and no other Artifact under way shares the prefix of
      its run names. */
  predicate Alone(w: World, a: Action, u: Uid) {
    && (a.DropRun? && a.ref in w.runs ==> w.runs[a.ref].owner != Some(u))
    && (a.Reconcile? && a.uid != u && a.uid in w.artifacts && u in w.artifacts ==>
          RunPrefix(w.artifacts[a.uid].meta) != RunPrefix(w.artifacts[u].meta))
  }

  /** Passes of `u` render runs of one kind. */
  predicate OneKind(a: Action, u: Uid, kind: Kind) {
    a.Reconcile? && a.uid == u ==> a.calls.runKind.None? || a.calls.runKind == Some(kind)
  }

  predicate Undisturbed(w: World, a: Action, u: Uid, kind: Kind) {
    Alone(w, a, u) && OneKind(a, u, kind)
  }

  /** A pass of `u` only ever deletes the run `u` tracks. */
  lemma DeletesOnlyTracked(w: World, u: Uid, c: Calls, r: RunRef)
    requires u in w.artifacts && BookedAt(w, u) && r in w.runs && r !in OutcomeOf(w, u, c).view.runs
    ensures w.artifacts[u].status.ref == Some(r)
  {
    hide OutcomeOf, BookedAt, RunName, LetGo, StartsRun;
    PassRuns(w, u, c);
  }

  /** A run that is there before and after a pass has not changed. */
  lemma RunsAreImmutable(w: World, u: Uid, c: Calls, r: RunRef)
    requires u in w.artifacts && BookedAt(w, u) && r in w.runs && r in OutcomeOf(w, u, c).view.runs
    ensures OutcomeOf(w, u, c).view.runs[r] == w.runs[r]
  {
    hide OutcomeOf, BookedAt, RunName, LetGo, StartsRun;
    PassRuns(w, u, c);
  }

  /** Then no step but its own passes takes a run of `u` away. */
  lemma AloneKeepsRuns(w: World, a: Action, u: Uid, r: RunRef)
    requires Enabled(w, a) && AllBooked(w) && AllIndexed(w) && Alone(w, a, u) && !(a.Reconcile? && a.uid == u)
    requires u in w.artifacts && r in w.runs && w.runs[r].owner == Some(u)
    ensures r in Next(w, a).runs && Next(w, a).runs[r] == w.runs[r]
  {
    hide OutcomeOf, RunName, RunPrefix, Recorded, PassRelation, AfterPass, Patched, RunEffect, Coherent, LegalLog,
         Replay;
    if a.Reconcile? && a.uid in w.artifacts {
      assert BookedAt(w, a.uid) && IndexedAt(w, r);
      AfterPassFacts(w, a.uid, a.calls, a.kept, a.draw);
      if r in OutcomeOf(w, a.uid, a.calls).view.runs {
        RunsAreImmutable(w, a.uid, a.calls, r);
      } else {
        DeletesOnlyTracked(w, a.uid, a.calls, r);
        RunNamesAgree(w.artifacts[a.uid].meta, w.artifacts[a.uid].status.attempts, w.artifacts[u].meta,
                      w.runs[r].attempt);
      }
    }
  }

  /** The run of the attempt after the last one counted. */
  function AheadRef(a: Artifact, kind: Kind): RunRef {
    RunRef(kind, RunName(a.meta, a.status.attempts + 1))
  }

  predicate Ahead(w: World, u: Uid, kind: Kind)
    requires u in w.artifacts
  {
    AheadRef(w.artifacts[u], kind) in w.runs && w.runs[AheadRef(w.artifacts[u], kind)].owner == Some(u)
  }

  /** The creations are attempts 1, 2, 3, ... in order, each once; the last is ahead of the
      counter exactly when its run stands unclaimed. */
  predicate InOrder(cs: seq<Creation>, attempts: nat, ahead: bool) {
    && (forall i :: 0 <= i < |cs| ==> cs[i].attempt == i + 1)
    && |cs| == attempts + One(ahead)
  }

  predicate CreatesInOrder(w: World, u: Uid, kind: Kind) {
    u in w.artifacts ==>
      u in w.ledgers && InOrder(w.ledgers[u].creates, w.artifacts[u].status.attempts, Ahead(w, u, kind))
  }

  /** Deleting the tracked run does not touch the run ahead of the counter. */
  lemma AheadSurvives(w: World, u: Uid, c: Calls, kind: Kind)
    requires u in w.artifacts && BookedAt(w, u) && Ahead(w, u, kind)
    requires RunEffect(CtxOf(w, u, c), ViewOf(w, u), OutcomeOf(w, u, c).view)
    ensures var v := OutcomeOf(w, u, c).view;
            AheadRef(w.artifacts[u], kind) in v.runs && v.runs[AheadRef(w.artifacts[u], kind)].owner == Some(u)
  {
    var a := w.artifacts[u];
    RunNameInjective(a.meta, a.status.attempts, a.status.attempts + 1);
    hide OutcomeOf, RunName, LetGo, StartsRun, Coherent, LegalLog, Replay;
  }

  predicate Stands(v: View, r: RunRef, u: Uid) {
    r in v.runs && v.runs[r].owner == Some(u)
  }

  /** What a pass does about the next index: it creates it, which needs it absent; it adopts
      it, which needs it standing; or it leaves it as it was. */
  lemma CreationCases(w: World, u: Uid, c: Calls, kind: Kind)
    requires u in w.artifacts && BookedAt(w, u) && (c.runKind.None? || c.runKind == Some(kind))
    ensures var v, n, r := OutcomeOf(w, u, c).view, w.artifacts[u].status.attempts, AheadRef(w.artifacts[u], kind);
            if StartsRun(v.journal, false) then !Ahead(w, u, kind) && Stands(v, r, u) && v.status.attempts == n + 1
            else if StartsRun(v.journal, true) then Ahead(w, u, kind) && Stands(v, r, u) && v.status.attempts == n + 1
            else Ahead(w, u, kind) == Stands(v, r, u) && v.status.attempts == n
  {
    hide PassRelation, OutcomeOf, RunName, LetGo, Booked;
    PassRuns(w, u, c);
    var x, v0, v := CtxOf(w, u, c), ViewOf(w, u), OutcomeOf(w, u, c).view;
    if Ahead(w, u, kind) { AheadSurvives(w, u, c, kind); }
    if CreatedRun(x, v0, v) {
    } else if AdoptedRun(x, v0, v) {
    } else if RemovedRun(v0, v) {
    } else {
      assert SameRuns(v0, v);
    }
  }

  /** Once the counter moves on, no run is ahead of it. */
  lemma NothingFurther(w: World, u: Uid, kind: Kind)
    requires u in w.artifacts && AllIndexed(w) && w.artifacts[u].status.ref.Some?
    ensures !Ahead(w, u, kind)
  {
    var a := w.artifacts[u];
    if Ahead(w, u, kind) {
      var r := AheadRef(a, kind);
      assert IndexedAt(w, r);
      RunNameInjective(a.meta, w.runs[r].attempt, a.status.attempts + 1);
    }
  }

  lemma InOrderPass(w: World, u: Uid, c: Calls, kept: bool, draw: Draw, kind: Kind)
    requires u in w.artifacts && BookedAt(w, u) && CreatesInOrder(w, u, kind)
    requires c.runKind.None? || c.runKind == Some(kind)
    requires AllIndexed(AfterPass(w, u, c, kept, draw))
    ensures CreatesInOrder(AfterPass(w, u, c, kept, draw), u, kind)
  {
    hide OutcomeOf, RunName, BookedAt, StartsRun, AfterPass, Patched, Recorded, AllIndexed;
    CreationCases(w, u, c, kind);
    AfterPassFacts(w, u, c, kept, draw);
    StartedTracks(w, u, c);
    var w' := AfterPass(w, u, c, kept, draw);
    if u in w'.artifacts && w'.artifacts[u].status.attempts > w.artifacts[u].status.attempts {
      NothingFurther(w', u, kind);
    }
  }

  lemma StartedTracks(w: World, u: Uid, c: Calls)
    requires u in w.artifacts && BookedAt(w, u)
    ensures OutcomeOf(w, u, c).view.status.attempts > w.artifacts[u].status.attempts ==>
            OutcomeOf(w, u, c).view.status.ref.Some?
  {
    PassRuns(w, u, c);
    hide PassRelation, OutcomeOf, RunName, LetGo, Booked, StartsRun;
  }

  /** Nobody else's step makes or breaks the run ahead of the counter. */
  lemma OthersKeepAhead(w: World, a: Action, u: Uid, kind: Kind)
    requires Enabled(w, a) && AllBooked(w) && AllIndexed(w) && Alone(w, a, u) && !(a.Reconcile? && a.uid == u)
    requires u in w.artifacts && u in Next(w, a).artifacts
    ensures Ahead(Next(w, a), u, kind) == Ahead(w, u, kind)
    ensures Next(w, a).artifacts[u].status == w.artifacts[u].status
  {
    hide OutcomeOf, RunName, Recorded, Booked, PassRelation, AfterPass, Patched, RunEffect, AllIndexed, Alone;
    assert BookedAt(w, u);
    if Ahead(w, u, kind) { AloneKeepsRuns(w, a, u, AheadRef(w.artifacts[u], kind)); }
    if a.Reconcile? && a.uid in w.artifacts {
      assert BookedAt(w, a.uid);
      AfterPassFacts(w, a.uid, a.calls, a.kept, a.draw);
      PassRuns(w, a.uid, a.calls);
      var r, v := AheadRef(w.artifacts[u], kind), OutcomeOf(w, a.uid, a.calls).view;
      if r in v.runs && v.runs[r].owner == Some(u) { OtherRunSame(w, a.uid, a.calls, r); }
    }
  }

  lemma InOrderStep(w: World, a: Action, u: Uid, kind: Kind)
    requires Enabled(w, a) && AllBooked(w) && AllIndexed(w) && CreatesInOrder(w, u, kind) && Undisturbed(w, a, u, kind)
    ensures CreatesInOrder(Next(w, a), u, kind)
  {
    IndexedStep(w, a);
    if a.Reconcile? && a.uid == u {
      if u in w.artifacts {
        assert BookedAt(w, u);
        InOrderPass(w, u, a.calls, a.kept, a.draw, kind);
      }
    } else if u in w.artifacts && u in Next(w, a).artifacts {
      OthersKeepAhead(w, a, u, kind);
      hide OutcomeOf, Ahead, AllBooked, AllIndexed, Undisturbed, Recorded;
    } else if u in Next(w, a).artifacts {
      NewHasNothingAhead(w, a, u, kind);
    }
  }

  lemma NewHasNothingAhead(w: World, a: Action, u: Uid, kind: Kind)
    requires Enabled(w, a) && AllBooked(w) && AllIndexed(w) && u !in w.artifacts && u in Next(w, a).artifacts
    ensures CreatesInOrder(Next(w, a), u, kind)
  {
    hide OutcomeOf, RunName, BookedAt, Recorded;
    assert a.Admit? && a.meta.uid == u;
    assert IndexedAt(w, AheadRef(Next(w, a).artifacts[u], kind));
  }

  /** Crash-safe creation: without outside deletion the runs created are attempts 1, 2, 3, ...
      each exactly once, however many status patches are lost. */
  lemma CreationIsCrashSafe(ws: seq<World>, acts: seq<Action>, n: nat, u: Uid, kind: Kind)
    requires Execution(ws, acts) && Empty(ws[0]) && n < |ws|
    requires forall i :: 0 <= i < |acts| ==> Undisturbed(ws[i], acts[i], u, kind)
    ensures AllBooked(ws[n]) && AllIndexed(ws[n]) && CreatesInOrder(ws[n], u, kind)
  {
    forall w, a | AllBooked(w) && AllIndexed(w) && CreatesInOrder(w, u, kind)
                  && Undisturbed(w, a, u, kind) && Enabled(w, a)
      ensures AllBooked(Next(w, a)) && AllIndexed(Next(w, a)) && CreatesInOrder(Next(w, a), u, kind)
    {
      BookedStep(w, a);
      IndexedStep(w, a);
      InOrderStep(w, a, u, kind);
    }
    StartBooked(ws[0]);
    hide BookedAt, Next, Ahead, Undisturbed;
    Throughout(ws, acts, w => AllBooked(w) && AllIndexed(w) && CreatesInOrder(w, u, kind),
               (w, a) => Undisturbed(w, a, u, kind), n);
  }

  /** Recovery: with the next attempt's run standing, a pass that starts a run of that kind
      adopts that very run and creates nothing. */
  lemma LostCreationIsAdopted(w: World, u: Uid, c: Calls, kind: Kind)
    requires u in w.artifacts && BookedAt(w, u) && Ahead(w, u, kind) && c.runKind == Some(kind)
    ensures var v := OutcomeOf(w, u, c).view;
            StartsRun(v.journal, true) || StartsRun(v.journal, false) ==>
              StartsRun(v.journal, true) && v.runs == w.runs
              && v.status.ref == Some(AheadRef(w.artifacts[u], kind))
              && v.status.attempts == w.artifacts[u].status.attempts + 1
  {
    PassRuns(w, u, c);
    hide PassRelation, OutcomeOf, RunName, LetGo, Booked, StartsRun;
  }

  /** The exact rule: a pass that starts a run creates one if and only if no run of the next
      index stands under the kind it renders, and then it adds that run and nothing else. */
  lemma StartCreatesExactly(w: World, u: Uid, c: Calls)
    requires u in w.artifacts && BookedAt(w, u)
    requires var j := OutcomeOf(w, u, c).view.journal; StartsRun(j, true) || StartsRun(j, false)
    ensures c.runKind.Some?
    ensures var j := OutcomeOf(w, u, c).view.journal;
            && (StartsRun(j, false) <==> !Ahead(w, u, c.runKind.value))
            && (StartsRun(j, false) <==> OutcomeOf(w, u, c).view.runs != w.runs)
  {
    PassRuns(w, u, c);
    hide PassRelation, OutcomeOf, RunName, LetGo, Booked;
    var x, v0, v := CtxOf(w, u, c), ViewOf(w, u), OutcomeOf(w, u, c).view;
    assert CreatedRun(x, v0, v) || AdoptedRun(x, v0, v);
  }

  /** So with the next index standing under kind `k` alone, a pass that starts a run duplicates
      the index if and only if it renders another kind. */
  lemma DuplicatesExactly(w: World, u: Uid, c: Calls, k: Kind)
    requires u in w.artifacts && BookedAt(w, u) && Ahead(w, u, k) && forall k' :: Ahead(w, u, k') ==> k' == k
    requires var j := OutcomeOf(w, u, c).view.journal; StartsRun(j, true) || StartsRun(j, false)
    ensures StartsRun(OutcomeOf(w, u, c).view.journal, false) <==> c.runKind != Some(k)
  {
    hide Booked, OutcomeOf, Ahead, StartsRun;
    StartCreatesExactly(w, u, c);
  }

  // -------------------------------------- no run is created twice, whatever the kinds

  /** A creation of Artifact `a` whose index is ahead of the counter still stands. */
  predicate Stood(a: Artifact, k: Creation, runs: map<RunRef, Run>) {
    && k.ref.Some? && k.ref.value.name == RunName(a.meta, k.attempt) && k.attempt <= a.status.attempts + 1
    && (k.attempt == a.status.attempts + 1 ==> k.ref.value in runs && runs[k.ref.value].owner == Some(a.meta.uid))
  }

  /** Attempts never go back, and one attempt is created again only as a different run. */
  predicate Distinct(cs: seq<Creation>) {
    forall i, j :: 0 <= i < j < |cs| ==>
      cs[i].attempt <= cs[j].attempt && (cs[i].attempt == cs[j].attempt ==> cs[i].ref != cs[j].ref)
  }

  predicate CreatedOnce(w: World, u: Uid) {
    u in w.artifacts && u in w.ledgers ==>
      && Distinct(w.ledgers[u].creates)
      && forall i :: 0 <= i < |w.ledgers[u].creates| ==> Stood(w.artifacts[u], w.ledgers[u].creates[i], w.runs)
  }

  /** A pass of `u` leaves a run of the next index standing. */
  lemma NextIndexSurvives(w: World, u: Uid, c: Calls, r: RunRef)
    requires u in w.artifacts && BookedAt(w, u)
    requires r in w.runs && w.runs[r].owner == Some(u)
             && r.name == RunName(w.artifacts[u].meta, w.artifacts[u].status.attempts + 1)
    ensures var v := OutcomeOf(w, u, c).view; r in v.runs && v.runs[r].owner == Some(u)
  {
    assert Ahead(w, u, r.kind);
    hide OutcomeOf, RunName, Booked, Ahead, RunEffect;
    PassRuns(w, u, c);
    AheadSurvives(w, u, c, r.kind);
  }

  /** The run a pass creates is new, tracked and named after the next attempt. */
  lemma CreatedIsNew(w: World, u: Uid, c: Calls)
    requires u in w.artifacts && BookedAt(w, u) && StartsRun(OutcomeOf(w, u, c).view.journal, false)
    ensures var v, a := OutcomeOf(w, u, c).view, w.artifacts[u];
            && v.status.attempts == a.status.attempts + 1 && v.status.ref.Some? && v.status.ref.value !in w.runs
            && v.status.ref.value.name == RunName(a.meta, v.status.attempts)
            && v.status.ref.value in v.runs && v.runs[v.status.ref.value].owner == Some(u)
  {
    PassRuns(w, u, c);
    hide PassRelation, OutcomeOf, RunName, LetGo, Booked;
  }

  /** Counters only move up by the run a pass starts. */
  lemma AttemptsMove(w: World, u: Uid, c: Calls)
    requires u in w.artifacts && BookedAt(w, u)
    ensures w.artifacts[u].status.attempts <= OutcomeOf(w, u, c).view.status.attempts
  {
    PassRuns(w, u, c);
    hide PassRelation, OutcomeOf, RunName, LetGo, Booked, StartsRun;
  }

  /** An earlier creation stands as well after the pass as before it. */
  lemma StoodAfter(w: World, u: Uid, c: Calls, kept: bool, k: Creation)
    requires u in w.artifacts && BookedAt(w, u) && Stood(w.artifacts[u], k, w.runs)
    ensures Stood(Patched(w.artifacts[u], OutcomeOf(w, u, c).view, kept), k, OutcomeOf(w, u, c).view.runs)
  {
    hide OutcomeOf, RunName, Booked, TruncateOpt;
    AttemptsMove(w, u, c);
    if k.attempt == w.artifacts[u].status.attempts + 1 {
      NextIndexSurvives(w, u, c, k.ref.value);
    }
  }

  lemma CreatedOncePass(w: World, u: Uid, c: Calls, kept: bool, draw: Draw)
    requires u in w.artifacts && BookedAt(w, u) && CreatedOnce(w, u)
    ensures CreatedOnce(AfterPass(w, u, c, kept, draw), u)
  {
    hide OutcomeOf, RunName, Booked, AfterPass, Patched, Recorded, StartsRun, Stood;
    AfterPassFacts(w, u, c, kept, draw);
    var v, cs := OutcomeOf(w, u, c).view, w.ledgers[u].creates;
    forall i | 0 <= i < |cs| ensures Stood(Patched(w.artifacts[u], v, kept), cs[i], v.runs) {
      StoodAfter(w, u, c, kept, cs[i]);
    }
    if StartsRun(v.journal, false) {
      NewCreationStood(w, u, c, kept);
      forall i | 0 <= i < |cs| ensures NotAfter(cs[i], CreationOf(v, w.now)) {
        OlderCreation(w, u, c, cs[i]);
      }
      DistinctAppend(cs, CreationOf(v, w.now));
    }
  }

  /** `k` came no later than `k'`, and is another run. */
  predicate NotAfter(k: Creation, k': Creation) {
    k.attempt <= k'.attempt && (k.attempt == k'.attempt ==> k.ref != k'.ref)
  }

  lemma DistinctAppend(cs: seq<Creation>, k: Creation)
    requires Distinct(cs) && forall i :: 0 <= i < |cs| ==> NotAfter(cs[i], k)
    ensures Distinct(cs + [k])
  {
  }

  lemma NewCreationStood(w: World, u: Uid, c: Calls, kept: bool)
    requires u in w.artifacts && BookedAt(w, u) && StartsRun(OutcomeOf(w, u, c).view.journal, false)
    ensures Stood(Patched(w.artifacts[u], OutcomeOf(w, u, c).view, kept), CreationOf(OutcomeOf(w, u, c).view, w.now),
                  OutcomeOf(w, u, c).view.runs)
  {
    hide OutcomeOf, RunName, Booked, TruncateOpt, StartsRun;
    CreatedIsNew(w, u, c);
  }

  lemma OlderCreation(w: World, u: Uid, c: Calls, k: Creation)
    requires u in w.artifacts && BookedAt(w, u) && StartsRun(OutcomeOf(w, u, c).view.journal, false)
    requires Stood(w.artifacts[u], k, w.runs)
    ensures NotAfter(k, CreationOf(OutcomeOf(w, u, c).view, w.now))
  {
    hide OutcomeOf, RunName, Booked, StartsRun;
    CreatedIsNew(w, u, c);
  }

  lemma CreatedOnceStep(w: World, a: Action, u: Uid)
    requires Enabled(w, a) && AllBooked(w) && AllIndexed(w) && CreatedOnce(w, u) && Alone(w, a, u)
    ensures CreatedOnce(Next(w, a), u)
  {
    hide OutcomeOf, RunName, Booked, AfterPass, Patched, Recorded, AllIndexed, Alone, Distinct, Stood;
    assert BookedAt(w, u);
    if u in w.artifacts && u in Next(w, a).artifacts {
      if a.Reconcile? && a.uid == u {
        CreatedOncePass(w, u, a.calls, a.kept, a.draw);
      } else {
        OthersLeaveHistory(w, a, u);
        forall k | Stood(w.artifacts[u], k, w.runs) ensures Stood(Next(w, a).artifacts[u], k, Next(w, a).runs) {
          StoodElsewhere(w, a, u, k);
        }
      }
    } else if u in Next(w, a).artifacts {
      NewHasNoHistory(w, a, u);
    }
  }

  lemma NewHasNoHistory(w: World, a: Action, u: Uid)
    requires Enabled(w, a) && AllBooked(w) && u !in w.artifacts && u in Next(w, a).artifacts
    ensures u in Next(w, a).ledgers && Next(w, a).ledgers[u].creates == [] && Distinct([])
  {
    hide OutcomeOf, BookedAt, Recorded;
    assert a.Admit? && a.meta.uid == u;
  }

  /** Only its own passes write an Artifact's status and history. */
  lemma OthersLeaveHistory(w: World, a: Action, u: Uid)
    requires Enabled(w, a) && AllBooked(w) && u in w.artifacts && u in Next(w, a).artifacts
             && !(a.Reconcile? && a.uid == u)
    ensures var w' := Next(w, a);
            && w'.artifacts[u].meta == w.artifacts[u].meta && w'.artifacts[u].status == w.artifacts[u].status
            && u in w.ledgers && u in w'.ledgers && w'.ledgers[u] == w.ledgers[u] && w.now <= w'.now
  {
    hide OutcomeOf, AfterPass, Booked, Recorded, Patched;
    assert BookedAt(w, u);
    if a.Reconcile? && a.uid in w.artifacts {
      assert BookedAt(w, a.uid);
      AfterPassFacts(w, a.uid, a.calls, a.kept, a.draw);
    }
  }

  lemma StoodElsewhere(w: World, a: Action, u: Uid, k: Creation)
    requires Enabled(w, a) && AllBooked(w) && AllIndexed(w) && Alone(w, a, u) && !(a.Reconcile? && a.uid == u)
    requires u in w.artifacts && u in Next(w, a).artifacts && Stood(w.artifacts[u], k, w.runs)
    ensures Stood(Next(w, a).artifacts[u], k, Next(w, a).runs)
  {
    hide OutcomeOf, RunName, Booked, AllIndexed, Alone, Next;
    assert BookedAt(w, u);
    OthersLeaveHistory(w, a, u);
    if k.attempt == w.artifacts[u].status.attempts + 1 {
      AloneKeepsRuns(w, a, u, k.ref.value);
    }
  }

  /** Crash-safe creation without the one-kind condition: whatever kinds the class renders and
      however many patches are lost, no run is created twice; an index is created again only
      under another kind. */
  lemma NoRunIsCreatedTwice(ws: seq<World>, acts: seq<Action>, n: nat, u: Uid)
    requires Execution(ws, acts) && Empty(ws[0]) && n < |ws| && u in ws[n].artifacts
    requires forall i :: 0 <= i < |acts| ==> Alone(ws[i], acts[i], u)
    ensures u in ws[n].ledgers
    ensures var cs := ws[n].ledgers[u].creates;
            forall i, j :: 0 <= i < j < |cs| ==>
              && cs[i].ref.Some? && cs[j].ref.Some? && cs[i].ref != cs[j].ref && cs[i].attempt <= cs[j].attempt
              && (cs[i].attempt == cs[j].attempt ==> cs[i].ref.value.kind != cs[j].ref.value.kind)
  {
    forall w, a | AllBooked(w) && AllIndexed(w) && CreatedOnce(w, u) && Alone(w, a, u) && Enabled(w, a)
      ensures AllBooked(Next(w, a)) && AllIndexed(Next(w, a)) && CreatedOnce(Next(w, a), u)
    {
      hide BookedAt, Next, AllIndexed, Alone, CreatedOnce;
      BookedStep(w, a);
      IndexedStep(w, a);
      CreatedOnceStep(w, a, u);
    }
    hide BookedAt, Next, Indexed, Alone, Distinct, Stood;
    AlwaysIndexed(ws, acts, 0);
    Throughout(ws, acts, w => AllBooked(w) && AllIndexed(w) && CreatedOnce(w, u), (w, a) => Alone(w, a, u), n);
    CreatedOnceMeans(ws[n], u);
  }

  lemma CreatedOnceMeans(w: World, u: Uid)
    requires u in w.artifacts && AllBooked(w) && CreatedOnce(w, u)
    ensures u in w.ledgers
    ensures var cs := w.ledgers[u].creates;
            forall i, j :: 0 <= i < j < |cs| ==>
              && cs[i].ref.Some? && cs[j].ref.Some? && cs[i].ref != cs[j].ref && cs[i].attempt <= cs[j].attempt
              && (cs[i].attempt == cs[j].attempt ==> cs[i].ref.value.kind != cs[j].ref.value.kind)
  {
    hide Booked, RunName;
    assert BookedAt(w, u);
    var cs, m := w.ledgers[u].creates, w.artifacts[u].meta;
    forall i, j | 0 <= i < j < |cs|
      ensures && cs[i].ref.Some? && cs[j].ref.Some? && cs[i].ref != cs[j].ref
              && (cs[i].attempt == cs[j].attempt ==> cs[i].ref.value.kind != cs[j].ref.value.kind)
    {
      assert Stood(w.artifacts[u], cs[i], w.runs) && Stood(w.artifacts[u], cs[j], w.runs);
      RunNameInjective(m, cs[i].attempt, cs[j].attempt);
    }
  }
}
