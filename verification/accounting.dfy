/**
 Accounting over whole runs of the system, patches lost at any point: status coherence,
 the attempt ledger, and the bound on the work an Artifact ever starts.
 */
module Accounting {
  import opened Api
  import opened Delays
  import opened Journal
  import opened Passes
  import opened PassFacts
  import opened Worlds
  import opened History

  ghost predicate AllBooked(w: World) {
    forall u :: BookedAt(w, u)
  }

  lemma AlwaysBooked(ws: seq<World>, acts: seq<Action>, n: nat)
    requires Execution(ws, acts) && Empty(ws[0]) && n < |ws|
    ensures AllBooked(ws[n])
  {
    forall w, a | AllBooked(w) && Enabled(w, a) ensures AllBooked(Next(w, a)) {
      BookedStep(w, a);
    }
    hide BookedAt, Next;
    assert AllBooked(ws[0]) by { StartBooked(ws[0]); }
    Throughout(ws, acts, w => AllBooked(w), (w, a) => true, n);
  }

  lemma StartBooked(w: World)
    requires Empty(w)
    ensures AllBooked(w)
  {
  }

  /** Status coherence in every reachable state, error returns and lost patches included. */
  lemma StatusAlwaysCoherent(ws: seq<World>, acts: seq<Action>, n: nat, u: Uid)
    requires Execution(ws, acts) && Empty(ws[0]) && n < |ws| && u in ws[n].artifacts
    ensures var st := ws[n].artifacts[u].status;
            && !(IsTrue(st.cond.stalled) && IsTrue(st.cond.reconciling))
            && (IsTrue(st.cond.ready) ==>
                  st.state == Ready && st.failed == 0 && st.lastFailure.None?
                  && !IsTrue(st.cond.stalled) && !IsTrue(st.cond.reconciling))
            && (st.failed > 0 <==> st.lastFailure.Some?)
            && (st.succeededAt.Some? ==> st.ref.Some?)
            && (st.digest != "" ==> st.ref.None? && st.succeededAt.None?)
            && (st.key != "" ==> st.specHash == ws[n].artifacts[u].meta.identityHash)
  {
    AlwaysBooked(ws, acts, n);
    assert BookedAt(ws[n], u);
    LegalLogSettled(ws[n].ledgers[u].accounts);
    hide Execution, LegalLog, Replay, Names.RunName;
  }

  /** The attempt ledger: every attempt is tracked or was let go exactly once, for one cause. */
  lemma LedgerBalances(ws: seq<World>, acts: seq<Action>, n: nat, u: Uid)
    requires Execution(ws, acts) && Empty(ws[0]) && n < |ws| && u in ws[n].artifacts
    ensures u in ws[n].ledgers
    ensures var st, log := ws[n].artifacts[u].status, ws[n].ledgers[u].accounts;
            && st.attempts == Count(log, CHARGED) + Count(log, VANISHED) + Count(log, CANCELLED)
                              + Count(log, VERIFIED_RELEASE) + Count(log, RETIRED_RELEASE) + One(st.ref.Some?)
            && (forall i, j :: 0 <= i < j < |log| && Releases(log[i]).Some? && Releases(log[j]).Some? ==>
                  Releases(log[i]).value < Releases(log[j]).value)
            && (forall k :: 1 <= k <= st.attempts - One(st.ref.Some?) ==>
                  exists i :: 0 <= i < |log| && Releases(log[i]) == Some(k))
  {
    AlwaysBooked(ws, acts, n);
    assert BookedAt(ws[n], u);
    var st, log := ws[n].artifacts[u].status, ws[n].ledgers[u].accounts;
    AttemptsConserved(log);
    ReleasedOnce(log);
    hide Execution, LegalLog, Replay, Count, Coherent, Names.RunName;
    forall k | 1 <= k <= st.attempts - One(st.ref.Some?)
      ensures exists i :: 0 <= i < |log| && Releases(log[i]) == Some(k)
    {
      var i := EveryAttemptReleased(log, k);
    }
  }

  // ----------------------------------------------------------- the work bound

  /** Every class the Artifact's passes read has the same failure budget. */
  predicate FixedBudget(a: Action, u: Uid, budget: nat) {
    a.Reconcile? && a.uid == u && a.calls.lookup.Found? ==> EffectiveGate(a.calls.lookup.def).budget == budget
  }

  predicate WithinBudget(w: World, u: Uid, budget: nat) {
    u in w.ledgers ==> forall i :: 0 <= i < |w.ledgers[u].accounts| ==> Budgeted(w.ledgers[u].accounts[i], budget)
  }

  lemma GatedIsBudgeted(x: Ctx, j: seq<Event>, budget: nat)
    requires AllGated(x, j) && (x.c.lookup.Found? ==> EffectiveGate(x.c.lookup.def).budget == budget)
    ensures forall i :: 0 <= i < |j| ==> Budgeted(j[i], budget)
  {
    forall i | 0 <= i < |j| ensures Budgeted(j[i], budget) {
      assert Gated(x, j[i]);
    }
  }

  lemma BudgetPass(w: World, u: Uid, c: Calls, kept: bool, draw: Draw, budget: nat)
    requires u in w.artifacts && BookedAt(w, u) && WithinBudget(w, u, budget)
    requires c.lookup.Found? ==> EffectiveGate(c.lookup.def).budget == budget
    ensures WithinBudget(AfterPass(w, u, c, kept, draw), u, budget)
  {
    PassRelated(w, u, c);
    var j := OutcomeOf(w, u, c).view.journal;
    assert AllGated(CtxOf(w, u, c), j);
    GatedIsBudgeted(CtxOf(w, u, c), j, budget);
    hide PassRelation, OutcomeOf, BookedAt, HasVerified, StartsRun, Budgeted;
  }

  lemma BudgetStep(w: World, a: Action, u: Uid, budget: nat)
    requires Enabled(w, a) && AllBooked(w) && WithinBudget(w, u, budget) && FixedBudget(a, u, budget)
    ensures WithinBudget(Next(w, a), u, budget)
  {
    if a.Reconcile? && a.uid == u && u in w.artifacts {
      assert BookedAt(w, u);
      BudgetPass(w, u, a.calls, a.kept, a.draw, budget);
    } else {
      hide OutcomeOf, BookedAt, Budgeted, Recorded, Stored;
    }
  }

  /** Global work bound: the runs an Artifact ever starts are limited by its budget times the
      resets that gave budget back, plus the runs lost without being charged. */
  lemma WorkBounded(ws: seq<World>, acts: seq<Action>, n: nat, u: Uid, budget: nat)
    requires Execution(ws, acts) && Empty(ws[0]) && n < |ws| && u in ws[n].artifacts
    requires forall i :: 0 <= i < |acts| ==> FixedBudget(acts[i], u, budget)
    ensures u in ws[n].ledgers
    ensures var st, log := ws[n].artifacts[u].status, ws[n].ledgers[u].accounts;
            && st.failed + One(st.ref.Some?) <= budget
            && st.attempts <= budget * (1 + Resets(log)) + Count(log, VANISHED) + Count(log, CANCELLED)
            + Count(log, RETIRED_RELEASE)
  {
    forall w, a | AllBooked(w) && WithinBudget(w, u, budget) && FixedBudget(a, u, budget) && Enabled(w, a)
      ensures AllBooked(Next(w, a)) && WithinBudget(Next(w, a), u, budget)
    {
      BookedStep(w, a);
      BudgetStep(w, a, u, budget);
    }
    StartBooked(ws[0]);
    hide BookedAt, Next, FixedBudget;
    Throughout(ws, acts, w => AllBooked(w) && WithinBudget(w, u, budget), (w, a) => FixedBudget(a, u, budget), n);
    hide Execution;
    BoundFromBooks(ws[n], u, budget);
  }

  lemma BoundFromBooks(w: World, u: Uid, budget: nat)
    requires AllBooked(w) && WithinBudget(w, u, budget) && u in w.artifacts
    ensures u in w.ledgers
    ensures var st, log := w.artifacts[u].status, w.ledgers[u].accounts;
            && st.failed + One(st.ref.Some?) <= budget
            && st.attempts <= budget * (1 + Resets(log)) + Count(log, VANISHED) + Count(log, CANCELLED)
            + Count(log, RETIRED_RELEASE)
  {
    assert BookedAt(w, u);
    hide Budgeted, LegalLog, Replay, Count, Resets, Coherent, Names.RunName;
    WorkBound(w.ledgers[u].accounts, budget);
  }
}
