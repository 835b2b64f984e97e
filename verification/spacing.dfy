/**
 Backoff over whole runs: how far apart an Artifact's runs are created while nothing but
 failures happens to it.
 */
module Spacing {
  import opened Api
  import opened Delays
  import opened Journal
  import opened Names
  import opened Passes
  import opened PassFacts
  import opened Worlds
  import opened History
  import opened Accounting
  import opened CrashSafety

  /** Events of an Artifact that is only ever started and charged: no resets, no vanished,
      cancelled, verified or expired runs. */
  predicate Calm(e: Event) {
    e.Blanked? || e.DriftReported? || e.Started? || e.FirstSuccess? || e.Charged?
  }

  predicate AllCalm(log: seq<Event>) {
    forall i :: 0 <= i < |log| ==> Calm(log[i])
  }

  /** The persisted times of the charges, in order. */
  function ChargeTimes(log: seq<Event>): seq<int> {
    if log == [] then []
    else
      var e := log[|log| - 1];
      ChargeTimes(log[..|log| - 1]) + (if e.Charged? then [Truncate(e.now)] else [])
  }

  /** On a calm journal the failure count counts the charges and dates the last one. */
  lemma {:induction false} CalmReplay(log: seq<Event>)
    requires LegalLog(log) && AllCalm(log)
    ensures var t, ct := Replay(log), ChargeTimes(log);
            && t.failed == |ct| && t.attempts == |ct| + One(t.ref.Some?)
            && (|ct| > 0 ==> t.lastFailure == Some(ct[|ct| - 1]))
  {
    if log != [] {
      CalmReplay(log[..|log| - 1]);
      assert Calm(log[|log| - 1]);
    }
  }

  lemma {:induction false} AttemptsGrow(log: seq<Event>, j: seq<Event>)
    requires LegalLog(log + j)
    ensures LegalLog(log) && Replay(log).attempts <= Replay(log + j).attempts
  {
    if j == [] {
      assert log + j == log;
    } else {
      assert (log + j)[..|log + j| - 1] == log + j[..|j| - 1];
      AttemptsGrow(log, j[..|j| - 1]);
    }
  }

  /** Events that neither start nor charge leave the charge times alone. */
  lemma {:induction false} QuietTail(log: seq<Event>, j: seq<Event>)
    requires LegalLog(log + j) && Replay(log).ref.None? && Replay(log + j).attempts == Replay(log).attempts
    ensures Replay(log + j).ref.None? && ChargeTimes(log + j) == ChargeTimes(log)
  {
    if j == [] {
      assert log + j == log;
    } else {
      var k := j[..|j| - 1];
      assert (log + j)[..|log + j| - 1] == log + k;
      AttemptsGrow(log, k);
      QuietTail(log, k);
    }
  }

  lemma {:induction false} ChargeTimesExtend(log: seq<Event>, j: seq<Event>, now: int)
    requires forall i :: 0 <= i < |j| && j[i].Charged? ==> j[i].now == now
    ensures var ct, ct' := ChargeTimes(log), ChargeTimes(log + j);
            && |ct| <= |ct'| && ct == ct'[..|ct|]
            && (forall k :: |ct| <= k < |ct'| ==> ct'[k] == Truncate(now))
  {
    if j == [] {
      assert log + j == log;
    } else {
      assert (log + j)[..|log + j| - 1] == log + j[..|j| - 1];
      ChargeTimesExtend(log, j[..|j| - 1], now);
    }
  }

  // ------------------------------------------------------------ the invariant

  /** The creation of attempt k + 1 waited out the delay after the k-th charge, and each
      charge came after its run was created. */
  predicate Spaced(cs: seq<Creation>, ct: seq<int>, now: int, g: Gate) {
    && |cs| <= g.budget && |ct| <= |cs| <= |ct| + 1
    && (forall k :: 0 <= k < |cs| ==> cs[k].at <= now)
    && (forall k :: 1 <= k < |cs| ==> ct[k - 1] + BackoffDelay(k, g.initial, g.max) <= cs[k].at)
    && (forall k :: 0 <= k < |ct| ==> Truncate(cs[k].at) <= ct[k])
  }

  predicate SpacedAt(w: World, u: Uid, g: Gate) {
    u in w.artifacts && u in w.ledgers ==>
      AllCalm(w.ledgers[u].accounts) && Spaced(w.ledgers[u].creates, ChargeTimes(w.ledgers[u].accounts), w.now, g)
  }

  /** Nothing but starts and failures happens to `u`, under one class-side gate. */
  predicate OnlyFails(w: World, a: Action, u: Uid, g: Gate) {
    a.Reconcile? && a.uid == u && u in w.artifacts ==>
      && AllCalm(OutcomeOf(w, u, a.calls).view.journal)
      && (a.calls.lookup.Found? ==> EffectiveGate(a.calls.lookup.def) == g)
  }

  /** A pass that starts a run found the gate open after the last charge on record. */
  lemma StartWaited(log: seq<Event>, j: seq<Event>, now: int, g: Gate)
    requires LegalLog(log + j) && AllCalm(log + j) && |j| > 0 && j[|j| - 1].Started?
    requires j[|j| - 1].now == now && j[|j| - 1].gate == g
    requires Replay(log).ref.None? && Replay(log + j).attempts == Replay(log).attempts + 1
    ensures var ct := ChargeTimes(log);
            && |ct| < g.budget && Replay(log).attempts == |ct|
            && (|ct| > 0 ==> ct[|ct| - 1] + BackoffDelay(|ct|, g.initial, g.max) <= now)
    ensures ChargeTimes(log + j) == ChargeTimes(log)
  {
    hide BackoffDelay, LegalLog, Replay, ChargeTimes, AllCalm;
    var k, e := j[..|j| - 1], j[|j| - 1];
    assert log + j == (log + k) + [e];
    ReplayAppend(log + k, e);
    StartUncharged(log + k, e);
    CalmPrefix(log, j, |log|);
    CalmPrefix(log, j, |log + k|);
    assert (log + j)[..|log|] == log && (log + j)[..|log + k|] == log + k;
    AttemptsGrow(log, k);
    QuietTail(log, k);
    CalmReplay(log + k);
    CalmReplay(log);
  }

  lemma StartUncharged(log: seq<Event>, e: Event)
    requires e.Started?
    ensures ChargeTimes(log + [e]) == ChargeTimes(log)
  {
    assert (log + [e])[..|log|] == log;
  }

  lemma CalmPrefix(log: seq<Event>, j: seq<Event>, n: nat)
    requires AllCalm(log + j) && n <= |log + j|
    ensures AllCalm((log + j)[..n])
  {
  }

  lemma SpacedCreate(cs: seq<Creation>, ct: seq<int>, now: int, g: Gate, ref: Option<RunRef>)
    requires Spaced(cs, ct, now, g) && |cs| == |ct| < g.budget
    requires |ct| > 0 ==> ct[|ct| - 1] + BackoffDelay(|ct|, g.initial, g.max) <= now
    ensures Spaced(cs + [Creation(|cs| + 1, now, ref)], ct, now, g)
  {
    hide BackoffDelay;
  }

  lemma SpacedCharge(cs: seq<Creation>, ct: seq<int>, ct': seq<int>, now: int, g: Gate)
    requires Spaced(cs, ct, now, g) && |ct| <= |ct'| <= |cs| && ct == ct'[..|ct|]
    requires forall k :: |ct| <= k < |ct'| ==> ct'[k] == Truncate(now)
    ensures Spaced(cs, ct', now, g)
  {
    hide BackoffDelay, Truncate;
    forall k | 0 <= k < |ct'| ensures Truncate(cs[k].at) <= ct'[k] {
      if k >= |ct| { TruncateMonotone(cs[k].at, now); }
    }
    assert forall k :: 0 <= k < |ct| ==> ct'[k] == ct[k];
  }

  /** What the books say about a pass's journal. */
  lemma PassJournal(w: World, u: Uid, c: Calls)
    requires u in w.artifacts && BookedAt(w, u)
    ensures var v, log := OutcomeOf(w, u, c).view, w.ledgers[u].accounts;
            && LegalLog(log) && LegalLog(log + v.journal) && AllGated(CtxOf(w, u, c), v.journal)
            && Replay(log).ref == w.artifacts[u].status.ref && Replay(log).attempts == w.artifacts[u].status.attempts
            && Replay(log + v.journal).ref == v.status.ref && Replay(log + v.journal).attempts == v.status.attempts
  {
    hide OutcomeOf, RunEffect, StoreEffect, DriftEffect, AllGated, Coherent, LegalLog, Replay, RunName;
    PassRelated(w, u, c);
    assert Continues(w.ledgers[u].accounts)(TrackerOf(Persist(OutcomeOf(w, u, c).view.status)),
                                            OutcomeOf(w, u, c).view.journal);
  }

  lemma CalmConcat(log: seq<Event>, j: seq<Event>)
    requires AllCalm(log) && AllCalm(j)
    ensures AllCalm(log + j)
  {
  }

  lemma GatedCharges(x: Ctx, j: seq<Event>)
    requires AllGated(x, j)
    ensures forall i :: 0 <= i < |j| && j[i].Charged? ==> j[i].now == x.c.now
    ensures forall i :: 0 <= i < |j| && j[i].Started? ==>
              j[i].now == x.c.now && x.c.lookup.Found? && j[i].gate == EffectiveGate(x.c.lookup.def)
  {
    forall i | 0 <= i < |j| ensures Gated(x, j[i]) {}
  }

  /** A creating pass keeps the spacing, whether or not its patch lands. */
  lemma CreatingPassSpaced(w: World, u: Uid, c: Calls, g: Gate, kind: Kind)
    requires u in w.artifacts && BookedAt(w, u) && SpacedAt(w, u, g) && CreatesInOrder(w, u, kind) && c.now == w.now
    requires c.runKind.None? || c.runKind == Some(kind)
    requires var v := OutcomeOf(w, u, c).view;
             StartsRun(v.journal, false) && AllCalm(v.journal) && (c.lookup.Found? ==> EffectiveGate(c.lookup.def) == g)
    ensures var v, l := OutcomeOf(w, u, c).view, w.ledgers[u];
            && Spaced(l.creates + [CreationOf(v, w.now)], ChargeTimes(l.accounts), w.now, g)
            && ChargeTimes(l.accounts + v.journal) == ChargeTimes(l.accounts)
  {
    hide OutcomeOf, BookedAt, LegalLog, Replay, AllCalm, Spaced, Ahead, AllGated, EffectiveGate, ChargeTimes;
    PassJournal(w, u, c);
    CreationCases(w, u, c, kind);
    CreatorTracksNothing(w, u, c);
    var l, j := w.ledgers[u], OutcomeOf(w, u, c).view.journal;
    GatedCharges(CtxOf(w, u, c), j);
    CalmConcat(l.accounts, j);
    StartWaited(l.accounts, j, c.now, g);
    SpacedCreate(l.creates, ChargeTimes(l.accounts), w.now, g, OutcomeOf(w, u, c).view.status.ref);
  }

  lemma CreatorTracksNothing(w: World, u: Uid, c: Calls)
    requires u in w.artifacts && BookedAt(w, u)
    ensures StartsRun(OutcomeOf(w, u, c).view.journal, false) ==> w.artifacts[u].status.ref.None?
  {
    hide OutcomeOf, BookedAt, LetGo, RunName, StartsRun;
    PassRuns(w, u, c);
  }

  /** A pass that creates nothing keeps the spacing: a charge comes after its run's creation. */
  lemma ChargingPassSpaced(w: World, u: Uid, c: Calls, g: Gate, kind: Kind)
    requires u in w.artifacts && BookedAt(w, u) && SpacedAt(w, u, g) && CreatesInOrder(w, u, kind) && c.now == w.now
    requires c.runKind.None? || c.runKind == Some(kind)
    requires var v := OutcomeOf(w, u, c).view; !StartsRun(v.journal, false) && AllCalm(v.journal)
    ensures Spaced(w.ledgers[u].creates, ChargeTimes(w.ledgers[u].accounts + OutcomeOf(w, u, c).view.journal), w.now, g)
  {
    hide OutcomeOf, BookedAt, LegalLog, Replay, AllCalm, Spaced, AllGated, ChargeTimes, Ahead;
    PassJournal(w, u, c);
    CreationCases(w, u, c, kind);
    var l, v := w.ledgers[u], OutcomeOf(w, u, c).view;
    GatedCharges(CtxOf(w, u, c), v.journal);
    CalmConcat(l.accounts, v.journal);
    ChargeTimesExtend(l.accounts, v.journal, w.now);
    CalmReplay(l.accounts + v.journal);
    SpacedCharge(l.creates, ChargeTimes(l.accounts), ChargeTimes(l.accounts + v.journal), w.now, g);
  }

  lemma SpacedPass(w: World, u: Uid, c: Calls, kept: bool, draw: Draw, g: Gate, kind: Kind)
    requires u in w.artifacts && BookedAt(w, u) && SpacedAt(w, u, g) && CreatesInOrder(w, u, kind) && c.now == w.now
    requires c.runKind.None? || c.runKind == Some(kind)
    requires AllCalm(OutcomeOf(w, u, c).view.journal) && (c.lookup.Found? ==> EffectiveGate(c.lookup.def) == g)
    ensures SpacedAt(AfterPass(w, u, c, kept, draw), u, g)
  {
    hide OutcomeOf, BookedAt, AllCalm, Spaced, AfterPass, Patched, EffectiveGate, ChargeTimes, StartsRun, HasVerified,
         Wait, InOrder, Ahead;
    AfterPassFacts(w, u, c, kept, draw);
    CalmConcat(w.ledgers[u].accounts, OutcomeOf(w, u, c).view.journal);
    if StartsRun(OutcomeOf(w, u, c).view.journal, false) {
      CreatingPassSpaced(w, u, c, g, kind);
    } else {
      ChargingPassSpaced(w, u, c, g, kind);
    }
  }

  lemma SpacedStep(w: World, a: Action, u: Uid, g: Gate, kind: Kind)
    requires Enabled(w, a) && AllBooked(w) && CreatesInOrder(w, u, kind) && SpacedAt(w, u, g)
    requires Undisturbed(w, a, u, kind) && OnlyFails(w, a, u, g)
    ensures SpacedAt(Next(w, a), u, g)
  {
    hide OutcomeOf, BookedAt, AfterPass, EffectiveGate, BackoffDelay, InOrder, Ahead;
    if a.Reconcile? && a.uid in w.artifacts {
      assert BookedAt(w, a.uid);
      if a.uid == u {
        SpacedPass(w, u, a.calls, a.kept, a.draw, g, kind);
      } else {
        BookedLedger(w, a.uid);
        AfterPassFacts(w, a.uid, a.calls, a.kept, a.draw);
      }
    }
  }

  lemma BookedLedger(w: World, u: Uid)
    requires u in w.artifacts && BookedAt(w, u)
    ensures u in w.ledgers
  {
    hide Booked;
  }

  // -------------------------------------------------------------- the theorem

  /** The sum of the first n backoff delays. */
  function TotalDelay(n: nat, g: Gate): int {
    if n == 0 then 0 else TotalDelay(n - 1, g) + Capped(n, g.initial, g.max)
  }

  lemma {:induction false} DelaysAddUp(cs: seq<Creation>, ct: seq<int>, now: int, g: Gate, n: nat)
    requires Spaced(cs, ct, now, g) && n < |cs| && Doubles(g.initial, g.max) && Int64(g.max)
    ensures cs[0].at + TotalDelay(n, g) - n * SECOND <= cs[n].at
  {
    hide BackoffDelay, Doubles, Capped;
    if n > 0 {
      DelaysAddUp(cs, ct, now, g, n - 1);
      BackoffIsCapped(n, g.initial, g.max);
    }
  }

  /** Backoff spacing: while `u` only fails, its runs are created one by one, at most
      `budget` of them; attempt k + 1 is created no sooner than initial * 2^(k-1), capped,
      after the persisted time of the k-th failure; and reaching attempt n + 1 takes the sum
      of the first n delays, less the second each persisted time may lose to truncation. */
  lemma BackoffSpacesRuns(ws: seq<World>, acts: seq<Action>, n: nat, u: Uid, g: Gate, kind: Kind)
    requires Execution(ws, acts) && Empty(ws[0]) && n < |ws| && u in ws[n].artifacts
    requires forall i :: 0 <= i < |acts| ==> Undisturbed(ws[i], acts[i], u, kind) && OnlyFails(ws[i], acts[i], u, g)
    requires Doubles(g.initial, g.max) && Int64(g.max)
    ensures u in ws[n].ledgers
    ensures var cs, ct := ws[n].ledgers[u].creates, ChargeTimes(ws[n].ledgers[u].accounts);
            && |cs| <= g.budget && |ct| <= |cs| <= |ct| + 1
            && (forall k :: 1 <= k < |cs| ==> ct[k - 1] + Capped(k, g.initial, g.max) <= cs[k].at)
            && (forall k :: 0 <= k < |cs| ==> cs[0].at + TotalDelay(k, g) - k * SECOND <= cs[k].at)
  {
    forall w, a | AllBooked(w) && AllIndexed(w) && CreatesInOrder(w, u, kind) && SpacedAt(w, u, g)
                  && Undisturbed(w, a, u, kind) && OnlyFails(w, a, u, g) && Enabled(w, a)
      ensures AllBooked(Next(w, a)) && AllIndexed(Next(w, a)) && CreatesInOrder(Next(w, a), u, kind)
              && SpacedAt(Next(w, a), u, g)
    {
      hide BookedAt, Next, AllIndexed, Undisturbed, OnlyFails, CreatesInOrder, SpacedAt;
      BookedStep(w, a);
      IndexedStep(w, a);
      InOrderStep(w, a, u, kind);
      SpacedStep(w, a, u, g, kind);
    }
    hide BookedAt, Next, AllIndexed, Undisturbed, OnlyFails, Spaced, Ahead, Doubles, ChargeTimes, AllCalm, Capped;
    assert AllBooked(ws[0]) && AllIndexed(ws[0]) && CreatesInOrder(ws[0], u, kind) && SpacedAt(ws[0], u, g) by {
      StartBooked(ws[0]);
      AlwaysIndexed(ws, acts, 0);
    }
    Throughout(ws, acts, w => AllBooked(w) && AllIndexed(w) && CreatesInOrder(w, u, kind) && SpacedAt(w, u, g),
               (w, a) => Undisturbed(w, a, u, kind) && OnlyFails(w, a, u, g), n);
    SpacedMeans(ws[n].ledgers[u].creates, ChargeTimes(ws[n].ledgers[u].accounts), ws[n].now, g);
  }

  lemma SpacedMeans(cs: seq<Creation>, ct: seq<int>, now: int, g: Gate)
    requires Spaced(cs, ct, now, g) && Doubles(g.initial, g.max) && Int64(g.max)
    ensures |cs| <= g.budget && |ct| <= |cs| <= |ct| + 1
    ensures forall k :: 1 <= k < |cs| ==> ct[k - 1] + Capped(k, g.initial, g.max) <= cs[k].at
    ensures forall k :: 0 <= k < |cs| ==> cs[0].at + TotalDelay(k, g) - k * SECOND <= cs[k].at
  {
    hide BackoffDelay, Doubles, Capped;
    forall k | 1 <= k < |cs| ensures ct[k - 1] + Capped(k, g.initial, g.max) <= cs[k].at {
      BackoffIsCapped(k, g.initial, g.max);
    }
    forall k | 0 <= k < |cs| ensures cs[0].at + TotalDelay(k, g) - k * SECOND <= cs[k].at {
      DelaysAddUp(cs, ct, now, g, k);
    }
  }
}
