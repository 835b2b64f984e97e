/**
 What holds in every state of every run of the system, with status patches lost at any
 point: statuses are coherent, every counter is the replay of the kept journal, and every
 run an Artifact controls carries an index its counters account for.
 */
module History {
  import opened Api
  import opened Journal
  import opened Names
  import opened Passes
  import opened PassFacts
  import opened Worlds

  /** The journal of kept passes, continued by the journal of the pass under way. */
  function Continues(log: seq<Event>): Invariant {
    (t, j) => LegalLog(log + j) && Replay(log + j) == t
  }

  lemma ContinuesClosed(log: seq<Event>)
    ensures Closed(Continues(log))
  {
    hide Settled, Legal, Apply;
    forall t, j | Continues(log)(t, j) ensures Settled(t) {
      LegalLogSettled(log + j);
    }
    forall t, j, e | Continues(log)(t, j) && Legal(t, e) ensures Continues(log)(Apply(t, e), j + [e]) {
      ReplayAppend(log + j, e);
      assert log + (j + [e]) == (log + j) + [e];
    }
  }

  // ------------------------------------------------------------- bookkeeping

  /** One Artifact's persisted status against its history. */
  predicate Booked(a: Artifact, l: Ledger) {
    && Coherent(a.status) && Hashed(a.meta, a.status) && Persist(a.status) == a.status
    && LegalLog(l.accounts) && Replay(l.accounts) == TrackerOf(a.status)
    && (a.status.ref.Some? ==> a.status.ref.value.name == RunName(a.meta, a.status.attempts))
  }

  predicate BookedAt(w: World, u: Uid) {
    u in w.artifacts ==> u in w.ledgers && w.artifacts[u].meta.uid == u && Booked(w.artifacts[u], w.ledgers[u])
  }

  /** The relation of one pass, for the Artifact's own journal. */
  ghost predicate PassRelation(w: World, u: Uid, c: Calls)
    requires u in w.artifacts && u in w.ledgers
  {
    Kept(Continues(w.ledgers[u].accounts), CtxOf(w, u, c), ViewOf(w, u), OutcomeOf(w, u, c).view)
  }

  lemma PassInitial(w: World, u: Uid, c: Calls)
    requires u in w.artifacts && BookedAt(w, u)
    ensures Initial(Continues(w.ledgers[u].accounts), CtxOf(w, u, c), ViewOf(w, u))
  {
    hide Closed, RunName, LegalLog, Replay, Coherent;
    ContinuesClosed(w.ledgers[u].accounts);
    assert w.ledgers[u].accounts + [] == w.ledgers[u].accounts;
  }

  lemma PassRelated(w: World, u: Uid, c: Calls)
    requires u in w.artifacts && BookedAt(w, u)
    ensures PassRelation(w, u, c)
  {
    hide Initial, Pass, Kept, Booked;
    PassInitial(w, u, c);
    PassKept(Continues(w.ledgers[u].accounts), CtxOf(w, u, c), ViewOf(w, u));
  }

  lemma PersistTwice(st: Status)
    ensures Persist(Persist(st)) == Persist(st)
  {
    if st.lastFailure.Some? { TruncateMonotone(st.lastFailure.value, st.lastFailure.value); }
    if st.succeededAt.Some? { TruncateMonotone(st.succeededAt.value, st.succeededAt.value); }
    if st.lastVerified.Some? { TruncateMonotone(st.lastVerified.value, st.lastVerified.value); }
  }

  /** A kept pass is booked. */
  lemma KeptIsBooked(w: World, u: Uid, c: Calls, l: Ledger)
    requires u in w.artifacts && BookedAt(w, u) && PassRelation(w, u, c)
    requires l.accounts == w.ledgers[u].accounts + OutcomeOf(w, u, c).view.journal
    ensures Booked(Patched(w.artifacts[u], OutcomeOf(w, u, c).view, true), l)
  {
    var v := OutcomeOf(w, u, c).view;
    PersistTwice(v.status);
    hide OutcomeOf, StoreEffect, DriftEffect, RunName, LegalLog, Replay, LetGo;
    assert Continues(w.ledgers[u].accounts)(TrackerOf(Persist(v.status)), v.journal);
    assert RunEffect(CtxOf(w, u, c), ViewOf(w, u), v);
  }

  lemma BookedPass(w: World, u: Uid, c: Calls, kept: bool, draw: Delays.Draw, u': Uid)
    requires u in w.artifacts && BookedAt(w, u) && BookedAt(w, u')
    ensures BookedAt(AfterPass(w, u, c, kept, draw), u')
  {
    PassRelated(w, u, c);
    if kept {
      KeptIsBooked(w, u, c, Recorded(w.ledgers[u], OutcomeOf(w, u, c), w.now, kept, draw, |w.writes|));
    }
    hide OutcomeOf, Booked, PassRelation, HasVerified, StartsRun;
    assert !kept ==> Booked(Patched(w.artifacts[u], OutcomeOf(w, u, c).view, kept), w.ledgers[u]) by {
      LostIsBooked(w.artifacts[u], OutcomeOf(w, u, c).view, w.ledgers[u], w.ledgers[u]);
    }
    LostIsBooked(w.artifacts[u], OutcomeOf(w, u, c).view, w.ledgers[u],
                 Recorded(w.ledgers[u], OutcomeOf(w, u, c), w.now, false, draw, |w.writes|));
  }

  /** Booking looks at the status and the kept journal only. */
  lemma LostIsBooked(a: Artifact, v: View, l: Ledger, l': Ledger)
    requires Booked(a, l) && l'.accounts == l.accounts
    ensures Booked(Patched(a, v, false), l')
  {
  }

  lemma SpecEditBooked(a: Artifact, sp: Spec, deleting: bool, l: Ledger)
    requires Booked(a, l)
    ensures Booked(a.(spec := sp, deleting := deleting), l)
  {
  }

  lemma NewIsBooked(m: Meta, sp: Spec)
    ensures Booked(Artifact(m, sp, NEW_STATUS, false, false), NEW_LEDGER)
  {
  }

  /** Every step keeps every Artifact booked. */
  lemma BookedStep(w: World, a: Action)
    requires Enabled(w, a) && forall u :: BookedAt(w, u)
    ensures forall u :: BookedAt(Next(w, a), u)
  {
    forall u ensures BookedAt(Next(w, a), u) {
      assert BookedAt(w, u);
      match a
      case Reconcile(r, c, kept, draw) =>
        if r in w.artifacts {
          assert BookedAt(w, r);
          BookedPass(w, r, c, kept, draw, u);
        }
      case Admit(m, sp) => NewIsBooked(m, sp);
      case Edit(r, sp) =>
        hide Booked;
        if r in w.artifacts {
          assert BookedAt(w, r);
          SpecEditBooked(w.artifacts[r], sp, w.artifacts[r].deleting, w.ledgers[r]);
        }
      case Remove(r) =>
        hide Booked;
        if r in w.artifacts {
          assert BookedAt(w, r);
          SpecEditBooked(w.artifacts[r], w.artifacts[r].spec, true, w.ledgers[r]);
        }
      case _ =>
    }
  }
}
