/**
 The accounting of one Artifact, told by what its passes did.  A pass emits events; the
 events of passes whose status patch landed form the Artifact's journal.  The counters
 the controller persists are the replay of that journal, so questions about whole runs
 become questions about legal journals.
 */
module Journal {
  import opened Api
  import opened Delays

  /** The accounting part of the persisted status. */
  datatype Tracker = Tracker(
    attempts: nat, failed: nat, lastFailure: Option<int>,
    ref: Option<RunRef>, succeededAt: Option<int>, digest: string)

  const FRESH := Tracker(0, 0, None, None, None, "")

  function TrackerOf(st: Status): Tracker {
    Tracker(st.attempts, st.failed, st.lastFailure, st.ref, st.succeededAt, st.digest)
  }

  /** Why an attempt was charged; `removed` says whether the deadline's run delete worked. */
  datatype Cause = ReportedFailure | NoArtifact | Deadline(removed: bool)

  datatype Event =
    | RetryHonoured
    | Cancelled(attempt: nat)
    | Blanked
    | DriftReported(was: string, found: string)
    | Verified(digest: string, released: Option<nat>)
    | ObservedAbsent
    | Started(attempt: nat, ref: RunRef, adopted: bool, now: int, gate: Gate)
    | FirstSuccess(now: int)
    | Charged(attempt: nat, cause: Cause, now: int, gate: Gate)
    | Vanished(attempt: nat)
    | Retired(released: Option<nat>)

  function TrackedAttempt(t: Tracker): Option<nat> {
    if t.ref.Some? then Some(t.attempts) else None
  }

  /** What an event does to the counters. */
  function Apply(t: Tracker, e: Event): Tracker {
    match e
    case RetryHonoured => t.(failed := 0, lastFailure := None)
    case Cancelled(_) => t.(ref := None, succeededAt := None)
    case Blanked => t.(digest := "")
    case DriftReported(_, _) => t
    case Verified(d, _) => Tracker(t.attempts, 0, None, None, None, d)
    case ObservedAbsent => t.(failed := 0, lastFailure := None, digest := "")
    case Started(n, r, _, _, _) => t.(attempts := n, ref := Some(r))
    case FirstSuccess(now) => t.(succeededAt := Some(Truncate(now)))
    case Charged(_, _, now, _) =>
      t.(failed := t.failed + 1, lastFailure := Some(Truncate(now)), ref := None, succeededAt := None)
    case Vanished(_) => t.(ref := None, succeededAt := None)
    case Retired(_) => t.(ref := None, succeededAt := None, digest := "")
  }

  /** The backoff gate is open at `now`. */
  predicate GateOpen(t: Tracker, now: int, g: Gate) {
    t.failed > 0 && t.lastFailure.Some? ==> t.lastFailure.value + BackoffDelay(t.failed, g.initial, g.max) <= now
  }

  /** When an event may happen. */
  predicate Legal(t: Tracker, e: Event) {
    match e
    case RetryHonoured => true
    case Cancelled(n) => t.ref.Some? && n == t.attempts
    case Blanked => true
    case DriftReported(was, found) => t.ref.None? && t.digest == was && was != "" && found != "" && was != found
    case Verified(_, released) => released == TrackedAttempt(t)
    case ObservedAbsent => t.ref.None?
    case Started(n, _, _, now, g) =>
      t.ref.None? && t.digest == "" && n == t.attempts + 1 && t.failed < g.budget && GateOpen(t, now, g)
    case FirstSuccess(_) => t.ref.Some? && t.digest == "" && t.succeededAt.None?
    case Charged(n, _, _, g) => t.ref.Some? && t.digest == "" && n == t.attempts && t.failed < g.budget
    case Vanished(n) => t.ref.Some? && n == t.attempts
    case Retired(released) => released == TrackedAttempt(t)
  }

  function Replay(log: seq<Event>): Tracker {
    if log == [] then FRESH else Apply(Replay(log[..|log| - 1]), log[|log| - 1])
  }

  predicate LegalLog(log: seq<Event>) {
    log == [] || (LegalLog(log[..|log| - 1]) && Legal(Replay(log[..|log| - 1]), log[|log| - 1]))
  }

  lemma ReplayAppend(log: seq<Event>, e: Event)
    ensures Replay(log + [e]) == Apply(Replay(log), e)
    ensures LegalLog(log + [e]) <==> LegalLog(log) && Legal(Replay(log), e)
  {
    assert (log + [e])[..|log|] == log;
  }

  // ------------------------------------------------------- facts of any journal

  /** A baseline digest excludes a tracked run, a success time needs one, and failures
      are dated exactly while there are any. */
  predicate Settled(t: Tracker) {
    && (t.digest != "" ==> t.ref.None? && t.succeededAt.None?)
    && (t.succeededAt.Some? ==> t.ref.Some?)
    && (t.failed > 0 <==> t.lastFailure.Some?)
    && (t.ref.Some? ==> t.attempts > 0)
    && (t.lastFailure.Some? ==> Truncate(t.lastFailure.value) == t.lastFailure.value)
    && (t.succeededAt.Some? ==> Truncate(t.succeededAt.value) == t.succeededAt.value)
  }

  lemma {:induction false} LegalLogSettled(log: seq<Event>)
    requires LegalLog(log)
    ensures Settled(Replay(log))
  {
    if log != [] {
      LegalLogSettled(log[..|log| - 1]);
      var e := log[|log| - 1];
      if e.FirstSuccess? { TruncateMonotone(e.now, e.now); }
      if e.Charged? { TruncateMonotone(e.now, e.now); }
    }
  }

  /** The attempt an event lets go of, if any. */
  function Releases(e: Event): Option<nat> {
    match e
    case Cancelled(n) => Some(n)
    case Verified(_, released) => released
    case Charged(n, _, _, _) => Some(n)
    case Vanished(n) => Some(n)
    case Retired(released) => released
    case _ => None
  }

  function Count(log: seq<Event>, p: Event -> bool): nat {
    if log == [] then 0 else Count(log[..|log| - 1], p) + (if p(log[|log| - 1]) then 1 else 0)
  }

  function One(b: bool): nat { if b then 1 else 0 }

  const CHARGED := (e: Event) => e.Charged?
  const VANISHED := (e: Event) => e.Vanished?
  const CANCELLED := (e: Event) => e.Cancelled?
  const VERIFIED_RELEASE := (e: Event) => e.Verified? && e.released.Some?
  const RETIRED_RELEASE := (e: Event) => e.Retired? && e.released.Some?

  /** Conservation: every attempt ever started is accounted for once, by cause. */
  lemma {:induction false} AttemptsConserved(log: seq<Event>)
    requires LegalLog(log)
    ensures Replay(log).attempts ==
            Count(log, CHARGED) + Count(log, VANISHED) + Count(log, CANCELLED)
            + Count(log, VERIFIED_RELEASE) + Count(log, RETIRED_RELEASE) + One(Replay(log).ref.Some?)
  {
    if log != [] {
      AttemptsConserved(log[..|log| - 1]);
    }
  }

  /** Releases happen in attempt order, each attempt at most once, never the tracked one. */
  lemma {:induction false} ReleasedOnce(log: seq<Event>)
    requires LegalLog(log)
    ensures forall i :: 0 <= i < |log| && Releases(log[i]).Some? ==>
              1 <= Releases(log[i]).value <= Replay(log).attempts - One(Replay(log).ref.Some?)
    ensures forall i, j :: 0 <= i < j < |log| && Releases(log[i]).Some? && Releases(log[j]).Some? ==>
              Releases(log[i]).value < Releases(log[j]).value
  {
    if log != [] {
      var before := log[..|log| - 1];
      ReleasedOnce(before);
      LegalLogSettled(before);
      assert forall i :: 0 <= i < |before| ==> log[i] == before[i];
    }
  }

  /** Conversely every attempt but the tracked one has been released. */
  lemma {:induction false} EveryAttemptReleased(log: seq<Event>, n: nat) returns (i: nat)
    requires LegalLog(log)
    requires 1 <= n <= Replay(log).attempts - One(Replay(log).ref.Some?)
    ensures i < |log| && Releases(log[i]) == Some(n)
  {
    var before := log[..|log| - 1];
    if n <= Replay(before).attempts - One(Replay(before).ref.Some?) {
      i := EveryAttemptReleased(before, n);
    } else {
      i := |log| - 1;
    }
  }

  // ----------------------------------------------------------- the work bound

  /** An event that gives budget back to an Artifact that had used some. */
  predicate EffectiveReset(t: Tracker, e: Event) {
    (e.RetryHonoured? || e.Verified? || e.ObservedAbsent?) && (t.failed > 0 || Releases(e).Some?)
  }

  function Resets(log: seq<Event>): nat {
    if log == [] then 0
    else Resets(log[..|log| - 1]) + One(EffectiveReset(Replay(log[..|log| - 1]), log[|log| - 1]))
  }

  predicate Budgeted(e: Event, budget: nat) {
    (e.Started? ==> e.gate.budget == budget) && (e.Charged? ==> e.gate.budget == budget)
  }

  /** Attempts plus budget left, less the one in flight. */
  function Potential(t: Tracker, budget: nat): int {
    t.attempts + (budget - t.failed) - One(t.ref.Some?)
  }

  /** No event raises the potential, save the resets and the runs lost without being charged. */
  lemma PotentialStep(t: Tracker, e: Event, budget: nat)
    requires Settled(t) && Legal(t, e) && Budgeted(e, budget) && t.failed + One(t.ref.Some?) <= budget
    ensures Apply(t, e).failed + One(Apply(t, e).ref.Some?) <= budget
    ensures Potential(Apply(t, e), budget) <=
            Potential(t, budget) + (if EffectiveReset(t, e) then budget else 0)
            + One(VANISHED(e)) + One(CANCELLED(e)) + One(RETIRED_RELEASE(e))
  {
    hide GateOpen;
  }

  /** The runs an Artifact ever starts are bounded by its budget, the resets that gave
      budget back, and the runs lost without being charged. */
  lemma {:induction false} WorkBound(log: seq<Event>, budget: nat)
    requires LegalLog(log)
    requires forall i :: 0 <= i < |log| ==> Budgeted(log[i], budget)
    ensures Replay(log).failed + One(Replay(log).ref.Some?) <= budget
    ensures Potential(Replay(log), budget)
            <= budget * (1 + Resets(log)) + Count(log, VANISHED) + Count(log, CANCELLED) + Count(log, RETIRED_RELEASE)
    ensures Replay(log).attempts
            <= budget * (1 + Resets(log)) + Count(log, VANISHED) + Count(log, CANCELLED) + Count(log, RETIRED_RELEASE)
  {
    hide Settled, Legal, Apply, EffectiveReset, Budgeted;
    if log != [] {
      var before, e := log[..|log| - 1], log[|log| - 1];
      WorkBound(before, budget);
      LegalLogSettled(before);
      PotentialStep(Replay(before), e, budget);
      assert Resets(log) == Resets(before) + One(EffectiveReset(Replay(before), e));
      assert budget * (1 + Resets(log)) ==
             budget * (1 + Resets(before)) + (if EffectiveReset(Replay(before), e) then budget else 0);
    }
  }
}
