/**
 The whole system as a state machine: many Artifacts in one namespace, their generator
 runs, the store, and everything that can happen between two passes.  A pass may lose its
 status patch; its effects on runs, store and Artifact deletion remain.
 */
module Worlds {
  import opened Api
  import opened Delays
  import opened Journal
  import opened Passes
  import opened PassFacts

  /** Who uploads to the store: a generator run, or someone else. */
  datatype Writer = ByRun(owner: Uid, ref: RunRef) | Stranger

  datatype Write = Write(key: string, writer: Writer)

  /** A run that was really created in the cluster, for which attempt and when. */
  datatype Creation = Creation(attempt: nat, at: int, ref: Option<RunRef>)

  /** The history of one Artifact: the journal of its kept passes, the runs its passes
      created (kept or not), where and when its baseline digest was taken, and when its
      last pass asked to be woken. */
  datatype Ledger = Ledger(
    accounts: seq<Event>, creates: seq<Creation>, baselineKey: string, baselineAt: nat, due: int)

  const NEW_LEDGER := Ledger([], [], "", 0, 0)

  datatype World = World(
    now: int, artifacts: map<Uid, Artifact>, runs: map<RunRef, Run>,
    objects: map<string, Object>, refusing: bool,
    writes: seq<Write>, ledgers: map<Uid, Ledger>)

  datatype Action =
    | Reconcile(uid: Uid, calls: Calls, kept: bool, draw: Draw)  // kept: the status patch lands
    | Admit(meta: Meta, spec: Spec)                              // a user creates an Artifact
    | Edit(uid: Uid, spec: Spec)                                 // ... edits its spec or annotation
    | Remove(uid: Uid)                                           // ... deletes it
    | Tick(now: int)
    | DropRun(ref: RunRef)                                       // a run is deleted from outside
    | StrayRun(ref: RunRef, started: Option<int>)                // a run no Artifact controls appears
    | Upload(key: string, content: Object, writer: Writer)
    | Erase(key: string)                                         // an object is deleted from outside
    | Refuse(refuse: bool)                                       // the store starts or stops refusing deletes

  predicate Enabled(w: World, a: Action) {
    match a
    case Reconcile(_, c, _, _) => c.now == w.now
    case Admit(m, _) => m.uid !in w.ledgers
    case Tick(now) => w.now <= now
    case StrayRun(ref, _) => ref !in w.runs
    case _ => true
  }

  function ViewOf(w: World, u: Uid): View
    requires u in w.artifacts
  {
    var a := w.artifacts[u];
    View(a.status, a.finalizer, a.deleting, w.runs, w.objects, w.refusing, [])
  }

  function CtxOf(w: World, u: Uid, c: Calls): Ctx
    requires u in w.artifacts
  {
    Ctx(w.artifacts[u].meta, w.artifacts[u].spec, c)
  }

  function OutcomeOf(w: World, u: Uid, c: Calls): Outcome
    requires u in w.artifacts
  {
    Pass(CtxOf(w, u, c), ViewOf(w, u))
  }

  /** What the API server holds after the pass: a lost patch keeps the old status and
      finalizer, but a deletion the pass requested has happened. */
  function Patched(a: Artifact, v: View, kept: bool): Artifact {
    if kept then Artifact(a.meta, a.spec, Persist(v.status), v.finalizer, v.deleting)
    else a.(deleting := v.deleting)
  }

  /** An Artifact marked for deletion is gone once its finalizer is. */
  function Stored(artifacts: map<Uid, Artifact>, u: Uid, a: Artifact): map<Uid, Artifact> {
    if a.deleting && !a.finalizer then artifacts - {u} else artifacts[u := a]
  }

  function CreationOf(v: View, now: int): Creation {
    Creation(v.status.attempts, now, v.status.ref)
  }

  function Recorded(l: Ledger, o: Outcome, now: int, kept: bool, draw: Draw, writes: nat): Ledger {
    Ledger(
      if kept then l.accounts + o.view.journal else l.accounts,
      if StartsRun(o.view.journal, false) then l.creates + [CreationOf(o.view, now)] else l.creates,
      if kept && HasVerified(o.view.journal) then o.view.status.key else l.baselineKey,
      if kept && HasVerified(o.view.journal) then writes else l.baselineAt,
      now + Wait(o.result, draw))
  }

  function AfterPass(w: World, u: Uid, c: Calls, kept: bool, draw: Draw): World
    requires u in w.artifacts
  {
    var o := OutcomeOf(w, u, c);
    var l := if u in w.ledgers then w.ledgers[u] else NEW_LEDGER;
    w.(artifacts := Stored(w.artifacts, u, Patched(w.artifacts[u], o.view, kept)),
       runs := o.view.runs, objects := o.view.objects,
       ledgers := w.ledgers[u := Recorded(l, o, w.now, kept, draw, |w.writes|)])
  }

  /** What a pass changes in the world, field by field. */
  lemma AfterPassFacts(w: World, u: Uid, c: Calls, kept: bool, draw: Draw)
    requires u in w.artifacts && u in w.ledgers
    ensures var w', o := AfterPass(w, u, c, kept, draw), OutcomeOf(w, u, c);
            && w'.runs == o.view.runs && w'.objects == o.view.objects
            && w'.now == w.now && w'.refusing == w.refusing && w'.writes == w.writes
            && (u in w'.artifacts ==> w'.artifacts[u] == Patched(w.artifacts[u], o.view, kept))
            && u in w'.ledgers && w'.ledgers[u] == Recorded(w.ledgers[u], o, w.now, kept, draw, |w.writes|)
            && w'.ledgers[u].creates ==
               (if StartsRun(o.view.journal, false) then w.ledgers[u].creates + [CreationOf(o.view, w.now)]
                else w.ledgers[u].creates)
    ensures var a := Patched(w.artifacts[u], OutcomeOf(w, u, c).view, kept);
            && a.meta == w.artifacts[u].meta && a.spec == w.artifacts[u].spec
            && a.status.attempts == (if kept then OutcomeOf(w, u, c).view.status.attempts
                                     else w.artifacts[u].status.attempts)
            && a.status.ref == (if kept then OutcomeOf(w, u, c).view.status.ref else w.artifacts[u].status.ref)
    ensures forall u' :: u' != u ==>
              var w' := AfterPass(w, u, c, kept, draw);
              && (u' in w'.artifacts <==> u' in w.artifacts)
              && (u' in w.artifacts ==> w'.artifacts[u'] == w.artifacts[u'])
              && (u' in w'.ledgers <==> u' in w.ledgers) && (u' in w.ledgers ==> w'.ledgers[u'] == w.ledgers[u'])
  {
    hide OutcomeOf, HasVerified, StartsRun, Wait, TruncateOpt;
  }

  /** An Artifact whose pass leaves it unmarked is still stored. */
  lemma Stays(w: World, u: Uid, c: Calls, kept: bool, draw: Draw)
    requires u in w.artifacts && !OutcomeOf(w, u, c).view.deleting
    ensures u in AfterPass(w, u, c, kept, draw).artifacts
  {
    hide OutcomeOf, Recorded;
  }

  function Next(w: World, a: Action): World {
    match a
    case Reconcile(u, c, kept, draw) => if u in w.artifacts then AfterPass(w, u, c, kept, draw) else w
    case Admit(m, sp) =>
      w.(artifacts := w.artifacts[m.uid := Artifact(m, sp, NEW_STATUS, false, false)],
         ledgers := w.ledgers[m.uid := NEW_LEDGER])
    case Edit(u, sp) => if u in w.artifacts then w.(artifacts := w.artifacts[u := w.artifacts[u].(spec := sp)]) else w
    case Remove(u) =>
      if u in w.artifacts then w.(artifacts := Stored(w.artifacts, u, w.artifacts[u].(deleting := true))) else w
    case Tick(now) => w.(now := now)
    case DropRun(ref) => w.(runs := w.runs - {ref})
    case StrayRun(ref, started) => w.(runs := w.runs[ref := Run(None, 0, started)])
    case Upload(key, o, writer) => w.(objects := w.objects[key := o], writes := w.writes + [Write(key, writer)])
    case Erase(key) => w.(objects := w.objects - {key})
    case Refuse(b) => w.(refusing := b)
  }

  /** A run of the system: states and the actions between them. */
  ghost predicate Execution(ws: seq<World>, acts: seq<Action>) {
    && |ws| == |acts| + 1
    && (forall i :: 0 <= i < |acts| ==> Enabled(ws[i], acts[i]) && ws[i + 1] == Next(ws[i], acts[i]))
  }

  lemma Lengths(ws: seq<World>, acts: seq<Action>)
    requires Execution(ws, acts)
    ensures |ws| == |acts| + 1
  {
  }

  /** A run of the system goes on by any enabled action. */
  lemma Extend(ws: seq<World>, acts: seq<Action>, a: Action)
    requires Execution(ws, acts) && Enabled(ws[|acts|], a)
    ensures Execution(ws + [Next(ws[|acts|], a)], acts + [a])
  {
    hide Next, Enabled;
  }

  /** Where every run of the system starts: no Artifact yet, only stray runs. */
  predicate Empty(w: World) {
    w.artifacts == map[] && w.ledgers == map[] && forall r :: r in w.runs ==> w.runs[r].owner.None?
  }

  /** An invariant kept by every step that satisfies `ok` holds throughout. */
  lemma {:induction false} Throughout(ws: seq<World>, acts: seq<Action>, inv: World -> bool,
                                      ok: (World, Action) -> bool, n: nat)
    requires Execution(ws, acts) && n < |ws| && inv(ws[0])
    requires forall i :: 0 <= i < |acts| ==> ok(ws[i], acts[i])
    requires forall w, a :: inv(w) && ok(w, a) && Enabled(w, a) ==> inv(Next(w, a))
    ensures inv(ws[n])
  {
    if n > 0 {
      Throughout(ws, acts, inv, ok, n - 1);
      assert ok(ws[n - 1], acts[n - 1]) && Enabled(ws[n - 1], acts[n - 1]);
    }
  }
}
