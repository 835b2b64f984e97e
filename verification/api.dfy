/**
 The API types of the controller: the Artifact's spec and status record, its
 conditions, and the class-side settings every pass reads.  Times and durations
 are integers counting nanoseconds.
 */
module Api {

  datatype Option<+T> = None | Some(value: T)

  const SECOND := 1_000_000_000
  const MINUTE := 60 * SECOND

  /** Kubernetes persists timestamps at whole seconds, rounding down. */
  function Truncate(t: int): (r: int)
    ensures t - SECOND < r <= t
    ensures r % SECOND == 0
  {
    t - t % SECOND
  }

  function TruncateOpt(t: Option<int>): Option<int> {
    if t.Some? then Some(Truncate(t.value)) else None
  }

  lemma TruncateMonotone(s: int, t: int)
    requires s <= t
    ensures Truncate(s) <= Truncate(t)
    ensures Truncate(Truncate(s)) == Truncate(s)
  {
  }

  // ---------------------------------------------------------------- conditions

  datatype Truth = Yes | No | Unknown

  datatype Reason =
    | ArtifactAvailable | ArtifactMissing | Generating | AwaitingArtifact | BackoffPending
    | GeneratorFailed | GeneratorSucceeded | SucceededWithoutArtifact | ContentDrifted
    | StatusUnrecognized | ProgressDeadlineExceeded | FailureBudgetExhausted | KeyConflict
    | GeneratorNotConfigured | StoreUnavailable | StoreDeleteFailed | ClassNotFound
    | TemplateError | Expired | Suspended

  datatype Condition = Absent | Condition(status: Truth, reason: Reason)

  function MarkTrue(r: Reason): Condition { Condition(Yes, r) }
  function MarkFalse(r: Reason): Condition { Condition(No, r) }
  function MarkUnknown(r: Reason): Condition { Condition(Unknown, r) }
  predicate IsTrue(c: Condition) { c.Condition? && c.status == Yes }

  datatype Conditions = Conditions(
    ready: Condition, reconciling: Condition, stalled: Condition, inStore: Condition,
    drifted: Condition, generatorSucceeded: Condition, deleting: Condition)

  const NO_CONDITIONS := Conditions(Absent, Absent, Absent, Absent, Absent, Absent, Absent)

  /** `markStalled`: Stalled and Reconciling are kept exclusive. */
  function MarkStalled(cs: Conditions, r: Reason): Conditions {
    cs.(reconciling := Absent, stalled := MarkTrue(r))
  }

  /** `markReconciling`. */
  function MarkReconciling(cs: Conditions, r: Reason): Conditions {
    cs.(stalled := Absent, reconciling := MarkTrue(r))
  }

  // ------------------------------------------------------------------- Artifact

  datatype State =
    | NoState | Pending | StateGenerating | StateAwaiting | Ready | Missing | Degraded
    | StateExpired | StateSuspended | StateConflict | Deleting

  type Uid = nat

  datatype Kind = Kind(apiVersion: string, kind: string)

  /** A generator run's identity inside the one namespace modelled here. */
  datatype RunRef = RunRef(kind: Kind, name: string)

  /** Immutable metadata.  `identityHash` is `hash.Canonical(spec.identity)`: the CRD
      makes the identity immutable and the hash is deterministic. */
  datatype Meta = Meta(uid: Uid, name: string, createdAt: int, identityHash: string)

  datatype Spec = Spec(
    interval: int, suspend: bool, ttl: Option<int>, deleteAfter: Option<int>,
    deleteOnRemoval: bool, observe: bool, retry: string)
  {
    function Interval(): (r: int)
      ensures r > 0
    {
      if interval <= 0 then MINUTE else interval
    }
  }

  datatype Status = Status(
    specHash: string, key: string, digest: string, state: State,
    attempts: nat, failed: nat, lastFailure: Option<int>,
    ref: Option<RunRef>, succeededAt: Option<int>, lastVerified: Option<int>,
    retryToken: string, cond: Conditions)

  const NEW_STATUS := Status("", "", "", NoState, 0, 0, None, None, None, None, "", NO_CONDITIONS)

  /** What a status looks like after a patch and a re-read. */
  function Persist(st: Status): Status {
    st.(lastFailure := TruncateOpt(st.lastFailure),
        succeededAt := TruncateOpt(st.succeededAt),
        lastVerified := TruncateOpt(st.lastVerified))
  }

  /** The Artifact as the API server stores it. */
  datatype Artifact = Artifact(meta: Meta, spec: Spec, status: Status, finalizer: bool, deleting: bool)

  // -------------------------------------------------------- runs, store objects

  /** A generator run.  `owner` is its controlling Artifact; `attempt` is the index its
      name was built from. */
  datatype Run = Run(owner: Option<Uid>, attempt: nat, started: Option<int>)

  datatype Object = Object(digest: string, metadata: map<string, string>)

  /** The provenance stamp, blank when the object carries none. */
  function Stamp(o: Object, stampKey: string): string {
    if stampKey in o.metadata then o.metadata[stampKey] else ""
  }

  /** Unstamped, or stamped with the given hash: what the controller may delete. */
  predicate Own(o: Object, stampKey: string, hash: string) {
    Stamp(o, stampKey) == "" || Stamp(o, stampKey) == hash
  }

  // -------------------------------------------------------------- ArtifactClass

  datatype DriftPolicy = Warn | Ignore | Regenerate

  /** JSON, as the generator template carries it; `Other` stands for a non-string leaf. */
  datatype Json = Obj(fields: map<string, Json>) | Arr(items: seq<Json>) | Str(text: string) | Other(code: int)

  datatype Generator = Generator(template: Json, closesVocabulary: bool, progressDeadline: Option<int>)

  datatype Backoff = Backoff(maxAttempts: int, initialDelay: int, maxDelay: int)

  datatype Class = Class(
    keyTemplate: string, stampKey: string, generator: Option<Generator>, backoff: Option<Backoff>,
    drift: Option<DriftPolicy>, verificationGracePeriod: int)
  {
    function GracePeriod(): (r: int)
      ensures r > 0
    {
      if verificationGracePeriod > 0 then verificationGracePeriod else 2 * MINUTE
    }

    function ProgressDeadline(): int {
      if generator.Some? && generator.value.progressDeadline.Some? then generator.value.progressDeadline.value else 0
    }

    function DriftPolicy(): DriftPolicy {
      if drift.Some? then drift.value else Warn
    }
  }

  /** The effective failure budget and delays. */
  datatype Gate = Gate(budget: nat, initial: int, max: int)

  function Positive(configured: int, default: nat): nat {
    if configured > 0 then configured else default
  }

  function EffectiveGate(cl: Class): (g: Gate)
    ensures g.budget > 0 && g.initial > 0 && g.max > 0
  {
    match cl.backoff
    case None => Gate(5, 30 * SECOND, 32 * MINUTE)
    case Some(b) => Gate(Positive(b.maxAttempts, 5), Positive(b.initialDelay, 30 * SECOND),
                         Positive(b.maxDelay, 32 * MINUTE))
  }

  /** `EffectiveBackoff`: defaults first, then each configured value that is positive. */
  method EffectiveBackoff(cl: Class) returns (maxAttempts: nat, initial: int, max: int)
    ensures Gate(maxAttempts, initial, max) == EffectiveGate(cl)
    ensures cl.backoff.None? ==> maxAttempts == 5 && initial == 30 * SECOND && max == 32 * MINUTE
    ensures cl.backoff.Some? ==>
              var b := cl.backoff.value;
              && (if b.maxAttempts > 0 then maxAttempts == b.maxAttempts else maxAttempts == 5)
              && (if b.initialDelay > 0 then initial == b.initialDelay else initial == 30 * SECOND)
              && (if b.maxDelay > 0 then max == b.maxDelay else max == 32 * MINUTE)
  {
    maxAttempts, initial, max := 5, 30 * SECOND, 32 * MINUTE;
    if cl.backoff.Some? {
      var b := cl.backoff.value;
      if b.maxAttempts > 0 { maxAttempts := b.maxAttempts; }
      if b.initialDelay > 0 { initial := b.initialDelay; }
      if b.maxDelay > 0 { max := b.maxDelay; }
    }
  }

  /** The settings a class or spec leaves open. */
  lemma Defaults(cl: Class, sp: Spec)
    ensures sp.interval <= 0 ==> sp.Interval() == 60 * SECOND
    ensures sp.interval > 0 ==> sp.Interval() == sp.interval
    ensures cl.verificationGracePeriod <= 0 ==> cl.GracePeriod() == 120 * SECOND
    ensures cl.verificationGracePeriod > 0 ==> cl.GracePeriod() == cl.verificationGracePeriod
    ensures cl.generator.None? || cl.generator.value.progressDeadline.None? ==> cl.ProgressDeadline() == 0
    ensures cl.generator.Some? && cl.generator.value.progressDeadline.Some? ==>
              Some(cl.ProgressDeadline()) == cl.generator.value.progressDeadline
    ensures if cl.drift.None? then cl.DriftPolicy() == Warn else Some(cl.DriftPolicy()) == cl.drift
  {
  }

  /** What the controller may touch: an object whose stamp is missing, blank or its own. */
  lemma OwnMeans(o: Object, stampKey: string, hash: string)
    ensures Own(o, stampKey, hash) <==>
            stampKey !in o.metadata || o.metadata[stampKey] == "" || o.metadata[stampKey] == hash
  {
  }
}
