/** The durable records of a stable append: the logical parent, its numbered publication attempts, and
    the phase transitions an attempt may make. Digests are the values they commit to. */
module AppendRecords {
  import opened Optional

  type Id = nat
  type Path = string
  type Body = seq<int>

  datatype Phase = Uploading | Finalizing | Published | Aborting | Cleaning | Cleaned | Quarantined

  /** What the path must look like when the attempt publishes. */
  datatype Claim = CreateOnly | Append(expectedGeneration: nat, base: Id)

  datatype Receipt = Receipt(generation: nat, workspaceRevision: nat, body: Body)

  datatype Failure = Failure(kind: nat, evidence: Option<nat>)

  /** The part of an attempt sealed at admission: its identity and initialization digests.
      `payload` is the caller's intent, `body` the complete body the attempt will publish. */
  datatype Plan = Plan(
    id: Id, logical: Id, attempt: nat, payload: Body, path: Path, revision: Id,
    claim: Claim, body: Body, epoch: nat, objects: nat, rows: nat)

  const MAX_STAGED_OBJECTS := 1_048_576
  const MAX_MANIFEST_ROWS := 1_048_576
  const MAX_INLINE_BODY := 16 * 1024

  /** What the record of a new attempt must satisfy whatever is stored. */
  predicate PlanFits(plan: Plan) {
    plan.logical != plan.id && plan.objects <= MAX_STAGED_OBJECTS && plan.rows <= MAX_MANIFEST_ROWS
  }

  /** The size of the body is sealed by the last manifest row, or by the body itself when it is kept inline
      without objects; a body with neither is empty. */
  predicate SizeSealed(objects: nat, rows: nat, body: Body) {
    rows > 0 || body == [] || (objects == 0 && |body| <= MAX_INLINE_BODY)
  }

  /** One publication attempt. The cursors count durable rows. */
  datatype Child = Child(
    plan: Plan, phase: Phase, deadline: nat,
    staged: nat, uploaded: nat, listed: nat,
    cleanedObjects: nat, cleanedRows: nat, retries: nat,
    absenceProof: bool, result: Option<Receipt>, failure: Option<Failure>)

  /** The logical append. */
  datatype Parent = Parent(
    logical: Id, payload: Body, path: Path, attempt: nat,
    child: Id, revision: Id, result: Option<Receipt>)

  predicate Matches(parent: Parent, child: Child) {
    && child.plan.logical == parent.logical
    && child.plan.attempt == parent.attempt
    && child.plan.payload == parent.payload
    && child.plan.id == parent.child
    && child.plan.revision == parent.revision
    && child.plan.path == parent.path
  }

  predicate CompleteClosure(c: Child) {
    c.staged == c.plan.objects && c.uploaded == c.plan.objects && c.listed == c.plan.rows
  }

  /** The attempt has not been abandoned. */
  predicate Live(p: Phase) {
    p == Uploading || p == Finalizing || p == Published
  }

  /** `PublishOperationRecord::validate`: cursor order and the payload each phase must and must not carry. */
  predicate Valid(c: Child) {
    && PlanFits(c.plan)
    && c.deadline != 0
    && c.uploaded <= c.staged <= c.plan.objects
    && c.listed <= c.plan.rows
    && c.cleanedObjects <= c.staged
    && c.cleanedRows <= c.listed
    && (c.retries != 0 ==> !Live(c.phase))
    && (Live(c.phase) || c.phase == Aborting ==> c.cleanedObjects == 0 && c.cleanedRows == 0)
    && (Live(c.phase) ==> !c.absenceProof)
    && (Live(c.phase) <==> c.failure.None?)
    && (c.phase == Finalizing || c.phase == Published ==> CompleteClosure(c))
    && (c.phase == Cleaned ==> c.cleanedObjects == c.staged && c.cleanedRows == c.listed)
    && (c.phase == Quarantined ==> c.failure.value.evidence.Some?)
    && (c.result.Some? <==> c.phase == Published)
  }

  datatype Transition =
    | BeginFinalization
    | Publish(result: Receipt)
    | BeginAbort(failure: Failure)
    | BeginCleaning
    | FinishCleanup
    | Quarantine(failure: Failure)

  /** `apply_transition` against the observed phase. */
  function Apply(c: Child, t: Transition): (r: Option<Child>)
  {
    match t
    case BeginFinalization =>
      if c.phase == Uploading && CompleteClosure(c) then Some(c.(phase := Finalizing)) else None
    case Publish(result) =>
      if c.phase == Finalizing then Some(c.(phase := Published, result := Some(result))) else None
    case BeginAbort(failure) =>
      if c.phase == Uploading then Some(c.(phase := Aborting, failure := Some(failure))) else None
    case BeginCleaning =>
      if c.phase == Aborting then Some(c.(phase := Cleaning)) else None
    case FinishCleanup =>
      if c.phase == Cleaning && c.cleanedObjects == c.staged && c.cleanedRows == c.listed
      then Some(c.(phase := Cleaned)) else None
    case Quarantine(failure) =>
      if c.phase == Cleaning && failure.evidence.Some?
      then Some(c.(phase := Quarantined, failure := Some(failure))) else None
  }

  /** `take_over_finalization`: the metadata-owned edge from Finalizing to Aborting. */
  function TakeOverFinalization(c: Child, failure: Failure): (r: Option<Child>)
  {
    if c.phase == Finalizing
    then Some(c.(phase := Aborting, absenceProof := true, failure := Some(failure)))
    else None
  }

  /** `retry_append_cleanup`: one more accepted cleanup round. */
  function RetryCleanup(c: Child): (r: Option<Child>)
  {
    if c.phase == Quarantined then Some(c.(phase := Cleaning, retries := c.retries + 1)) else None
  }

  /** Every edge keeps a record valid, so the re-validation behind it never refuses. */
  lemma EdgesKeepValid(c: Child, t: Transition, f: Failure)
    requires Valid(c)
    ensures Apply(c, t).Some? ==> Valid(Apply(c, t).value) && Apply(c, t).value.plan == c.plan
    ensures TakeOverFinalization(c, f).Some? ==> Valid(TakeOverFinalization(c, f).value)
    ensures RetryCleanup(c).Some? ==> Valid(RetryCleanup(c).value)
  {
  }

  /** How near an attempt is to its end: an edge never leads back, except the counted cleanup retry. */
  function Rank(p: Phase): (r: nat)
  {
    match p
    case Uploading => 0
    case Finalizing => 1
    case Published => 6
    case Aborting => 2
    case Cleaning => 3
    case Quarantined => 4
    case Cleaned => 5
  }

  /** A successor state of an attempt that keeps what was sealed, adds no receipt, and moves forward:
      either the accepted cleanup rounds grow, or the phase does not fall back. */
  predicate Forward(c: Child, d: Child) {
    && d.plan == c.plan
    && c.result.None? && d.result.None?
    && c.phase != Published && c.phase != Cleaned && d.phase != Published
    && (!Live(c.phase) ==> !Live(d.phase))
    && c.retries <= d.retries <= c.retries + 1
    && (d.retries == c.retries + 1 <==> c.phase == Quarantined)
    && (d.retries == c.retries ==> Rank(c.phase) <= Rank(d.phase))
  }
}
