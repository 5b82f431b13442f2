/** The metadata service behind a stable append, as one state machine: every command is one atomic step
    that is either applied with all its effects or refused with none. Clients, their crashes and lost
    replies need no state of their own: any client may submit any command at any time, whatever it has
    or has not heard. */
module AppendLedger {
  import opened Optional
  import opened AppendRecords

  /** The live head of a path. */
  datatype Entry = Entry(generation: nat, revision: Id)

  /** The exact logical state a cleanup request names: parent and child together. */
  datatype Token = Token(parent: Parent, child: Child)

  datatype CleanupReceipt = CleanupReceipt(logical: Id, child: Id, token: Token, count: nat, failure: Failure)

  /** The durable result of a command, replayed to anyone who repeats it. */
  datatype Result =
    | ChildIs(child: Child)
    | CleanupAccepted(receipt: CleanupReceipt)
    | PathRemoved(revision: Id)

  datatype Recorded = Recorded(command: Command, version: nat, result: Result)

  /** The change log: what became visible, in commit order. */
  datatype Event =
    | ArtifactPublished(logical: Id, child: Id, path: Path, payload: Body, receipt: Receipt)
    | ArtifactRemoved(path: Path)

  datatype State = State(
    version: nat, epoch: nat, lease: nat, workspace: nat,
    parents: map<Id, Parent>, children: map<Id, Child>,
    paths: map<Path, Entry>, bodies: map<Id, Body>, claims: map<Id, Id>,
    recorded: map<Id, Recorded>, log: seq<Event>)

  datatype Command =
    | Begin(plan: Plan, deadline: nat)
    | StageObjects(expected: Child, count: nat)
    | MarkUploaded(expected: Child, count: nat)
    | StageManifest(expected: Child, count: nat)
    | Heartbeat(expected: Child, until: nat)
    | Transit(expected: Child, transition: Transition)
    | TakeOver(expected: Child, skew: nat, failure: Failure)
    | FailConflict(expected: Child)
    | CleanObjects(expected: Child, count: nat)
    | CleanRows(expected: Child, count: nat)
    | Finalize(expected: Child)
    | Retry(logical: Id, token: Token)
    | Remove(path: Path, expectedGeneration: nat)

  datatype Refusal =
    | ConcurrentMutation | InputMismatch | InvalidPhase | InvalidBatch | Deadline | ClaimHeld
    | PathConflict | RevisionExists | EpochMismatch | FinalizationRequired | RequestIdReused

  datatype Outcome = Applied(state: State, result: Result) | Refused(why: Refusal)

  const Initial := State(1, 1, 0, 0, map[], map[], map[], map[], map[], map[], [])

  /** A publication batch holds between one and 192 rows. */
  predicate BatchFits(count: nat, cursor: nat, planned: nat) {
    1 <= count <= 192 && cursor + count <= planned
  }

  // ---------------------------------------------------------------- guards

  /** The caller's copy of the attempt is the stored one. */
  predicate IsCurrent(s: State, c: Child) {
    c.plan.id in s.children && s.children[c.plan.id] == c
  }

  /** The attempt is still the parent's current one, and the parent has no receipt. */
  predicate HasAuthority(s: State, c: Child) {
    && c.plan.logical in s.parents
    && Matches(s.parents[c.plan.logical], c)
    && s.parents[c.plan.logical].result.None?
  }

  /** The attempt still owns its revision, and nothing was published under it. */
  predicate IsReserved(s: State, c: Child) {
    && c.plan.revision in s.claims
    && s.claims[c.plan.revision] == c.plan.id
    && c.plan.revision !in s.bodies
  }

  /** Compare-and-set of one attempt, for a command that moves the publication forward. */
  function Replace(s: State, expected: Child, next: Option<Child>): (o: Outcome)
  {
    if !IsCurrent(s, expected) then Refused(ConcurrentMutation)
    else if next.None? then Refused(InvalidPhase)
    else if !HasAuthority(s, expected) then Refused(ConcurrentMutation)
    else Applied(s.(version := s.version + 1, children := s.children[expected.plan.id := next.value]),
                 ChildIs(next.value))
  }

  /** The same for a command that abandons the attempt: the reservation must still stand. */
  function Abandon(s: State, expected: Child, next: Option<Child>): (o: Outcome)
  {
    if Replace(s, expected, next).Applied? && !IsReserved(s, expected) then Refused(InputMismatch)
    else Replace(s, expected, next)
  }

  // ---------------------------------------------------------------- commands

  function Fresh(plan: Plan, deadline: nat): (c: Child)
  {
    Child(plan, Uploading, deadline, 0, 0, 0, 0, 0, 0, false, None, None)
  }

  /** Admission of the first attempt, or of a successor whose predecessor is durably cleaned. */
  predicate Admits(s: State, plan: Plan) {
    if plan.logical !in s.parents then
      plan.attempt == 0 && plan.logical !in s.children
    else
      var previous := s.parents[plan.logical];
      && previous.payload == plan.payload
      && previous.path == plan.path
      && previous.result.None?
      && plan.attempt == previous.attempt + 1
      && previous.child in s.children
      && var child := s.children[previous.child];
      && Matches(previous, child)
      && child.phase == Cleaned
      && child.result.None?
      && IsReserved(s, child)
  }

  function BeginPublish(s: State, plan: Plan, deadline: nat): (o: Outcome)
  {
    if plan.epoch != s.epoch then Refused(EpochMismatch)
    else if !PlanFits(plan) then Refused(InputMismatch)
    else if plan.id in s.children then
      // the identity was admitted before: replay it, changing nothing
      var child := s.children[plan.id];
      if child.plan != plan || plan.logical !in s.parents then Refused(InputMismatch)
      else if !Matches(s.parents[plan.logical], child) || s.parents[plan.logical].result != child.result
      then Refused(InputMismatch)
      else Applied(s, ChildIs(child))
    else if deadline <= s.lease then Refused(Deadline)
    else if plan.revision in s.claims then Refused(ClaimHeld)
    else if plan.id in s.parents || !Admits(s, plan) || plan.revision in s.bodies then Refused(InputMismatch)
    else
      var parent := Parent(plan.logical, plan.payload, plan.path, plan.attempt, plan.id, plan.revision, None);
      Applied(s.(version := s.version + 1,
                 parents := s.parents[plan.logical := parent],
                 children := s.children[plan.id := Fresh(plan, deadline)],
                 claims := s.claims[plan.revision := plan.id]),
              ChildIs(Fresh(plan, deadline)))
  }

  /** `validate_publish_claim`: the generation a claim gives its path, if the path still allows it. */
  function NextGeneration(s: State, plan: Plan): (g: Option<nat>)
  {
    match plan.claim
    case CreateOnly => if plan.path in s.paths then None else Some(1)
    case Append(expected, base) =>
      if plan.path in s.paths && s.paths[plan.path] == Entry(expected, base) then Some(expected + 1) else None
  }

  /** The one command that makes an append visible: attempt, parent, path head, body, claim and change
      log move together. */
  function FinalizePublish(s: State, c: Child): (o: Outcome)
  {
    if c.phase != Finalizing then Refused(InvalidPhase)
    else if !IsCurrent(s, c) then Refused(ConcurrentMutation)
    else if !SizeSealed(c.plan.objects, c.plan.rows, c.plan.body) then Refused(InputMismatch)
    else if NextGeneration(s, c.plan).None? then Refused(PathConflict)
    else if c.plan.revision in s.bodies then Refused(RevisionExists)
    else if !HasAuthority(s, c) then Refused(InputMismatch)
    else
      var receipt := Receipt(NextGeneration(s, c.plan).value, s.workspace + 1, c.plan.body);
      var done := c.(phase := Published, result := Some(receipt));
      var released := if c.plan.revision in s.claims && s.claims[c.plan.revision] == c.plan.id
                      then s.claims - {c.plan.revision} else s.claims;
      Applied(s.(version := s.version + 1, workspace := s.workspace + 1,
                 parents := s.parents[c.plan.logical := s.parents[c.plan.logical].(result := Some(receipt))],
                 children := s.children[c.plan.id := done],
                 paths := s.paths[c.plan.path := Entry(receipt.generation, c.plan.revision)],
                 bodies := s.bodies[c.plan.revision := c.plan.body],
                 claims := released,
                 log := s.log + [ArtifactPublished(c.plan.logical, c.plan.id, c.plan.path, c.plan.payload, receipt)]),
              ChildIs(done))
  }

  /** An orphan may be taken over at once by a newer owner, and by its own owner only once the durable
      lease clock has passed its deadline. */
  function TakeOverOrphan(s: State, c: Child, skew: nat, failure: Failure): (o: Outcome)
  {
    if !IsCurrent(s, c) then Refused(ConcurrentMutation)
    else if s.epoch < c.plan.epoch then Refused(EpochMismatch)
    else if s.epoch == c.plan.epoch && s.lease < c.deadline + skew then Refused(Deadline)
    else Abandon(s, c, if c.phase == Uploading then Apply(c, BeginAbort(failure)) else TakeOverFinalization(c, failure))
  }

  /** The path conflict that ends a Finalizing attempt must be real. */
  function FailAppendConflict(s: State, c: Child): (o: Outcome)
  {
    if c.phase != Finalizing then Refused(InvalidPhase)
    else if !IsCurrent(s, c) || NextGeneration(s, c.plan).Some? then Refused(ConcurrentMutation)
    else Abandon(s, c, TakeOverFinalization(c, Failure(3, None)))
  }

  /** Accepts one exact quarantined state for another cleanup round. */
  function RetryAppendCleanup(s: State, logical: Id, token: Token): (o: Outcome)
  {
    if logical !in s.parents then Refused(InputMismatch)
    else
      var parent := s.parents[logical];
      if parent.child !in s.children then Refused(InputMismatch)
      else
        var child := s.children[parent.child];
        if !Matches(parent, child) || parent.result.Some? || Token(parent, child) != token
        then Refused(ConcurrentMutation)
        else if child.failure.None? || RetryCleanup(child).None? then Refused(InvalidPhase)
        else
          var next := RetryCleanup(child).value;
          match Abandon(s, child, Some(next))
          case Refused(why) => Refused(why)
          case Applied(t, _) =>
            var receipt := CleanupReceipt(logical, child.plan.id, token, next.retries, child.failure.value);
            Applied(t, CleanupAccepted(receipt))
  }

  function RemovePath(s: State, path: Path, expected: nat): (o: Outcome)
  {
    if path !in s.paths || s.paths[path].generation != expected then Refused(PathConflict)
    else Applied(s.(version := s.version + 1, workspace := s.workspace + 1,
                    paths := s.paths - {path}, log := s.log + [ArtifactRemoved(path)]),
                 PathRemoved(s.paths[path].revision))
  }

  function Execute(s: State, cmd: Command): (o: Outcome)
  {
    match cmd
    case Begin(plan, deadline) => BeginPublish(s, plan, deadline)
    case StageObjects(c, n) =>
      if c.phase == Uploading && BatchFits(n, c.staged, c.plan.objects)
      then Replace(s, c, Some(c.(staged := c.staged + n))) else Refused(InvalidBatch)
    case MarkUploaded(c, n) =>
      if c.phase == Uploading && BatchFits(n, c.uploaded, c.staged)
      then Replace(s, c, Some(c.(uploaded := c.uploaded + n))) else Refused(InvalidBatch)
    case StageManifest(c, n) =>
      if c.phase == Uploading && c.staged == c.plan.objects && c.uploaded == c.plan.objects
         && BatchFits(n, c.listed, c.plan.rows)
      then Replace(s, c, Some(c.(listed := c.listed + n))) else Refused(InvalidBatch)
    case Heartbeat(c, until) =>
      if c.plan.epoch != s.epoch then Refused(EpochMismatch)
      else if c.phase != Uploading && c.phase != Finalizing then Refused(InvalidPhase)
      else if until <= c.deadline || until <= s.lease then Refused(Deadline)
      else Replace(s, c, Some(c.(deadline := until)))
    case Transit(c, t) =>
      if t.Publish? then Refused(FinalizationRequired)
      else if t.BeginFinalization? then Replace(s, c, Apply(c, t))
      else Abandon(s, c, Apply(c, t))
    case TakeOver(c, skew, failure) => TakeOverOrphan(s, c, skew, failure)
    case FailConflict(c) => FailAppendConflict(s, c)
    case CleanObjects(c, n) =>
      if c.phase == Cleaning && BatchFits(n, c.cleanedObjects, c.staged)
      then Abandon(s, c, Some(c.(cleanedObjects := c.cleanedObjects + n))) else Refused(InvalidBatch)
    case CleanRows(c, n) =>
      if c.phase == Cleaning && c.cleanedObjects == c.staged && BatchFits(n, c.cleanedRows, c.listed)
      then Abandon(s, c, Some(c.(cleanedRows := c.cleanedRows + n))) else Refused(InvalidBatch)
    case Finalize(c) => FinalizePublish(s, c)
    case Retry(logical, token) => RetryAppendCleanup(s, logical, token)
    case Remove(path, expected) => RemovePath(s, path, expected)
  }

  // ---------------------------------------------------------------- requests and runs

  /** What a caller hears. */
  datatype Reply = Done(version: nat, result: Result, replayed: bool) | Error(why: Refusal)

  /** The 128-bit request identity of a cleanup retry, derived from the append and the exact token.
      Nothing below relies on it being free of collisions. */
  type Derive = (Id, Token) -> Id

  /** A request identity is answered from its recorded result once it has one. */
  function Answer(s: State, request: Id, cmd: Command): (r: Reply)
    requires request in s.recorded
  {
    var found := s.recorded[request];
    if cmd.Retry? then
      if found.result.CleanupAccepted? && found.result.receipt.logical == cmd.logical
         && found.result.receipt.token == cmd.token
      then Done(found.version, found.result, true)
      else Error(InputMismatch)
    else if found.command == cmd then Done(found.version, found.result, true)
    else Error(RequestIdReused)
  }

  function Submit(s: State, request: Id, cmd: Command): (r: (State, Reply))
  {
    if cmd.Retry? && cmd.logical !in s.parents then (s, Error(InputMismatch))
    else if request in s.recorded then (s, Answer(s, request, cmd))
    else
      match Execute(s, cmd)
      case Refused(why) => (s, Error(why))
      case Applied(t, result) =>
        if t.version == s.version then (t, Done(s.version, result, true))
        else (t.(recorded := t.recorded[request := Recorded(cmd, t.version, result)]),
              Done(t.version, result, false))
  }

  /** A client's command under a request identity of its choosing, an owner change, or an observation
      of the lease clock. */
  datatype Step = Send(request: Id, command: Command) | NewOwner | Observe(now: nat)

  function RequestOf(derive: Derive, request: Id, cmd: Command): (id: Id)
  {
    if cmd.Retry? then derive(cmd.logical, cmd.token) else request
  }

  function Next(derive: Derive, s: State, step: Step): (t: State)
  {
    match step
    case Send(request, cmd) => Submit(s, RequestOf(derive, request, cmd), cmd).0
    case NewOwner => s.(epoch := s.epoch + 1)
    case Observe(now) => if now > s.lease then s.(lease := now) else s
  }

  function Run(derive: Derive, s: State, steps: seq<Step>): (t: State)
  {
    if steps == [] then s else Next(derive, Run(derive, s, steps[..|steps| - 1]), steps[|steps| - 1])
  }

  /** A state some run of the service leads to. */
  ghost predicate Reachable(derive: Derive, s: State) {
    exists steps :: s == Run(derive, Initial, steps)
  }

  /** A state the service may come to after `s`. */
  ghost predicate Later(derive: Derive, s: State, t: State) {
    exists steps :: t == Run(derive, s, steps)
  }
}
