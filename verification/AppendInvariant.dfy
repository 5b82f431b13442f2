/** What every step of the append ledger keeps. */
module AppendInvariant {
  import opened Optional
  import opened AppendRecords
  import opened AppendLedger

  // ---------------------------------------------------------------- the invariant

  /** Every attempt belongs to its parent: the current one is named by it, all earlier ones are cleaned. */
  ghost predicate ChildOk(s: State, id: Id)
    requires id in s.children
  {
    var c := s.children[id];
    && c.plan.id == id
    && Valid(c)
    && c.plan.logical in s.parents
    && var p := s.parents[c.plan.logical];
    && c.plan.payload == p.payload
    && c.plan.path == p.path
    && c.plan.attempt <= p.attempt
    && (c.plan.attempt == p.attempt <==> p.child == id)
    && (c.plan.attempt < p.attempt ==> c.phase == Cleaned)
  }

  /** A parent always has its current attempt, and has its receipt exactly when that attempt published. */
  ghost predicate ParentOk(s: State, op: Id)
    requires op in s.parents
  {
    var p := s.parents[op];
    && p.logical == op
    && op !in s.children
    && p.child in s.children
    && Matches(p, s.children[p.child])
    && p.result == s.children[p.child].result
  }

  /** An attempt owns its revision until it publishes, and for good if it never does. */
  ghost predicate RevisionOk(s: State, id: Id)
    requires id in s.children
  {
    var c := s.children[id];
    if c.phase == Published
    then c.plan.revision in s.bodies && s.bodies[c.plan.revision] == c.plan.body
    else IsReserved(s, c)
  }

  ghost predicate ChildrenOk(s: State) {
    forall id :: id in s.children ==> ChildOk(s, id)
  }

  ghost predicate ParentsOk(s: State) {
    forall op :: op in s.parents ==> ParentOk(s, op)
  }

  ghost predicate RevisionsOk(s: State) {
    forall id :: id in s.children ==> RevisionOk(s, id)
  }

  ghost predicate RecordsOk(s: State) {
    ChildrenOk(s) && ParentsOk(s) && RevisionsOk(s)
  }

  ghost predicate RevisionsDistinct(s: State) {
    forall i, j :: i in s.children && j in s.children && i != j
                   ==> s.children[i].plan.revision != s.children[j].plan.revision
  }

  /** A published event names its parent's receipt. */
  ghost predicate EventOk(s: State, e: Event) {
    e.ArtifactPublished? ==>
      && e.logical in s.parents
      && var p := s.parents[e.logical];
      && p.result == Some(e.receipt)
      && p.child == e.child
      && p.path == e.path
      && p.payload == e.payload
  }

  ghost predicate EventsOk(s: State) {
    forall i :: 0 <= i < |s.log| ==> EventOk(s, s.log[i])
  }

  ghost predicate EventsDistinct(log: seq<Event>) {
    forall i, j :: 0 <= i < j < |log| && log[i].ArtifactPublished? && log[j].ArtifactPublished?
                   ==> log[i].logical != log[j].logical
  }

  ghost predicate ReceiptsLogged(s: State) {
    forall op :: op in s.parents && s.parents[op].result.Some? ==> InLog(s.log, op)
  }

  /** The change log holds one publication per committed append, and no other. */
  ghost predicate LogOk(s: State) {
    EventsOk(s) && EventsDistinct(s.log) && ReceiptsLogged(s)
  }

  ghost predicate InLog(log: seq<Event>, op: Id) {
    exists i :: 0 <= i < |log| && log[i].ArtifactPublished? && log[i].logical == op
  }

  /** The publications on a path since it was last removed, oldest first. */
  ghost function Segment(log: seq<Event>, path: Path): (events: seq<Event>)
    ensures forall i :: 0 <= i < |events| ==> events[i].ArtifactPublished?
  {
    if log == [] then []
    else
      var before := Segment(log[..|log| - 1], path);
      var last := log[|log| - 1];
      if last.path != path then before
      else if last.ArtifactRemoved? then []
      else before + [last]
  }

  ghost function Payloads(events: seq<Event>): (body: Body)
    requires forall i :: 0 <= i < |events| ==> events[i].ArtifactPublished?
  {
    if events == [] then [] else Payloads(events[..|events| - 1]) + events[|events| - 1].payload
  }

  /** A path's head is the newest publication of its segment, and generations count from one. */
  ghost predicate PathOk(s: State, path: Path) {
    var events := Segment(s.log, path);
    && (path in s.paths <==> events != [])
    && (forall i :: 0 <= i < |events| ==> events[i].receipt.generation == i + 1)
    && (events != [] ==>
          && s.paths[path].generation == |events|
          && s.paths[path].revision in s.bodies
          && s.bodies[s.paths[path].revision] == events[|events| - 1].receipt.body)
  }

  ghost predicate PathsOk(s: State) {
    forall path: Path :: PathOk(s, path)
  }

  /** The exact states of attempt `child` that were accepted for another cleanup round. */
  ghost function Accepted(recorded: map<Id, Recorded>, child: Id): (tokens: set<Token>)
  {
    set r | r in recorded.Values && r.result.CleanupAccepted? && r.result.receipt.child == child
      :: r.result.receipt.token
  }

  ghost predicate RoundOk(s: State, r: Recorded) {
    r.result.CleanupAccepted? ==>
      var receipt := r.result.receipt;
      && receipt.child in s.children
      && receipt.token.child.plan.id == receipt.child
      && receipt.token.parent.logical == receipt.logical
      && receipt.token.child.phase == Quarantined
      && receipt.count == receipt.token.child.retries + 1
      && receipt.count <= s.children[receipt.child].retries
      && r.command == Retry(receipt.logical, receipt.token)
  }

  /** Every recorded round names a state the attempt has left behind. */
  ghost predicate RoundsOk(s: State) {
    forall q :: q in s.recorded ==> RoundOk(s, s.recorded[q])
  }

  /** An attempt's retry counter is the number of distinct states accepted for it. */
  ghost predicate CountsOk(s: State) {
    forall id :: |Accepted(s.recorded, id)| == if id in s.children then s.children[id].retries else 0
  }

  ghost predicate TokensOk(s: State) {
    RoundsOk(s) && CountsOk(s)
  }

  ghost predicate Inv(s: State) {
    RecordsOk(s) && RevisionsDistinct(s) && LogOk(s) && PathsOk(s) && TokensOk(s)
  }

  // ---------------------------------------------------------------- the kinds of step

  /** One attempt moved forward; nothing else but the version changed. */
  ghost predicate Moved(s: State, t: State, c: Child, d: Child) {
    && IsCurrent(s, c) && HasAuthority(s, c)
    && Valid(d) && Forward(c, d)
    && t == s.(version := s.version + 1, children := s.children[c.plan.id := d])
  }

  /** A first or successor attempt was admitted. */
  ghost predicate Admitted(s: State, t: State, plan: Plan, deadline: nat) {
    && plan.id !in s.children && plan.id !in s.parents && PlanFits(plan)
    && plan.revision !in s.claims && plan.revision !in s.bodies
    && deadline > 0
    && Admits(s, plan)
    && t == s.(version := s.version + 1,
               parents := s.parents[plan.logical :=
                 Parent(plan.logical, plan.payload, plan.path, plan.attempt, plan.id, plan.revision, None)],
               children := s.children[plan.id := Fresh(plan, deadline)],
               claims := s.claims[plan.revision := plan.id])
  }

  /** The receipt an attempt gets when it publishes now. */
  ghost function ReceiptFor(s: State, c: Child): (r: Receipt)
    requires NextGeneration(s, c.plan).Some?
  {
    Receipt(NextGeneration(s, c.plan).value, s.workspace + 1, c.plan.body)
  }

  /** The attempt, its parent, the path, the body and the log moved together. */
  ghost predicate Committed(s: State, t: State, c: Child) {
    && c.phase == Finalizing && IsCurrent(s, c) && HasAuthority(s, c)
    && NextGeneration(s, c.plan).Some? && c.plan.revision !in s.bodies
    && var receipt := ReceiptFor(s, c);
    && t.parents == s.parents[c.plan.logical := s.parents[c.plan.logical].(result := Some(receipt))]
    && t.children == s.children[c.plan.id := c.(phase := Published, result := Some(receipt))]
    && t.paths == s.paths[c.plan.path := Entry(receipt.generation, c.plan.revision)]
    && t.bodies == s.bodies[c.plan.revision := c.plan.body]
    && t.claims == (if c.plan.revision in s.claims && s.claims[c.plan.revision] == c.plan.id
                    then s.claims - {c.plan.revision} else s.claims)
    && t.log == s.log + [ArtifactPublished(c.plan.logical, c.plan.id, c.plan.path, c.plan.payload, receipt)]
    && t.recorded == s.recorded && t.version == s.version + 1 && t.workspace == s.workspace + 1
    && t.epoch == s.epoch && t.lease == s.lease
  }

  ghost predicate Unlinked(s: State, t: State, path: Path, generation: nat) {
    RemovePath(s, path, generation).Applied? && t == RemovePath(s, path, generation).state
  }

  /** Commands that move one attempt. */
  ghost predicate IsMove(cmd: Command) {
    !cmd.Begin? && !cmd.Finalize? && !cmd.Remove?
  }

  /** The attempt such a command names. */
  ghost function Before(cmd: Command): (c: Child)
    requires IsMove(cmd)
  {
    if cmd.Retry? then cmd.token.child else cmd.expected
  }

  /** What it becomes. */
  ghost function After(cmd: Command): (d: Option<Child>)
    requires IsMove(cmd)
  {
    match cmd
    case StageObjects(c, n) => Some(c.(staged := c.staged + n))
    case MarkUploaded(c, n) => Some(c.(uploaded := c.uploaded + n))
    case StageManifest(c, n) => Some(c.(listed := c.listed + n))
    case Heartbeat(c, until) => Some(c.(deadline := until))
    case Transit(c, t) => Apply(c, t)
    case TakeOver(c, _, f) => if c.phase == Uploading then Apply(c, BeginAbort(f)) else TakeOverFinalization(c, f)
    case FailConflict(c) => TakeOverFinalization(c, Failure(3, None))
    case CleanObjects(c, n) => Some(c.(cleanedObjects := c.cleanedObjects + n))
    case CleanRows(c, n) => Some(c.(cleanedRows := c.cleanedRows + n))
    case Retry(_, token) => RetryCleanup(token.child)
  }

  /** A move is a compare-and-set of the named attempt. */
  lemma MoveIsReplace(s: State, cmd: Command)
    requires IsMove(cmd) && Execute(s, cmd).Applied?
    ensures After(cmd).Some?
    ensures Replace(s, Before(cmd), After(cmd)).Applied?
    ensures Execute(s, cmd).state == Replace(s, Before(cmd), After(cmd)).state
    ensures !cmd.Retry? ==> Execute(s, cmd).result == ChildIs(After(cmd).value)
  {
  }

  lemma TransitionIsForward(c: Child, t: Transition)
    requires Valid(c) && Apply(c, t).Some? && !t.Publish?
    ensures Valid(Apply(c, t).value) && Forward(c, Apply(c, t).value)
    ensures Apply(c, t).value.retries == c.retries
  {
  }

  lemma TakeOverIsForward(c: Child, f: Failure)
    requires Valid(c) && TakeOverFinalization(c, f).Some?
    ensures Valid(TakeOverFinalization(c, f).value) && Forward(c, TakeOverFinalization(c, f).value)
    ensures TakeOverFinalization(c, f).value.retries == c.retries
  {
  }

  lemma RetryIsForward(c: Child)
    requires Valid(c) && RetryCleanup(c).Some?
    ensures Valid(RetryCleanup(c).value) && Forward(c, RetryCleanup(c).value)
    ensures RetryCleanup(c).value.retries == c.retries + 1
  {
  }

  lemma MoveIsForward(s: State, cmd: Command)
    requires IsMove(cmd) && Execute(s, cmd).Applied? && Valid(Before(cmd)) && After(cmd).Some?
    ensures Valid(After(cmd).value) && Forward(Before(cmd), After(cmd).value)
    ensures After(cmd).value.retries == Before(cmd).retries + (if cmd.Retry? then 1 else 0)
  {
    match cmd {
      case Transit(c, t) => TransitionIsForward(c, t);
      case TakeOver(c, _, f) =>
        if c.phase == Uploading { TransitionIsForward(c, BeginAbort(f)); } else { TakeOverIsForward(c, f); }
      case FailConflict(c) => TakeOverIsForward(c, Failure(3, None));
      case Retry(_, token) => RetryIsForward(token.child);
      case _ => StagingIsForward(s, cmd);
    }
  }

  lemma StagingIsForward(s: State, cmd: Command)
    requires || cmd.StageObjects? || cmd.MarkUploaded? || cmd.StageManifest?
             || cmd.Heartbeat? || cmd.CleanObjects? || cmd.CleanRows?
    requires Execute(s, cmd).Applied? && Valid(Before(cmd))
    ensures Valid(After(cmd).value) && Forward(Before(cmd), After(cmd).value)
    ensures After(cmd).value.retries == Before(cmd).retries
  {
  }

  lemma Moves(s: State, cmd: Command)
    requires RecordsOk(s) && IsMove(cmd) && Execute(s, cmd).Applied?
    ensures After(cmd).Some? && Moved(s, Execute(s, cmd).state, Before(cmd), After(cmd).value)
    ensures After(cmd).value.retries == Before(cmd).retries + (if cmd.Retry? then 1 else 0)
    ensures !cmd.Retry? ==> Execute(s, cmd).result == ChildIs(After(cmd).value)
  {
    MoveIsReplace(s, cmd);
    assert ChildOk(s, Before(cmd).plan.id);
    MoveIsForward(s, cmd);
  }
}
