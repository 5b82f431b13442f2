/** The client of a stable append, `append_artifact_idempotent`, and the request front it talks to: what a
    caller hears who submits the same logical append again. */
module AppendClient {
  import opened Optional
  import opened AppendRecords
  import opened AppendLedger
  import opened AppendInvariant
  import opened AppendPreservation
  import opened AppendTheorems

  // ---------------------------------------------------------------- the request front

  /** `stable_append_attempt_identities`: publication and revision of a numbered attempt. Nothing below
      relies on them being free of collisions. */
  type Identities = (Id, nat) -> (Id, Id)

  predicate OwnIdentities(ids: Identities, plan: Plan) {
    (plan.id, plan.revision) == ids(plan.logical, plan.attempt)
  }

  /** An admission under other identities is refused before anything is durable. */
  predicate Refuses(ids: Identities, step: Step) {
    step.Send? && step.command.Begin? && !OwnIdentities(ids, step.command.plan)
  }

  function Serve(ids: Identities, derive: Derive, s: State, step: Step): (t: State)
  {
    if Refuses(ids, step) then s else Next(derive, s, step)
  }

  function ServeAll(ids: Identities, derive: Derive, s: State, steps: seq<Step>): (t: State)
  {
    if steps == [] then s
    else Serve(ids, derive, ServeAll(ids, derive, s, steps[..|steps| - 1]), steps[|steps| - 1])
  }

  /** A state some run of the service, its front included, leads to. */
  ghost predicate Served(ids: Identities, derive: Derive, s: State) {
    exists steps :: s == ServeAll(ids, derive, Initial, steps)
  }

  /** A state the service may come to after `s`. */
  ghost predicate ServedLater(ids: Identities, derive: Derive, s: State, t: State) {
    exists steps :: t == ServeAll(ids, derive, s, steps)
  }

  lemma {:induction false} ServeAppend(ids: Identities, derive: Derive, s: State, a: seq<Step>, b: seq<Step>)
    ensures ServeAll(ids, derive, s, a + b) == ServeAll(ids, derive, ServeAll(ids, derive, s, a), b)
  {
    if b == [] {
      assert a + b == a;
    } else {
      assert (a + b)[..|a + b| - 1] == a + b[..|b| - 1];
      ServeAppend(ids, derive, s, a, b[..|b| - 1]);
    }
  }

  lemma ServedThenServed(ids: Identities, derive: Derive, s: State, t: State)
    requires Served(ids, derive, s) && ServedLater(ids, derive, s, t)
    ensures Served(ids, derive, t)
  {
    var a :| s == ServeAll(ids, derive, Initial, a);
    var b :| t == ServeAll(ids, derive, s, b);
    ServeAppend(ids, derive, Initial, a, b);
  }

  lemma LaterThenLater(ids: Identities, derive: Derive, s: State, t: State, u: State)
    requires ServedLater(ids, derive, s, t) && ServedLater(ids, derive, t, u)
    ensures ServedLater(ids, derive, s, u)
  {
    var a :| t == ServeAll(ids, derive, s, a);
    var b :| u == ServeAll(ids, derive, t, b);
    ServeAppend(ids, derive, s, a, b);
  }

  lemma LaterBy(ids: Identities, derive: Derive, s: State, steps: seq<Step>)
    ensures ServedLater(ids, derive, s, ServeAll(ids, derive, s, steps))
  {
  }

  lemma LaterNow(ids: Identities, derive: Derive, s: State)
    ensures ServedLater(ids, derive, s, s)
  {
    assert s == ServeAll(ids, derive, s, []);
  }

  /** A run of the service is a run of the ledger: what the front refuses changes nothing. */
  lemma {:induction false} ServedIsRun(ids: Identities, derive: Derive, s: State, steps: seq<Step>)
    returns (more: seq<Step>)
    ensures ServeAll(ids, derive, s, steps) == Run(derive, s, more)
  {
    if steps == [] {
      more := [];
    } else {
      var n := |steps| - 1;
      var before := ServedIsRun(ids, derive, s, steps[..n]);
      if Refuses(ids, steps[n]) {
        more := before;
      } else {
        more := before + [steps[n]];
        assert more[..|more| - 1] == before;
      }
    }
  }

  lemma ServedIsReachable(ids: Identities, derive: Derive, s: State)
    requires Served(ids, derive, s)
    ensures Reachable(derive, s) && Inv(s)
  {
    var steps :| s == ServeAll(ids, derive, Initial, steps);
    var more := ServedIsRun(ids, derive, Initial, steps);
    ReachableInv(derive, s);
  }

  lemma ServedLaterIsLater(ids: Identities, derive: Derive, s: State, t: State)
    requires ServedLater(ids, derive, s, t)
    ensures Later(derive, s, t)
  {
    var steps :| t == ServeAll(ids, derive, s, steps);
    var more := ServedIsRun(ids, derive, s, steps);
  }

  // ---------------------------------------------------------------- identities stay derived

  ghost predicate IdentitiesOk(ids: Identities, s: State) {
    forall id :: id in s.children ==> OwnIdentities(ids, s.children[id].plan)
  }

  lemma ExecutedIdentities(ids: Identities, s: State, cmd: Command, c: Child, d: Child, u: State, r: Result)
    requires IdentitiesOk(ids, s) && Executed(s, cmd, c, d, u, r)
    requires cmd.Begin? ==> OwnIdentities(ids, cmd.plan)
    ensures IdentitiesOk(ids, u)
  {
  }

  lemma ServeIdentities(ids: Identities, derive: Derive, s: State, step: Step)
    requires RecordsOk(s) && IdentitiesOk(ids, s)
    ensures IdentitiesOk(ids, Serve(ids, derive, s, step))
  {
    if step.Send? && !Refuses(ids, step) && Next(derive, s, step) != s {
      var q := RequestOf(derive, step.request, step.command);
      var c, d, u, r := StateChanges(s, q, step.command);
      ExecutedIdentities(ids, s, step.command, c, d, u, r);
    }
  }

  lemma {:induction false} RunIdentities(ids: Identities, derive: Derive, steps: seq<Step>)
    ensures IdentitiesOk(ids, ServeAll(ids, derive, Initial, steps))
  {
    if steps != [] {
      var before := steps[..|steps| - 1];
      RunIdentities(ids, derive, before);
      assert Served(ids, derive, ServeAll(ids, derive, Initial, before));
      ServedIsReachable(ids, derive, ServeAll(ids, derive, Initial, before));
      ServeIdentities(ids, derive, ServeAll(ids, derive, Initial, before), steps[|steps| - 1]);
    }
  }

  /** In every state of the service a parent names the identities its attempt number derives. */
  lemma ParentIdentities(ids: Identities, derive: Derive, s: State, op: Id)
    requires Served(ids, derive, s) && op in s.parents
    ensures (s.parents[op].child, s.parents[op].revision) == ids(op, s.parents[op].attempt)
  {
    var steps :| s == ServeAll(ids, derive, Initial, steps);
    RunIdentities(ids, derive, steps);
    ServedIsReachable(ids, derive, s);
    assert ParentOk(s, op);
    assert OwnIdentities(ids, s.children[s.parents[op].child].plan);
  }

  // ---------------------------------------------------------------- a status query

  /** What `get_operation` reports of a logical append: the parent and the phase of its attempt. */
  datatype Status = Status(parent: Parent, phase: Phase)

  datatype Lookup = Absent | Found(status: Status) | OtherKind | Disagree

  /** The identity is looked up under every kind of operation; parent and attempt must agree. */
  function GetOperation(s: State, op: Id): (answer: Lookup)
  {
    if op in s.parents && op in s.children then Disagree
    else if op in s.children then OtherKind
    else if op !in s.parents then Absent
    else
      var parent := s.parents[op];
      if parent.logical != op || parent.child !in s.children then Disagree
      else
        var child := s.children[parent.child];
        if !Matches(parent, child) || parent.result != child.result
           || (parent.result.Some? != (child.phase == Published))
        then Disagree
        else Found(Status(parent, child.phase))
  }

  datatype Recovery = Committed | Pending | ReadyToRetry | InQuarantine | Contradictory

  /** `append_operation_recovery`. */
  function Recover(status: Status): (r: Recovery)
  {
    if status.phase == Published then (if status.parent.result.Some? then Committed else Contradictory)
    else if status.parent.result.Some? then Contradictory
    else if status.phase == Cleaned then ReadyToRetry
    else if status.phase == Quarantined then InQuarantine
    else Pending
  }

  /** The result a caller is given. */
  datatype AppendResult = AppendResult(logical: Id, child: Id, revision: Id, path: Path, receipt: Receipt)

  function ResultOf(p: Parent): (r: AppendResult)
    requires p.result.Some?
  {
    AppendResult(p.logical, p.child, p.revision, p.path, p.result.value)
  }

  /** The caller's intent: the payload with its options, and the path. */
  datatype Intent = Intent(payload: Body, path: Path)

  /** `validate_append_intent`. */
  predicate SameIntent(ids: Identities, p: Parent, op: Id, intent: Intent) {
    && p.logical == op && p.payload == intent.payload && p.path == intent.path
    && (p.child, p.revision) == ids(op, p.attempt)
  }

  // ---------------------------------------------------------------- submitting an append again

  datatype Decision =
    | Replays(result: AppendResult)
    | Submits(attempt: nat)
    | Waits
    | NeedsCleanup
    | Mismatch
    | Broken

  /** What a submission does once it has looked the append up, and before it sends anything else. */
  function Resubmit(ids: Identities, s: State, op: Id, intent: Intent): (d: Decision)
  {
    match GetOperation(s, op)
    case Absent => Submits(0)
    case OtherKind => Mismatch
    case Disagree => Broken
    case Found(status) =>
      if !SameIntent(ids, status.parent, op, intent) then Mismatch
      else
        match Recover(status)
        case Committed => Replays(ResultOf(status.parent))
        case ReadyToRetry => Submits(status.parent.attempt + 1)
        case Pending => Waits
        case InQuarantine => NeedsCleanup
        case Contradictory => Broken
  }

  lemma LookupAgrees(s: State, op: Id)
    requires Inv(s)
    ensures GetOperation(s, op) ==
            if op in s.parents then Found(Status(s.parents[op], s.children[s.parents[op].child].phase))
            else if op in s.children then OtherKind
            else Absent
  {
    if op in s.parents {
      assert ParentOk(s, op);
      assert ChildOk(s, s.parents[op].child);
    }
  }

  /** What a submission does about an append in phase `phase` with parent `p`. */
  function Decided(p: Parent, phase: Phase, intent: Intent): (d: Decision)
  {
    if intent != Intent(p.payload, p.path) then Mismatch
    else if p.result.Some? then Replays(ResultOf(p))
    else
      match phase
      case Cleaned => Submits(p.attempt + 1)
      case Quarantined => NeedsCleanup
      case _ => Waits
  }

  lemma ResubmitFound(ids: Identities, s: State, op: Id, intent: Intent, p: Parent, phase: Phase)
    requires GetOperation(s, op) == Found(Status(p, phase))
    requires p.logical == op && (p.child, p.revision) == ids(op, p.attempt) && (p.result.Some? <==> phase == Published)
    ensures Resubmit(ids, s, op, intent) == Decided(p, phase, intent)
  {
  }

  /** Every case of a submission: it is refused exactly when the identity is bound to something else,
      replays exactly when there is a receipt, and sends the next attempt exactly when the identity is
      unused or its last attempt is durably cleaned. No lookup is ever contradictory. */
  lemma SubmitsExactlyWhenCleaned(ids: Identities, derive: Derive, s: State, op: Id, intent: Intent)
    requires Served(ids, derive, s)
    ensures op in s.parents ==> s.parents[op].child in s.children
    ensures Resubmit(ids, s, op, intent) ==
            if op in s.parents then Decided(s.parents[op], s.children[s.parents[op].child].phase, intent)
            else if op in s.children then Mismatch
            else Submits(0)
  {
    ServedIsReachable(ids, derive, s);
    LookupAgrees(s, op);
    if op in s.parents {
      ParentIdentities(ids, derive, s, op);
      ParentHasItsAttempt(derive, s, op);
      var p := s.parents[op];
      assert ParentOk(s, op);
      ResubmitFound(ids, s, op, intent, p, s.children[p.child].phase);
    }
  }

  /** Submitting a committed append again, in any later state and whoever owns the service by then: the
      same payload and path get exactly the first receipt, and anything else is refused. */
  lemma ReplayReturnsTheReceipt(ids: Identities, derive: Derive, s: State, t: State, op: Id, intent: Intent)
    requires Served(ids, derive, s) && ServedLater(ids, derive, s, t)
    requires op in s.parents && s.parents[op].result.Some?
    ensures Resubmit(ids, t, op, intent) ==
            if intent == Intent(s.parents[op].payload, s.parents[op].path) then Replays(ResultOf(s.parents[op]))
            else Mismatch
  {
    ServedThenServed(ids, derive, s, t);
    ServedIsReachable(ids, derive, s);
    ServedLaterIsLater(ids, derive, s, t);
    ReceiptsAreStable(derive, s, t);
    SubmitsExactlyWhenCleaned(ids, derive, t, op, intent);
  }

  // ---------------------------------------------------------------- an admission sent again

  /** `begin_artifact_publish`: an attempt that is already stored is answered from its record, before the
      plan, the owner or the path is looked at. */
  function FrontBegin(ids: Identities, s: State, q: Id, plan: Plan, deadline: nat): (r: (State, Reply))
  {
    if !OwnIdentities(ids, plan) then (s, Error(InputMismatch))
    else if q in s.recorded then (s, Answer(s, q, Begin(plan, deadline)))
    else if plan.id in s.children then
      var stored := s.children[plan.id];
      if stored.plan.logical != plan.logical || stored.plan.attempt != plan.attempt
         || stored.plan.payload != plan.payload || stored.plan.path != plan.path
         || stored.plan.revision != plan.revision
      then (s, Error(InputMismatch))
      else if stored.phase == Published then (s, Done(s.version, ChildIs(stored), true))
      else (s, Error(ConcurrentMutation))
    else Submit(s, q, Begin(plan, deadline))
  }

  /** The front serves an admission as the ledger does, and otherwise changes nothing. */
  lemma FrontIsServe(ids: Identities, derive: Derive, s: State, q: Id, plan: Plan, deadline: nat)
    ensures FrontBegin(ids, s, q, plan, deadline).0 == Serve(ids, derive, s, Send(q, Begin(plan, deadline)))
  {
  }

  /** The admission of a committed append, sent again under a new request in any later state: it returns
      the first receipt exactly when attempt number, payload and path are those that committed, whatever
      else is planned and whoever owns the service; otherwise it is refused. Nothing changes. */
  lemma FrontReplaysExactly(
      ids: Identities, derive: Derive, s: State, t: State, q: Id, plan: Plan, deadline: nat)
    requires Served(ids, derive, s) && ServedLater(ids, derive, s, t) && q !in t.recorded
    requires plan.logical in s.parents && s.parents[plan.logical].result.Some?
    ensures var p := s.parents[plan.logical];
            var (after, reply) := FrontBegin(ids, t, q, plan, deadline);
            && after == t
            && (reply.Done? <==> OwnIdentities(ids, plan) && plan.attempt == p.attempt
                                 && plan.payload == p.payload && plan.path == p.path)
            && (reply.Done? ==> reply.result.ChildIs? && reply.result.child.result == p.result)
  {
    ServedThenServed(ids, derive, s, t);
    ServedIsReachable(ids, derive, s);
    ServedIsReachable(ids, derive, t);
    ServedLaterIsLater(ids, derive, s, t);
    ReceiptsAreStable(derive, s, t);
    ParentIdentities(ids, derive, t, plan.logical);
    FrontOfCommitted(ids, t, q, plan, deadline);
  }

  /** What the front answers for the committed attempt `child`, or for another attempt of its append. */
  lemma FrontOfCommitted(ids: Identities, t: State, q: Id, plan: Plan, deadline: nat)
    requires Inv(t) && q !in t.recorded && plan.logical in t.parents && t.parents[plan.logical].result.Some?
    requires (t.parents[plan.logical].child, t.parents[plan.logical].revision)
             == ids(plan.logical, t.parents[plan.logical].attempt)
    ensures var p := t.parents[plan.logical];
            var (after, reply) := FrontBegin(ids, t, q, plan, deadline);
            && after == t
            && (reply.Done? <==> OwnIdentities(ids, plan) && plan.attempt == p.attempt
                                 && plan.payload == p.payload && plan.path == p.path)
            && (reply.Done? ==> reply.result.ChildIs? && reply.result.child.result == p.result)
  {
    CommittedAttempt(t, plan.logical);
    if !OwnIdentities(ids, plan) {
    } else if plan.id in t.children {
      FrontOfStored(ids, t, q, plan, deadline);
      if t.children[plan.id].plan.logical == plan.logical { StoredAttempt(t, plan.id, plan.logical); }
    } else {
      NewAttemptRefused(t, q, plan, deadline);
    }
  }

  lemma FrontOfStored(ids: Identities, t: State, q: Id, plan: Plan, deadline: nat)
    requires OwnIdentities(ids, plan) && q !in t.recorded && plan.id in t.children
    ensures var stored := t.children[plan.id];
            FrontBegin(ids, t, q, plan, deadline) ==
            (t, if (stored.plan.logical, stored.plan.attempt) != (plan.logical, plan.attempt)
                   || (stored.plan.payload, stored.plan.path) != (plan.payload, plan.path)
                   || stored.plan.revision != plan.revision then Error(InputMismatch)
                else if stored.phase == Published then Done(t.version, ChildIs(stored), true)
                else Error(ConcurrentMutation))
  {
  }

  /** Of the attempts of a committed append only its current one is published. */
  lemma StoredAttempt(t: State, id: Id, op: Id)
    requires Inv(t) && id in t.children && op in t.parents && t.children[id].plan.logical == op
    ensures t.children[id].plan.attempt == t.parents[op].attempt <==> id == t.parents[op].child
    ensures t.children[id].phase == Published ==> id == t.parents[op].child
  {
    assert ChildOk(t, id);
  }

  lemma NewAttemptRefused(t: State, q: Id, plan: Plan, deadline: nat)
    requires plan.logical in t.parents && t.parents[plan.logical].result.Some? && plan.id !in t.children
    requires q !in t.recorded
    ensures Submit(t, q, Begin(plan, deadline)).0 == t && Submit(t, q, Begin(plan, deadline)).1.Error?
  {
    assert BeginPublish(t, plan, deadline).Refused?;
  }
}
