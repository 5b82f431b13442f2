/** The loop of `append_artifact_idempotent` against a service other clients, crashes and owner changes act
    on at any time, and whose replies may be lost. */
module AppendSubmission {
  import opened Optional
  import opened AppendRecords
  import opened AppendLedger
  import opened AppendInvariant
  import opened AppendTheorems
  import opened AppendClient

  /** An attempt this call submitted, and the status it had seen: none for an unknown append. */
  datatype Submission = Submission(seen: Option<Status>, attempt: nat)

  /** The status showed that no earlier attempt can still publish. */
  ghost predicate Authorized(sub: Submission, intent: Intent) {
    match sub.seen
    case None => sub.attempt == 0
    case Some(status) =>
      && status.phase == Cleaned && status.parent.result.None?
      && sub.attempt == status.parent.attempt + 1
      && intent == Intent(status.parent.payload, status.parent.path)
  }

  /** `now` continues `before` by `n` submissions, all of them authorized. */
  ghost predicate AuthorizedSince(before: seq<Submission>, now: seq<Submission>, n: nat, intent: Intent) {
    && before <= now && |now| == |before| + n
    && (forall i :: |before| <= i < |now| ==> Authorized(now[i], intent))
  }

  lemma AuthorizedStep(before: seq<Submission>, now: seq<Submission>, n: nat, intent: Intent, sub: Submission)
    requires AuthorizedSince(before, now, n, intent) && Authorized(sub, intent)
    ensures AuthorizedSince(before, now + [sub], n + 1, intent)
  {
  }

  /** What the append looks like in state `s`. */
  ghost predicate Observes(s: State, op: Id, seen: Option<Status>) {
    match seen
    case None => op !in s.parents
    case Some(status) =>
      && op in s.parents && s.parents[op].child in s.children
      && status == Status(s.parents[op], s.children[s.parents[op].child].phase)
  }

  /** The append has its receipt in state `s`, for this intent, and this is it. */
  ghost predicate HasResult(s: State, op: Id, intent: Intent, result: AppendResult) {
    && op in s.parents && s.parents[op].result.Some?
    && intent == Intent(s.parents[op].payload, s.parents[op].path)
    && result == ResultOf(s.parents[op])
  }

  class Service {
    const ids: Identities
    const derive: Derive
    var state: State
    ghost var sent: seq<Submission>

    ghost predicate Valid()
      reads this
    {
      Served(ids, derive, state)
    }

    constructor (ids: Identities, derive: Derive)
      ensures this.ids == ids && this.derive == derive && Valid() && state == Initial && sent == []
    {
      this.ids, this.derive, state, sent := ids, derive, Initial, [];
      new;
      assert state == ServeAll(ids, derive, Initial, []);
    }

    /** Whatever else happens to the service meanwhile. */
    method Meanwhile()
      requires Valid()
      modifies this`state
      ensures Valid() && ServedLater(ids, derive, old(state), state)
    {
      var steps: seq<Step> := *;
      ghost var before := state;
      state := ServeAll(ids, derive, state, steps);
      LaterBy(ids, derive, before, steps);
      ServedThenServed(ids, derive, before, state);
    }

    /** `observe_append`: the status as it is now, or no answer. */
    method Observe(op: Id) returns (answer: Option<Option<Status>>)
      requires Valid()
      modifies this`state
      ensures Valid() && ServedLater(ids, derive, old(state), state)
      ensures answer.Some? ==> Observes(state, op, answer.value)
    {
      Meanwhile();
      ServedIsReachable(ids, derive, state);
      LookupAgrees(state, op);
      var lost: bool := *;
      var found := GetOperation(state, op);
      if lost {
        return None;
      }
      match found {
        case Found(status) =>
          assert ParentOk(state, op);
          return Some(Some(status));
        case Absent => return Some(None);
        case _ => return None;
      }
    }

    /** `append_artifact_attempt`: the commands of one numbered attempt, among those of everyone else. The
        caller may hear that its attempt has published. */
    method Attempt(op: Id, intent: Intent, attempt: nat, ghost seen: Option<Status>)
      returns (heard: Option<AppendResult>)
      requires Valid()
      modifies this
      ensures Valid() && ServedLater(ids, derive, old(state), state)
      ensures sent == old(sent) + [Submission(seen, attempt)]
      ensures heard.Some? ==> HasResult(state, op, intent, heard.value)
    {
      sent := sent + [Submission(seen, attempt)];
      Meanwhile();
      var lost: bool := *;
      var id := ids(op, attempt).0;
      heard := None;
      if !lost && id in state.children {
        var plan := state.children[id].plan;
        if state.children[id].phase == Published && plan.logical == op && plan.attempt == attempt
           && Intent(plan.payload, plan.path) == intent
        {
          PublishedAttempt(ids, derive, state, op, id);
          heard := Some(AppendResult(op, id, ids(op, attempt).1, intent.path, state.children[id].result.value));
        }
      }
    }
  }

  lemma PublishedAttempt(ids: Identities, derive: Derive, s: State, op: Id, id: Id)
    requires Served(ids, derive, s) && id in s.children && s.children[id].plan.logical == op
    requires s.children[id].phase == Published
    ensures op in s.parents && s.parents[op].result.Some? && s.parents[op].result == s.children[id].result
    ensures s.parents[op].child == id && s.parents[op].logical == op
    ensures s.parents[op].attempt == s.children[id].plan.attempt
    ensures s.parents[op].payload == s.children[id].plan.payload && s.parents[op].path == s.children[id].plan.path
    ensures (s.parents[op].child, s.parents[op].revision) == ids(op, s.parents[op].attempt)
  {
    ServedIsReachable(ids, derive, s);
    assert ChildOk(s, id);
    assert ParentOk(s, op);
    ParentIdentities(ids, derive, s, op);
  }

  /** What the loop learns from a status that is true now. */
  lemma SeenIsTrue(ids: Identities, derive: Derive, s: State, op: Id, status: Status, intent: Intent)
    requires Served(ids, derive, s) && Observes(s, op, Some(status))
    ensures status.parent.logical == op
    ensures SameIntent(ids, status.parent, op, intent) <==> intent == Intent(status.parent.payload, status.parent.path)
    ensures Recover(status) == Committed <==> status.parent.result.Some?
    ensures Recover(status) != Contradictory
  {
    ServedIsReachable(ids, derive, s);
    assert ParentOk(s, op);
    ParentIdentities(ids, derive, s, op);
    ParentHasItsAttempt(derive, s, op);
  }

  lemma ReceiptKept(ids: Identities, derive: Derive, s: State, t: State, op: Id)
    requires Served(ids, derive, s) && ServedLater(ids, derive, s, t) && op in s.parents && s.parents[op].result.Some?
    ensures op in t.parents && t.parents[op] == s.parents[op]
  {
    ServedIsReachable(ids, derive, s);
    ServedLaterIsLater(ids, derive, s, t);
    ReceiptsAreStable(derive, s, t);
  }

  datatype Outcome = Appended(result: AppendResult) | Mismatched | Unresolved

  /** What one look at the status decides: an outcome, the number of the attempt to submit, or neither, in
      which case the attempt is pending. */
  datatype Verdict = Ends(outcome: Outcome) | Submit(attempt: nat) | Wait

  method Judge(svc: Service, op: Id, intent: Intent, observed: Option<Status>) returns (v: Verdict)
    requires svc.Valid() && Observes(svc.state, op, observed)
    ensures v.Ends? && v.outcome.Appended? ==> HasResult(svc.state, op, intent, v.outcome.result)
    ensures v.Ends? && v.outcome.Mismatched? <==>
              observed.Some? && intent != Intent(svc.state.parents[op].payload, svc.state.parents[op].path)
    ensures v.Submit? ==> Authorized(Submission(observed, v.attempt), intent)
    ensures observed.Some? && svc.state.parents[op].result.Some? ==>
              v == Ends(if intent == Intent(svc.state.parents[op].payload, svc.state.parents[op].path)
                        then Appended(ResultOf(svc.state.parents[op])) else Mismatched)
  {
    if observed.None? {
      return Submit(0);
    }
    var status := observed.value;
    SeenIsTrue(svc.ids, svc.derive, svc.state, op, status, intent);
    if !SameIntent(svc.ids, status.parent, op, intent) {
      return Ends(Mismatched);
    }
    match Recover(status) {
      case Committed => return Ends(Appended(ResultOf(status.parent)));
      case ReadyToRetry => return Submit(status.parent.attempt + 1);
      case Pending => return Wait;
      case InQuarantine => return Ends(Unresolved);
    }
  }

  const APPEND_CLEANUP_POLLS := 12

  /** Polls until the failed attempt is no longer pending, or the polls are used up. */
  method PollCleanup(svc: Service, op: Id, intent: Intent, first: Status)
    returns (last: Option<Status>, ends: Option<Outcome>)
    requires svc.Valid() && Observes(svc.state, op, Some(first))
    modifies svc`state
    ensures svc.Valid() && ServedLater(svc.ids, svc.derive, old(svc.state), svc.state)
    ensures ends.None? ==> last.Some? && Observes(svc.state, op, last)
    ensures ends.Some? ==> !ends.value.Appended?
    ensures ends == Some(Mismatched) ==>
              op in svc.state.parents && intent != Intent(svc.state.parents[op].payload, svc.state.parents[op].path)
  {
    LaterNow(svc.ids, svc.derive, svc.state);
    var status := first;
    var polls := 0;
    while polls < APPEND_CLEANUP_POLLS
      invariant svc.Valid() && ServedLater(svc.ids, svc.derive, old(svc.state), svc.state)
      invariant Observes(svc.state, op, Some(status))
    {
      SeenIsTrue(svc.ids, svc.derive, svc.state, op, status, intent);
      if !SameIntent(svc.ids, status.parent, op, intent) {
        return None, Some(Mismatched);
      }
      if Recover(status) != Pending {
        break;
      }
      ghost var before := svc.state;
      var answer := svc.Observe(op);
      LaterThenLater(svc.ids, svc.derive, old(svc.state), before, svc.state);
      if answer.None? || answer.value.None? {
        return None, Some(Unresolved);
      }
      status := answer.value.value;
      polls := polls + 1;
    }
    return Some(status), None;
  }

  /** One submission and what is seen after it: an outcome, or the status to go on with. */
  method SubmitOnce(svc: Service, op: Id, intent: Intent, attempt: nat, ghost seen: Option<Status>, mayRetry: bool)
    returns (observed: Option<Status>, ends: Option<Outcome>)
    requires svc.Valid()
    modifies svc
    ensures svc.Valid() && ServedLater(svc.ids, svc.derive, old(svc.state), svc.state)
    ensures svc.sent == old(svc.sent) + [Submission(seen, attempt)]
    ensures ends.None? ==> Observes(svc.state, op, observed)
    ensures ends.Some? && ends.value.Appended? ==> HasResult(svc.state, op, intent, ends.value.result)
    ensures ends == Some(Mismatched) ==>
              op in svc.state.parents && intent != Intent(svc.state.parents[op].payload, svc.state.parents[op].path)
  {
    var heard := svc.Attempt(op, intent, attempt, seen);
    if heard.Some? {
      return None, Some(Appended(heard.value));
    }
    // a lost reply is resolved by looking before the failure is classified
    ghost var submitted := svc.state;
    var answer := svc.Observe(op);
    LaterThenLater(svc.ids, svc.derive, old(svc.state), submitted, svc.state);
    if answer.None? {
      return None, Some(Unresolved);
    }
    if answer.value.None? {
      var conflict: bool := *;
      return None, if conflict && mayRetry then None else Some(Unresolved);
    }
    ghost var looked := svc.state;
    observed, ends := PollCleanup(svc, op, intent, answer.value.value);
    LaterThenLater(svc.ids, svc.derive, old(svc.state), looked, svc.state);
  }

  /** Whatever happens meanwhile, a reported result is the append's one durable receipt, for this intent.
      A committed append is answered with its first receipt, and another intent refused, without a
      submission. Every submission was authorized by a status that showed no attempt left to publish, and
      there are at most `maxAttempts`. */
  method AppendIdempotent(svc: Service, op: Id, intent: Intent, maxAttempts: nat, waits: bool)
    returns (outcome: Outcome)
    requires svc.Valid()
    modifies svc
    ensures svc.Valid() && ServedLater(svc.ids, svc.derive, old(svc.state), svc.state)
    ensures outcome.Appended? ==> HasResult(svc.state, op, intent, outcome.result)
    ensures outcome.Mismatched? ==>
              op in svc.state.parents && intent != Intent(svc.state.parents[op].payload, svc.state.parents[op].path)
    ensures op in old(svc.state.parents) && old(svc.state.parents)[op].result.Some? ==>
              var p := old(svc.state.parents)[op];
              && svc.sent == old(svc.sent)
              && outcome in {Unresolved,
                             if intent == Intent(p.payload, p.path) then Appended(ResultOf(p)) else Mismatched}
    ensures exists n: nat :: n <= maxAttempts && AuthorizedSince(old(svc.sent), svc.sent, n, intent)
  {
    ghost var start := svc.state;
    var answer := svc.Observe(op);
    assert AuthorizedSince(old(svc.sent), svc.sent, 0, intent);
    if answer.None? {
      return Unresolved;
    }
    var observed := answer.value;
    var submissions, rounds := 0, 1;
    while true
      invariant svc.Valid() && ServedLater(svc.ids, svc.derive, start, svc.state)
      invariant Observes(svc.state, op, observed)
      invariant op in start.parents && start.parents[op].result.Some? ==> svc.sent == old(svc.sent)
      invariant submissions <= maxAttempts && AuthorizedSince(old(svc.sent), svc.sent, submissions, intent)
      decreases maxAttempts - submissions, maxAttempts - rounds
    {
      if op in start.parents && start.parents[op].result.Some? {
        ReceiptKept(svc.ids, svc.derive, start, svc.state, op);
      }
      var verdict := Judge(svc, op, intent, observed);
      if verdict.Ends? {
        return verdict.outcome;
      }
      ghost var before := svc.state;
      if verdict.Wait? {
        if rounds >= maxAttempts || !waits {
          return Unresolved;
        }
        rounds := rounds + 1;
        answer := svc.Observe(op);
        LaterThenLater(svc.ids, svc.derive, start, before, svc.state);
        if answer.None? {
          return Unresolved;
        }
        observed := answer.value;
        continue;
      }
      if submissions >= maxAttempts {
        return Unresolved;
      }
      AuthorizedStep(old(svc.sent), svc.sent, submissions, intent, Submission(observed, verdict.attempt));
      submissions := submissions + 1;
      var ends;
      observed, ends := SubmitOnce(svc, op, intent, verdict.attempt, observed, submissions < maxAttempts);
      LaterThenLater(svc.ids, svc.derive, start, before, svc.state);
      if ends.Some? {
        return ends.value;
      }
    }
  }
}
