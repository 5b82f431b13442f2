/** `recover_same_identity`: finish one append under its own identity against any server and any clock. */
module Recovery {
  import opened Optional

  /** An operation status as far as the loop reads it; `other` says whether it has any other key. */
  datatype Status = Status(
    status: Option<string>, state: Option<string>, nextAction: Option<string>, code: Option<string>,
    receipt: Option<Option<string>>, other: bool)

  /** An append result: its status, and the operation id and next action in its details. */
  datatype Result = Result(status: Option<string>, operation: Option<string>, nextAction: Option<string>)

  /** What the loop did, with the time each call to the server began. */
  datatype Event =
    | Given(status: Status)
    | Queried(status: Status, at: real)
    | Appended(result: Result, at: real)

  datatype Outcome = Recovered | Unresolved | Violation

  /** Only an empty mapping counts as no status at all. */
  predicate IsEmpty(s: Status) {
    s == Status(None, None, None, None, None, false)
  }

  predicate IsCommitted(s: Status) {
    s.state == Some("committed")
  }

  predicate HasReceipt(s: Status, id: string) {
    s.nextAction == Some("none") && s.receipt == Some(Some(id))
  }

  predicate MustWait(s: Status) {
    s.nextAction == Some("poll") || (s.status == Some("error") && s.code != Some("NotFound"))
  }

  /** The status asks for the same append again. */
  predicate MayResubmit(s: Status) {
    s.nextAction == Some("resubmit_same") || s.code == Some("NotFound")
  }

  predicate Succeeded(r: Result) {
    r.status == Some("success")
  }

  predicate KeepsIdentity(r: Result, id: string) {
    r.status == Some("error") && r.operation == Some(id)
  }

  predicate AsksQuery(r: Result) {
    r.nextAction == Some("query_same")
  }

  // ---------------------------------------------------------------- the world

  /** The server and the clock: any answer, and time never runs back. A call may also fail outright. */
  class World {
    var now: real
    ghost var trace: seq<Event>

    constructor (start: real)
      ensures now == start && trace == []
    {
      now, trace := start, [];
    }

    method Clock() returns (time: real)
      modifies this
      ensures time == now && old(now) <= now && trace == old(trace)
    {
      var passed: real := *;
      if passed > 0.0 {
        now := now + passed;
      }
      time := now;
    }

    /** A sleep lasts at least as long as asked. */
    method Sleep(duration: real)
      requires duration >= 0.0
      modifies this
      ensures old(now) + duration <= now && trace == old(trace)
    {
      now := now + duration;
      var late := Clock();
    }

    method OperationStatus() returns (answer: Option<Status>)
      modifies this
      ensures old(now) <= now
      ensures trace == if answer.Some? then old(trace) + [Queried(answer.value, old(now))] else old(trace)
    {
      var time := now;
      var late := Clock();
      answer := *;
      if answer.Some? {
        trace := trace + [Queried(answer.value, time)];
      }
    }

    method Append() returns (answer: Option<Result>)
      modifies this
      ensures old(now) <= now
      ensures trace == if answer.Some? then old(trace) + [Appended(answer.value, old(now))] else old(trace)
    {
      var time := now;
      var late := Clock();
      answer := *;
      if answer.Some? {
        trace := trace + [Appended(answer.value, time)];
      }
    }
  }

  // ---------------------------------------------------------------- what a trace must look like

  /** Event `k` may follow event `k - 1`: an append needs a status that asks for it, or a failure that
      does not ask for a query first. */
  ghost predicate Follows(trace: seq<Event>, k: nat)
    requires k < |trace|
  {
    trace[k].Appended? && k > 0 ==>
      if trace[k - 1].Appended? then !Succeeded(trace[k - 1].result) && !AsksQuery(trace[k - 1].result)
      else !IsCommitted(trace[k - 1].status) && !MustWait(trace[k - 1].status) && MayResubmit(trace[k - 1].status)
  }

  ghost predicate Lawful(trace: seq<Event>) {
    forall k :: 0 <= k < |trace| ==> Follows(trace, k)
  }

  /** Every failed append on the way kept the caller's identity. */
  ghost predicate Identified(trace: seq<Event>, id: string) {
    forall k :: 0 <= k < |trace| - 1 && trace[k].Appended? ==> KeepsIdentity(trace[k].result, id)
  }

  ghost function Results(trace: seq<Event>): (results: seq<Result>)
  {
    if trace == [] then []
    else if trace[|trace| - 1].Appended? then Results(trace[..|trace| - 1]) + [trace[|trace| - 1].result]
    else Results(trace[..|trace| - 1])
  }

  /** Calls that began no earlier than `until`. */
  ghost function Late(trace: seq<Event>, until: real, appends: bool): (n: nat)
  {
    if trace == [] then 0
    else
      var e := trace[|trace| - 1];
      Late(trace[..|trace| - 1], until, appends)
      + if !e.Given? && e.at >= until && e.Appended? == appends then 1 else 0
  }

  /** A result comes only from a successful append or a committed receipt for the caller's id. */
  ghost predicate Justified(trace: seq<Event>, id: string) {
    && trace != []
    && var last := trace[|trace| - 1];
    if last.Appended? then Succeeded(last.result) else IsCommitted(last.status) && HasReceipt(last.status, id)
  }

  /** Half seconds left before the deadline, counting one begun. */
  function Left(now: real, until: real): (n: nat)
  {
    if now >= until then 0 else ((until - now) * 2.0).Floor + 1
  }

  lemma SleepCounts(now: real, later: real, until: real)
    requires now < until
    requires later >= now + 0.5 || later >= until
    ensures Left(later, until) < Left(now, until)
  {
    if later < until {
      assert (until - later) * 2.0 <= (until - now) * 2.0 - 1.0;
    }
  }

  lemma ResultsStep(trace: seq<Event>, e: Event)
    ensures Results(trace + [e]) == Results(trace) + if e.Appended? then [e.result] else []
  {
    assert (trace + [e])[..|trace|] == trace;
  }

  lemma LateStep(trace: seq<Event>, e: Event, until: real, appends: bool)
    ensures Late(trace + [e], until, appends)
            == Late(trace, until, appends) + if !e.Given? && e.at >= until && e.Appended? == appends then 1 else 0
  {
    assert (trace + [e])[..|trace|] == trace;
  }

  lemma LawfulStep(trace: seq<Event>, e: Event)
    requires Lawful(trace)
    requires Follows(trace + [e], |trace|)
    ensures Lawful(trace + [e])
  {
    forall k | 0 <= k < |trace + [e]| ensures Follows(trace + [e], k) {
      if k < |trace| { assert Follows(trace, k); }
    }
  }

  /** A failure that asks for a query is never answered by another append until a later status asked for it. */
  lemma {:induction false} QueriedBeforeRetry(trace: seq<Event>, i: nat, j: nat)
    requires Lawful(trace) && i < j < |trace| && trace[i].Appended? && trace[j].Appended?
    requires AsksQuery(trace[i].result)
    ensures exists k :: i < k < j && !trace[k].Appended? && MayResubmit(trace[k].status)
  {
    assert Follows(trace, i + 1);
    FirstAppend(trace, i, j);
  }

  lemma {:induction false} FirstAppend(trace: seq<Event>, i: nat, j: nat)
    requires Lawful(trace) && i < j < |trace| && trace[i].Appended? && trace[j].Appended?
    requires !trace[i + 1].Appended?
    ensures exists k :: i < k < j && !trace[k].Appended? && MayResubmit(trace[k].status)
    decreases j
  {
    assert Follows(trace, j);
    if trace[j - 1].Appended? {
      FirstAppend(trace, i, j - 1);
    }
  }

  // ---------------------------------------------------------------- the loop

  /** Gives up once the deadline has passed; otherwise sleeps half a second, or up to the deadline. */
  method Pause(w: World, until: real) returns (expired: bool)
    modifies w
    ensures w.trace == old(w.trace) && old(w.now) <= w.now
    ensures old(w.now) >= until ==> expired
    ensures !expired ==> Left(w.now, until) < Left(old(w.now), until)
  {
    var time := w.Clock();
    if time >= until {
      return true;
    }
    var again := w.Clock();
    var left := if until - again > 0.0 then until - again else 0.0;
    w.Sleep(if left < 0.5 then left else 0.5);
    SleepCounts(old(w.now), w.now, until);
    return false;
  }

  /** The trace so far is lawful, nothing in it began after the deadline, and it ends in a failure or a
      status that lets the loop go on. */
  ghost predicate Going(trace: seq<Event>, id: string, until: real, queryFirst: bool) {
    && Lawful(trace)
    && Late(trace, until, true) == 0 && Late(trace, until, false) == 0
    && (forall k :: 0 <= k < |trace| && trace[k].Appended? ==> KeepsIdentity(trace[k].result, id))
    && (trace != [] ==>
          var last := trace[|trace| - 1];
          if last.Appended? then queryFirst == AsksQuery(last.result) else queryFirst)
  }

  ghost predicate Safe(trace: seq<Event>, id: string, until: real) {
    Lawful(trace) && Identified(trace, id) && Late(trace, until, false) <= 1 && Late(trace, until, true) <= 1
  }

  /** No append began late, and every failed one kept the identity; one query may have begun late. */
  ghost predicate MayAppend(trace: seq<Event>, id: string, until: real) {
    && Lawful(trace)
    && Late(trace, until, true) == 0 && Late(trace, until, false) <= 1
    && (forall k :: 0 <= k < |trace| && trace[k].Appended? ==> KeepsIdentity(trace[k].result, id))
  }

  lemma AfterQuery(trace: seq<Event>, e: Event, id: string, until: real)
    requires Going(trace, id, until, true) && !e.Appended?
    ensures MayAppend(trace + [e], id, until) && Results(trace + [e]) == Results(trace)
    ensures e.Given? || e.at < until ==> Going(trace + [e], id, until, true)
  {
    LawfulStep(trace, e);
    LateStep(trace, e, until, true);
    LateStep(trace, e, until, false);
    ResultsStep(trace, e);
  }

  lemma AfterAppend(trace: seq<Event>, e: Event, id: string, until: real)
    requires MayAppend(trace, id, until) && e.Appended? && Follows(trace + [e], |trace|)
    ensures Safe(trace + [e], id, until) && Results(trace + [e]) == Results(trace) + [e.result]
    ensures Late(trace, until, false) == 0 && e.at < until && KeepsIdentity(e.result, id)
            ==> Going(trace + [e], id, until, AsksQuery(e.result))
  {
    LawfulStep(trace, e);
    LateStep(trace, e, until, true);
    LateStep(trace, e, until, false);
    ResultsStep(trace, e);
  }

  /** The status of a round: the one the caller brought, unless it is empty, or the server's. */
  method Ask(w: World, id: string, ghost until: real, observed: Option<Status>) returns (status: Option<Status>)
    requires Going(w.trace, id, until, true)
    modifies w
    ensures old(w.now) <= w.now
    ensures if status.None? then w.trace == old(w.trace)
            else |w.trace| == |old(w.trace)| + 1 && old(w.trace) <= w.trace
                 && !w.trace[|old(w.trace)|].Appended? && w.trace[|old(w.trace)|].status == status.value
    ensures MayAppend(w.trace, id, until) && Results(w.trace) == Results(old(w.trace))
    ensures w.now < until ==> Going(w.trace, id, until, true)
  {
    if observed.Some? && !IsEmpty(observed.value) {
      status := observed;
      AfterQuery(w.trace, Given(observed.value), id, until);
      w.trace := w.trace + [Given(observed.value)];
    } else {
      ghost var time := w.now;
      status := w.OperationStatus();
      if status.Some? {
        AfterQuery(old(w.trace), Queried(status.value, time), id, until);
      }
    }
  }

  method Submit(w: World, id: string, ghost until: real) returns (outcome: Option<Outcome>, result: Option<Result>)
    requires MayAppend(w.trace, id, until)
    requires forall r: Result, at: real :: Follows(w.trace + [Appended(r, at)], |w.trace|)
    modifies w
    ensures old(w.now) <= w.now && old(w.trace) <= w.trace && |w.trace| <= |old(w.trace)| + 1
    ensures Safe(w.trace, id, until)
    ensures Results(w.trace) == Results(old(w.trace)) + if result.Some? then [result.value] else []
    ensures outcome.None? ==> result.Some?
    ensures outcome.None? && w.now < until && Late(old(w.trace), until, false) == 0 ==>
              Going(w.trace, id, until, AsksQuery(result.value))
    ensures outcome == Some(Recovered) ==> Justified(w.trace, id)
    ensures |w.trace| > |old(w.trace)| ==> w.trace[|old(w.trace)|].Appended?
  {
    ghost var time := w.now;
    result := w.Append();
    if result.None? {
      return Some(Violation), None;
    }
    AfterAppend(old(w.trace), Appended(result.value, time), id, until);
    if Succeeded(result.value) {
      return Some(Recovered), result;
    }
    if !KeepsIdentity(result.value, id) {
      return Some(Violation), result;
    }
    return None, result;
  }

  /** One round: the status, if one is due, and then the append, if it is allowed. */
  method Round(w: World, id: string, ghost until: real, queryFirst: bool, observed: Option<Status>)
    returns (outcome: Option<Outcome>, result: Option<Result>)
    requires Going(w.trace, id, until, queryFirst)
    modifies w
    ensures old(w.now) <= w.now && old(w.trace) <= w.trace && |w.trace| <= |old(w.trace)| + 2
    ensures Safe(w.trace, id, until)
    ensures outcome.None? && w.now < until ==>
              Going(w.trace, id, until, if result.Some? then AsksQuery(result.value) else queryFirst)
    ensures outcome == Some(Recovered) ==> Justified(w.trace, id)
    ensures Results(w.trace) == Results(old(w.trace)) + if result.Some? then [result.value] else []
    ensures |w.trace| > |old(w.trace)| ==> (w.trace[|old(w.trace)|].Appended? <==> !queryFirst)
  {
    if queryFirst {
      var status := Ask(w, id, until, observed);
      if status.None? {
        return Some(Violation), None;
      }
      if IsCommitted(status.value) {
        return Some(if HasReceipt(status.value, id) then Recovered else Violation), None;
      }
      if status.value.state == Some("quarantined") {
        return Some(Unresolved), None;
      }
      if MustWait(status.value) {
        return None, None;
      }
      if !MayResubmit(status.value) {
        return Some(Violation), None;
      }
    }
    outcome, result := Submit(w, id, until);
  }

  method RecoverSameIdentity(w: World, id: string, deadline: real, observed: Option<Status>)
    returns (outcome: Outcome, outcomes: seq<Result>, ghost until: real)
    requires w.trace == []
    modifies w
    ensures old(w.now) + deadline <= until
    ensures Safe(w.trace, id, until) && outcomes == Results(w.trace)
    ensures w.trace != [] ==> (w.trace[0].Appended? <==> observed.None?)
    ensures outcome == Recovered ==> Justified(w.trace, id)
    ensures |w.trace| <= 2 * Left(0.0, deadline) + 2
  {
    outcomes := [];
    var queryFirst := observed.Some?;
    var given := observed;
    var started := w.Clock();
    var end := started + deadline;
    until := end;
    while true
      invariant Going(w.trace, id, until, queryFirst) && outcomes == Results(w.trace)
      invariant if w.trace == [] then queryFirst == observed.Some? else w.trace[0].Appended? <==> observed.None?
      invariant |w.trace| + 2 * Left(w.now, until) <= 2 * Left(0.0, deadline)
      decreases Left(w.now, until)
    {
      var stop, result := Round(w, id, end, queryFirst, given);
      given := None;
      if result.Some? {
        outcomes := outcomes + [result.value];
        queryFirst := AsksQuery(result.value);
      }
      if stop.Some? {
        return stop.value, outcomes, end;
      }
      var expired := Pause(w, end);
      if expired {
        return Unresolved, outcomes, end;
      }
    }
  }
}
