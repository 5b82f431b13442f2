/** What the append contract promises over every run: exactly one publication per logical identity, and
    receipts that never change. */
module AppendTheorems {
  import opened Optional
  import opened AppendRecords
  import opened AppendLedger
  import opened AppendInvariant
  import opened AppendPreservation

  // ---------------------------------------------------------------- later states

  ghost predicate Finished(c: Child) {
    c.phase == Published || c.phase == Cleaned
  }

  ghost predicate ReceiptsKept(s: State, t: State) {
    forall op :: op in s.parents && s.parents[op].result.Some? ==> op in t.parents && t.parents[op] == s.parents[op]
  }

  ghost predicate FinishedKept(s: State, t: State) {
    forall id :: id in s.children && Finished(s.children[id]) ==> id in t.children && t.children[id] == s.children[id]
  }

  ghost predicate BodiesKept(s: State, t: State) {
    forall v :: v in s.bodies ==> v in t.bodies && t.bodies[v] == s.bodies[v]
  }

  ghost predicate RecordedKept(s: State, t: State) {
    forall q :: q in s.recorded ==> q in t.recorded && t.recorded[q] == s.recorded[q]
  }

  /** What no step takes back: receipts, finished attempts, recorded results, published bodies, the log. */
  ghost predicate Extends(s: State, t: State) {
    && ReceiptsKept(s, t) && FinishedKept(s, t) && BodiesKept(s, t) && RecordedKept(s, t)
    && s.parents.Keys <= t.parents.Keys
    && s.log <= t.log
  }

  lemma ExtendsTrans(s: State, t: State, u: State)
    requires Extends(s, t) && Extends(t, u)
    ensures Extends(s, u)
  {
  }

  lemma MovedExtends(s: State, u: State, c: Child, d: Child)
    requires Moved(s, u, c, d)
    ensures Extends(s, u)
  {
  }

  lemma AdmittedExtends(s: State, u: State, plan: Plan, deadline: nat)
    requires Admitted(s, u, plan, deadline)
    ensures Extends(s, u)
  {
  }

  lemma CommittedExtends(s: State, u: State, c: Child)
    requires Committed(s, u, c)
    ensures Extends(s, u)
  {
  }

  lemma ExecutedExtends(s: State, cmd: Command, c: Child, d: Child, u: State, r: Result)
    requires Executed(s, cmd, c, d, u, r)
    ensures Extends(s, u)
  {
    if IsMove(cmd) {
      MovedExtends(s, u, c, d);
    } else if cmd.Begin? {
      AdmittedExtends(s, u, cmd.plan, cmd.deadline);
    } else if cmd.Finalize? {
      CommittedExtends(s, u, cmd.expected);
    } else {
      assert Unlinked(s, u, cmd.path, cmd.expectedGeneration);
    }
  }

  lemma SubmitExtends(s: State, q: Id, cmd: Command)
    requires RecordsOk(s)
    ensures Extends(s, Submit(s, q, cmd).0)
  {
    if Submit(s, q, cmd).0 != s {
      var c, d, u, r := StateChanges(s, q, cmd);
      ExecutedExtends(s, cmd, c, d, u, r);
      SameRecorded(s, cmd, c, d, u, r);
      assert Extends(u, Stored(u, q, cmd, r));
      ExtendsTrans(s, u, Stored(u, q, cmd, r));
    }
  }

  lemma ClockExtends(s: State, t: State)
    requires t == s.(epoch := t.epoch, lease := t.lease)
    ensures Extends(s, t)
  {
  }

  lemma NextExtends(derive: Derive, s: State, step: Step)
    requires RecordsOk(s)
    ensures Extends(s, Next(derive, s, step))
  {
    if step.Send? {
      SubmitExtends(s, RequestOf(derive, step.request, step.command), step.command);
    } else {
      ClockExtends(s, Next(derive, s, step));
    }
  }

  lemma {:induction false} RunFrom(derive: Derive, s: State, steps: seq<Step>)
    requires Inv(s)
    ensures Inv(Run(derive, s, steps)) && Extends(s, Run(derive, s, steps))
  {
    if steps != [] {
      var before := Run(derive, s, steps[..|steps| - 1]);
      RunFrom(derive, s, steps[..|steps| - 1]);
      NextKeepsInv(derive, before, steps[|steps| - 1]);
      NextExtends(derive, before, steps[|steps| - 1]);
      ExtendsTrans(s, before, Run(derive, s, steps));
    }
  }

  lemma ReachableInv(derive: Derive, s: State)
    requires Reachable(derive, s)
    ensures Inv(s)
  {
    var steps :| s == Run(derive, Initial, steps);
    RunsKeepInv(derive, steps);
  }

  lemma LaterExtends(derive: Derive, s: State, t: State)
    requires Inv(s) && Later(derive, s, t)
    ensures Inv(t) && Extends(s, t)
  {
    var steps :| t == Run(derive, s, steps);
    RunFrom(derive, s, steps);
  }

  // ---------------------------------------------------------------- exactly once

  /** Where the change log shows append `op` becoming visible. */
  ghost function Publications(log: seq<Event>, op: Id): (at: set<nat>)
  {
    set i: nat | i < |log| && log[i].ArtifactPublished? && log[i].logical == op
  }

  /** In every run a logical append is published at most once: exactly once if it has a receipt, never
      if it has none; and at most one of its attempts ever reaches Published. */
  lemma ExactlyOnce(derive: Derive, s: State, op: Id)
    requires Reachable(derive, s)
    ensures |Publications(s.log, op)| <= 1
    ensures |Publications(s.log, op)| == 1 <==> op in s.parents && s.parents[op].result.Some?
    ensures forall i :: i in Publications(s.log, op) ==>
              op in s.parents && s.parents[op].result == Some(s.log[i].receipt)
                && s.parents[op].payload == s.log[i].payload
    ensures forall id, other :: id in s.children && other in s.children
              && s.children[id].plan.logical == op && s.children[other].plan.logical == op
              && s.children[id].phase == Published && s.children[other].phase == Published
              ==> id == other
  {
    ReachableInv(derive, s);
    OncePerLog(s, op);
    forall id | id in s.children && s.children[id].plan.logical == op && s.children[id].phase == Published
      ensures op in s.parents && id == s.parents[op].child
    {
      assert ChildOk(s, id);
    }
  }

  lemma OncePerLog(s: State, op: Id)
    requires LogOk(s)
    ensures |Publications(s.log, op)| <= 1
    ensures |Publications(s.log, op)| == 1 <==> op in s.parents && s.parents[op].result.Some?
    ensures forall i :: i in Publications(s.log, op) ==>
              op in s.parents && s.parents[op].result == Some(s.log[i].receipt)
                && s.parents[op].payload == s.log[i].payload
  {
    var at := Publications(s.log, op);
    forall i | i in at ensures EventOk(s, s.log[i]) {}
    if op in s.parents && s.parents[op].result.Some? {
      assert InLog(s.log, op);
      var i :| 0 <= i < |s.log| && s.log[i].ArtifactPublished? && s.log[i].logical == op;
      assert at == {i};
    } else {
      assert at == {};
    }
  }

  /** Of two attempts of an append at least one is durably cleaned, so at most one is ever unfinished or
      published. */
  lemma OneActiveAttempt(derive: Derive, s: State, id: Id, other: Id)
    requires Reachable(derive, s) && id in s.children && other in s.children && id != other
    requires s.children[id].plan.logical == s.children[other].plan.logical
    ensures s.children[id].phase == Cleaned || s.children[other].phase == Cleaned
  {
    ReachableInv(derive, s);
    assert ChildOk(s, id) && ChildOk(s, other);
  }

  /** Parent and attempt are never apart: a parent always has its current attempt, with the same bindings,
      and has its receipt exactly when that attempt has. */
  lemma ParentHasItsAttempt(derive: Derive, s: State, op: Id)
    requires Reachable(derive, s) && op in s.parents
    ensures var p := s.parents[op];
            && p.child in s.children && Matches(p, s.children[p.child])
            && p.result == s.children[p.child].result
            && (p.result.Some? <==> s.children[p.child].phase == Published)
  {
    ReachableInv(derive, s);
    assert ParentOk(s, op);
    assert ChildOk(s, s.parents[op].child);
  }

  /** A receipt, once given, is the same in every later state, and so is every finished attempt: a
      cleaned attempt can never publish. */
  lemma ReceiptsAreStable(derive: Derive, s: State, t: State)
    requires Reachable(derive, s) && Later(derive, s, t)
    ensures forall op :: op in s.parents && s.parents[op].result.Some? ==>
              op in t.parents && t.parents[op] == s.parents[op]
    ensures forall id :: id in s.children && Finished(s.children[id]) ==>
              id in t.children && t.children[id] == s.children[id]
    ensures s.log <= t.log
  {
    ReachableInv(derive, s);
    LaterExtends(derive, s, t);
  }

  /** The revision of a cleaned attempt stays reserved for good: in no later state is anything published
      under it or claimed by another attempt. */
  lemma CleanedRevisionStaysReserved(derive: Derive, s: State, t: State, id: Id)
    requires Reachable(derive, s) && Later(derive, s, t) && id in s.children && s.children[id].phase == Cleaned
    ensures var c := s.children[id];
            && c.plan.revision !in t.bodies && c.plan.revision in t.claims && t.claims[c.plan.revision] == id
            && (forall other :: other in t.children && other != id ==>
                  t.children[other].plan.revision != c.plan.revision)
  {
    ReachableInv(derive, s);
    LaterExtends(derive, s, t);
    assert ChildOk(s, id);
    assert RevisionOk(t, id);
  }

  lemma BeginAfterReceipt(t: State, plan: Plan, deadline: nat)
    requires plan.logical in t.parents && t.parents[plan.logical].result.Some?
    ensures var o := BeginPublish(t, plan, deadline);
            o.Refused? || (o.state == t && o.result.ChildIs? && o.result.child.result == t.parents[plan.logical].result)
  {
  }

  lemma CommittedAttempt(s: State, op: Id)
    requires Inv(s) && op in s.parents && s.parents[op].result.Some?
    ensures var p := s.parents[op];
            && p.child in s.children && s.children[p.child].phase == Published
            && Matches(p, s.children[p.child]) && p.result == s.children[p.child].result
            && s.children[p.child].plan.id == p.child && PlanFits(s.children[p.child].plan)
  {
    assert ParentOk(s, op);
    assert ChildOk(s, s.parents[op].child);
  }

  /** The admission of a committed append applies again exactly under the owner and the plan it had. */
  lemma CommittedBegin(t: State, plan: Plan, deadline: nat, child: Child)
    requires plan.logical in t.parents && t.parents[plan.logical].result.Some?
    requires IsCurrent(t, child) && child.plan.id == t.parents[plan.logical].child && PlanFits(child.plan)
    requires Matches(t.parents[plan.logical], child) && t.parents[plan.logical].result == child.result
    ensures BeginPublish(t, plan, deadline).Applied? <==> plan == child.plan && t.epoch == child.plan.epoch
  {
  }

  /** However an append that has its receipt is admitted again, under whatever plan and request and in
      whatever later state, nothing changes. The admission applies exactly when it carries the plan that
      was admitted and no owner has changed since, and its answer is then the first receipt. */
  lemma ReplayChangesNothing(derive: Derive, s: State, t: State, q: Id, plan: Plan, deadline: nat)
    requires Reachable(derive, s) && Later(derive, s, t)
    requires plan.logical in s.parents && s.parents[plan.logical].result.Some?
    ensures Submit(t, q, Begin(plan, deadline)).0 == t
    ensures s.parents[plan.logical].child in s.children
    ensures var o := BeginPublish(t, plan, deadline); var admitted := s.children[s.parents[plan.logical].child].plan;
            && (o.Applied? <==> plan == admitted && t.epoch == admitted.epoch)
            && (o.Applied? ==> o.result.ChildIs? && o.result.child.result == s.parents[plan.logical].result)
  {
    ReachableInv(derive, s);
    CommittedAttempt(s, plan.logical);
    ReceiptsAreStable(derive, s, t);
    BeginAfterReceipt(t, plan, deadline);
    CommittedBegin(t, plan, deadline, s.children[s.parents[plan.logical].child]);
  }

  /** A request that was carried out and is sent again, after a lost reply or a crash, gets its first
      result and changes nothing, in every later state. */
  lemma RequestsReplay(derive: Derive, s: State, t: State, request: Id, cmd: Command)
    requires Reachable(derive, s) && Later(derive, s, t) && !cmd.Retry?
    requires request in s.recorded && s.recorded[request].command == cmd
    ensures Submit(t, request, cmd) == (t, Done(s.recorded[request].version, s.recorded[request].result, true))
  {
    ReachableInv(derive, s);
    LaterExtends(derive, s, t);
  }
}
