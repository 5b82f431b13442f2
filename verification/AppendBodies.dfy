/** Generations and bytes: what a path shows is its committed payloads, in order. */
module AppendBodies {
  import opened AppendRecords
  import opened AppendLedger
  import opened AppendInvariant
  import opened AppendPreservation
  import opened AppendTheorems

  /** All publications on a path, oldest first. */
  ghost function OnPath(log: seq<Event>, path: Path): (events: seq<Event>)
    ensures forall i :: 0 <= i < |events| ==> events[i].ArtifactPublished? && events[i].path == path
  {
    if log == [] then []
    else
      var before := OnPath(log[..|log| - 1], path);
      var last := log[|log| - 1];
      if last.ArtifactPublished? && last.path == path then before + [last] else before
  }

  ghost predicate NeverRemoved(log: seq<Event>, path: Path) {
    forall i :: 0 <= i < |log| ==> log[i] != ArtifactRemoved(path)
  }

  lemma {:induction false} SegmentIsAll(log: seq<Event>, path: Path)
    requires NeverRemoved(log, path)
    ensures Segment(log, path) == OnPath(log, path)
  {
    if log != [] {
      SegmentIsAll(log[..|log| - 1], path);
    }
  }

  /** On a path that was never removed, the committed generations are exactly 1..n in commit order, and
      the live head is the n-th. */
  lemma ContiguousGenerations(derive: Derive, s: State, path: Path)
    requires Reachable(derive, s) && NeverRemoved(s.log, path)
    ensures var events := OnPath(s.log, path);
            && (forall i :: 0 <= i < |events| ==> events[i].receipt.generation == i + 1)
            && (path in s.paths <==> events != [])
            && (events != [] ==> s.paths[path].generation == |events|)
  {
    ReachableInv(derive, s);
    SegmentIsAll(s.log, path);
    assert PathOk(s, path);
  }

  /** A client plans the body its claim implies: the payload alone for a new path, the payload behind
      the base revision it read otherwise. */
  ghost predicate HonestPlan(s: State, plan: Plan) {
    match plan.claim
    case CreateOnly => plan.body == plan.payload
    case Append(_, base) => base in s.bodies && plan.body == s.bodies[base] + plan.payload
  }

  ghost predicate HonestStep(s: State, step: Step) {
    step.Send? && step.command.Begin? ==> HonestPlan(s, step.command.plan)
  }

  ghost predicate HonestRun(derive: Derive, steps: seq<Step>) {
    steps == [] ||
    (var n := |steps| - 1;
     HonestRun(derive, steps[..n]) && HonestStep(Run(derive, Initial, steps[..n]), steps[n]))
  }

  /** Reachable with clients that plan honestly. */
  ghost predicate HonestlyReachable(derive: Derive, s: State) {
    exists steps :: HonestRun(derive, steps) && s == Run(derive, Initial, steps)
  }

  ghost predicate PlansHonest(s: State) {
    forall id :: id in s.children ==> HonestPlan(s, s.children[id].plan)
  }

  ghost predicate BodyExact(s: State, path: Path)
    requires path in s.paths
  {
    s.paths[path].revision in s.bodies && s.bodies[s.paths[path].revision] == Payloads(Segment(s.log, path))
  }

  ghost predicate BodiesExact(s: State) {
    forall path :: path in s.paths ==> BodyExact(s, path)
  }

  /** Every plan of `u` is one of `s` or that of the admission. */
  lemma PlansFrom(s: State, cmd: Command, c: Child, d: Child, u: State, r: Result, id: Id)
    requires Executed(s, cmd, c, d, u, r) && id in u.children
    ensures (id in s.children && u.children[id].plan == s.children[id].plan)
            || (cmd.Begin? && u.children[id].plan == cmd.plan)
  {
  }

  lemma HonestStays(s: State, u: State, plan: Plan)
    requires HonestPlan(s, plan) && BodiesKept(s, u)
    ensures HonestPlan(u, plan)
  {
  }

  lemma ExecutedPlans(s: State, cmd: Command, c: Child, d: Child, u: State, r: Result)
    requires RecordsOk(s) && PlansHonest(s) && Executed(s, cmd, c, d, u, r)
    requires cmd.Begin? ==> HonestPlan(s, cmd.plan)
    ensures PlansHonest(u)
  {
    ExecutedExtends(s, cmd, c, d, u, r);
    forall id | id in u.children ensures HonestPlan(u, u.children[id].plan) {
      PlansFrom(s, cmd, c, d, u, r, id);
      HonestStays(s, u, u.children[id].plan);
    }
  }

  lemma PayloadsStep(events: seq<Event>, e: Event)
    requires forall i :: 0 <= i < |events| ==> events[i].ArtifactPublished?
    requires e.ArtifactPublished?
    ensures Payloads(events + [e]) == Payloads(events) + e.payload
  {
    assert (events + [e])[..|events + [e]| - 1] == events;
  }

  lemma CommittedBody(s: State, u: State, c: Child, path: Path)
    requires PathOk(s, path) && Committed(s, u, c) && HonestPlan(s, c.plan) && path in u.paths
    requires path in s.paths ==> BodyExact(s, path)
    ensures BodyExact(u, path)
  {
    var e := u.log[|s.log|];
    assert u.log == s.log + [e];
    SegmentStep(s.log, e, path);
    if path == c.plan.path {
      PayloadsStep(Segment(s.log, path), e);
    }
  }

  lemma CommittedBodies(s: State, u: State, c: Child)
    requires PathsOk(s) && BodiesExact(s) && Committed(s, u, c) && HonestPlan(s, c.plan)
    ensures BodiesExact(u)
  {
    forall path | path in u.paths ensures BodyExact(u, path) {
      assert PathOk(s, path);
      CommittedBody(s, u, c, path);
    }
  }

  lemma UnlinkedBodies(s: State, u: State, path: Path, g: nat)
    requires BodiesExact(s) && Unlinked(s, u, path, g)
    ensures BodiesExact(u)
  {
    forall q | q in u.paths ensures BodyExact(u, q) {
      assert BodyExact(s, q);
      SegmentStep(s.log, ArtifactRemoved(path), q);
    }
  }

  lemma ExecutedBodies(s: State, cmd: Command, c: Child, d: Child, u: State, r: Result)
    requires PathsOk(s) && PlansHonest(s) && BodiesExact(s) && Executed(s, cmd, c, d, u, r)
    ensures BodiesExact(u)
  {
    if cmd.Finalize? {
      CommittedBodies(s, u, cmd.expected);
    } else if cmd.Remove? {
      UnlinkedBodies(s, u, cmd.path, cmd.expectedGeneration);
    }
  }

  ghost predicate Exact(s: State) {
    PlansHonest(s) && BodiesExact(s)
  }

  lemma SubmitExact(s: State, q: Id, cmd: Command)
    requires RecordsOk(s) && PathsOk(s) && Exact(s) && (cmd.Begin? ==> HonestPlan(s, cmd.plan))
    ensures Exact(Submit(s, q, cmd).0)
  {
    if Submit(s, q, cmd).0 != s {
      var c, d, u, r := StateChanges(s, q, cmd);
      ExecutedPlans(s, cmd, c, d, u, r);
      ExecutedBodies(s, cmd, c, d, u, r);
      SameExact(u, Stored(u, q, cmd, r));
    }
  }

  lemma SameExact(s: State, t: State)
    requires Exact(s) && t.children == s.children && t.bodies == s.bodies && t.paths == s.paths && t.log == s.log
    ensures Exact(t)
  {
    forall id | id in t.children ensures HonestPlan(t, t.children[id].plan) {
      assert HonestPlan(s, s.children[id].plan);
    }
  }

  lemma ClockExact(s: State, t: State)
    requires Exact(s) && t == s.(epoch := t.epoch, lease := t.lease)
    ensures Exact(t)
  {
    SameExact(s, t);
  }

  lemma NextExact(derive: Derive, s: State, step: Step)
    requires RecordsOk(s) && PathsOk(s) && Exact(s) && HonestStep(s, step)
    ensures Exact(Next(derive, s, step))
  {
    if step.Send? {
      SubmitExact(s, RequestOf(derive, step.request, step.command), step.command);
    } else {
      ClockExact(s, Next(derive, s, step));
    }
  }

  lemma {:induction false} RunExact(derive: Derive, steps: seq<Step>)
    requires HonestRun(derive, steps)
    ensures Exact(Run(derive, Initial, steps))
  {
    if steps != [] {
      var n := |steps| - 1;
      RunExact(derive, steps[..n]);
      RunsKeepInv(derive, steps[..n]);
      NextExact(derive, Run(derive, Initial, steps[..n]), steps[n]);
    }
  }

  lemma HonestIsExact(derive: Derive, s: State)
    requires HonestlyReachable(derive, s)
    ensures Exact(s) && Inv(s)
  {
    var steps :| HonestRun(derive, steps) && s == Run(derive, Initial, steps);
    RunExact(derive, steps);
    RunsKeepInv(derive, steps);
  }

  /** The live body of a path that was never removed is every committed payload, once, in generation
      order. */
  lemma LiveBodyIsThePayloads(derive: Derive, s: State, path: Path)
    requires HonestlyReachable(derive, s) && NeverRemoved(s.log, path) && path in s.paths
    ensures s.paths[path].revision in s.bodies
    ensures s.bodies[s.paths[path].revision] == Payloads(OnPath(s.log, path))
  {
    HonestIsExact(derive, s);
    SegmentIsAll(s.log, path);
    assert BodyExact(s, path);
  }

  /** With removals the same holds of what was published since the last one. */
  lemma LiveBodySinceRemoval(derive: Derive, s: State, path: Path)
    requires HonestlyReachable(derive, s) && path in s.paths
    ensures s.paths[path].generation == |Segment(s.log, path)| && s.paths[path].revision in s.bodies
    ensures s.bodies[s.paths[path].revision] == Payloads(Segment(s.log, path))
  {
    HonestIsExact(derive, s);
    assert BodyExact(s, path);
    assert PathOk(s, path);
  }
}
