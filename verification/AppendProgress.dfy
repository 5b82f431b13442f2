/** No reachable state is a dead end: an append without a receipt can still be driven to commit under its
    own identity, except in one case, which is stated exactly. */
module AppendProgress {
  import opened Optional
  import opened AppendRecords
  import opened AppendLedger
  import opened AppendInvariant
  import opened AppendPreservation
  import opened AppendTheorems

  // ---------------------------------------------------------------- runs

  lemma {:induction false} RunAppend(derive: Derive, s: State, a: seq<Step>, b: seq<Step>)
    ensures Run(derive, s, a + b) == Run(derive, Run(derive, s, a), b)
  {
    if b == [] {
      assert a + b == a;
    } else {
      assert (a + b)[..|a + b| - 1] == a + b[..|b| - 1];
      RunAppend(derive, s, a, b[..|b| - 1]);
    }
  }

  lemma RunOne(derive: Derive, s: State, step: Step)
    ensures Run(derive, s, [step]) == Next(derive, s, step)
  {
    assert [step][..0] == [];
  }

  lemma {:induction false} FreshId(used: set<Id>) returns (id: Id)
    ensures forall x :: x in used ==> x < id
  {
    if used == {} {
      id := 0;
    } else {
      var x :| x in used;
      var above := FreshId(used - {x});
      id := if above > x then above else x + 1;
      forall y | y in used ensures y < id { if y != x { assert y in used - {x}; } }
    }
  }

  // ---------------------------------------------------------------- one append in focus

  /** `c` is the current attempt of append `op`, which has no receipt. */
  ghost predicate Focus(s: State, op: Id, c: Child) {
    && op in s.parents && s.parents[op].result.None? && s.parents[op].child == c.plan.id
    && IsCurrent(s, c)
  }

  lemma FocusIsAuthority(s: State, op: Id, c: Child)
    requires Inv(s) && Focus(s, op, c)
    ensures c.plan.logical == op && HasAuthority(s, c) && IsReserved(s, c) && Valid(c) && c.phase != Published
            && c.result.None?
  {
    assert ParentOk(s, op);
    assert ChildOk(s, c.plan.id);
    assert RevisionOk(s, c.plan.id);
  }

  /** The command replaces the attempt in focus by `d` and touches nothing else that matters here. */
  ghost predicate Advances(s: State, cmd: Command, c: Child, d: Child) {
    && d.plan == c.plan
    && Execute(s, cmd).Applied?
    && Execute(s, cmd).state == s.(version := s.version + 1, children := s.children[c.plan.id := d])
  }

  lemma SubmitApplies(s: State, q: Id, cmd: Command)
    requires Execute(s, cmd).Applied? && Execute(s, cmd).state.version != s.version && q !in s.recorded
    requires cmd.Retry? ==> cmd.logical in s.parents
    ensures Submit(s, q, cmd).0 == Stored(Execute(s, cmd).state, q, cmd, Execute(s, cmd).result)
  {
  }

  lemma AdvancedFocus(s: State, t: State, op: Id, c: Child, d: Child)
    requires Focus(s, op, c) && d.plan == c.plan
    requires t.parents == s.parents && t.children == s.children[c.plan.id := d]
    ensures Focus(t, op, d) && t.children.Keys == s.children.Keys
  {
  }

  /** A command sent under an unused request identity is carried out. */
  lemma SendAdvances(derive: Derive, s: State, q: Id, op: Id, cmd: Command, c: Child, d: Child)
    requires Inv(s) && Focus(s, op, c) && Advances(s, cmd, c, d) && RequestOf(derive, q, cmd) !in s.recorded
    requires cmd.Retry? ==> cmd.logical in s.parents
    ensures var t := Next(derive, s, Send(q, cmd));
            Inv(t) && Focus(t, op, d) && SameRoom(s, t) && t.epoch == s.epoch && t.lease == s.lease
  {
    NextKeepsInv(derive, s, Send(q, cmd));
    SubmitApplies(s, RequestOf(derive, q, cmd), cmd);
    AdvancedFocus(s, Next(derive, s, Send(q, cmd)), op, c, d);
  }

  /** Nothing changed that a later attempt depends on: identities, revisions, paths and bodies. */
  ghost predicate SameRoom(s: State, t: State) {
    && t.parents == s.parents && t.children.Keys == s.children.Keys
    && t.paths == s.paths && t.bodies == s.bodies && t.claims == s.claims
  }

  ghost predicate Reaches(derive: Derive, s: State, op: Id, more: seq<Step>) {
    var t := Run(derive, s, more);
    op in t.parents && t.parents[op].result.Some?
  }

  /** How an attempt is to publish: its identities, and the objects and manifest rows it stages. */
  datatype Shape = Shape(id: Id, revision: Id, objects: nat, rows: nat)

  ghost function LiveBody(s: State, path: Path): (body: Body)
  {
    if path in s.paths && s.paths[path].revision in s.bodies then s.bodies[s.paths[path].revision] else []
  }

  /** The body the append makes of its path as it is now. */
  ghost function Appended(s: State, p: Parent): (body: Body)
  {
    LiveBody(s, p.path) + p.payload
  }

  /** The identities are unused, and the counts can carry the body. */
  ghost predicate Usable(s: State, p: Parent, shape: Shape) {
    && shape.id !in s.children && shape.id !in s.parents
    && shape.revision !in s.claims && shape.revision !in s.bodies
    && shape.objects <= MAX_STAGED_OBJECTS && shape.rows <= MAX_MANIFEST_ROWS
    && SizeSealed(shape.objects, shape.rows, Appended(s, p))
  }

  /** After these steps append `op` has its receipt, from an attempt of this shape, for this body. */
  ghost predicate CommitsAs(derive: Derive, s: State, op: Id, shape: Shape, body: Body, more: seq<Step>) {
    var t := Run(derive, s, more);
    && op in t.parents && t.parents[op].result.Some? && t.parents[op].result.value.body == body
    && t.parents[op].child == shape.id && t.parents[op].revision == shape.revision
    && shape.id in t.children
    && t.children[shape.id].plan.objects == shape.objects && t.children[shape.id].plan.rows == shape.rows
  }

  lemma Continue(derive: Derive, s: State, op: Id, shape: Shape, body: Body, step: Step, rest: seq<Step>)
    requires CommitsAs(derive, Next(derive, s, step), op, shape, body, rest)
    ensures CommitsAs(derive, s, op, shape, body, [step] + rest)
  {
    RunOne(derive, s, step);
    RunAppend(derive, s, [step], rest);
  }

  /** The next step, and the attempt it leaves in focus. */
  ghost predicate Leads(derive: Derive, s: State, op: Id, step: Step, d: Child) {
    var t := Next(derive, s, step);
    Inv(t) && Focus(t, op, d) && SameRoom(s, t)
  }

  /** The guards every forward command looks at. */
  ghost predicate Allowed(s: State, c: Child) {
    IsCurrent(s, c) && HasAuthority(s, c) && IsReserved(s, c)
  }

  lemma TransitAdvances(s: State, c: Child, transition: Transition)
    requires Allowed(s, c) && !transition.Publish? && Apply(c, transition).Some?
    ensures Advances(s, Transit(c, transition), c, Apply(c, transition).value)
  {
  }

  lemma CleanAdvances(s: State, c: Child)
    requires Allowed(s, c) && c.phase == Cleaning
    ensures c.cleanedObjects < c.staged
            ==> Advances(s, CleanObjects(c, 1), c, c.(cleanedObjects := c.cleanedObjects + 1))
    ensures c.cleanedObjects == c.staged && c.cleanedRows < c.listed ==>
              Advances(s, CleanRows(c, 1), c, c.(cleanedRows := c.cleanedRows + 1))
  {
  }

  lemma RetryAdvances(s: State, op: Id, c: Child)
    requires Allowed(s, c) && c.phase == Quarantined && c.failure.Some? && c.plan.logical == op && Focus(s, op, c)
    ensures Advances(s, Retry(op, Token(s.parents[op], c)), c, c.(phase := Cleaning, retries := c.retries + 1))
  {
  }

  lemma Sent(derive: Derive, s: State, op: Id, cmd: Command, c: Child, d: Child) returns (step: Step)
    requires Inv(s) && Focus(s, op, c) && Advances(s, cmd, c, d) && !cmd.Retry?
    ensures Leads(derive, s, op, step, d)
  {
    var q := FreshId(s.recorded.Keys);
    SendAdvances(derive, s, q, op, cmd, c, d);
    step := Send(q, cmd);
  }

  // ---------------------------------------------------------------- commit

  /** The attempt has the shape and plans the body. */
  ghost predicate Shaped(c: Child, shape: Shape, body: Body) {
    && c.plan.id == shape.id && c.plan.revision == shape.revision
    && c.plan.objects == shape.objects && c.plan.rows == shape.rows && c.plan.body == body
  }

  lemma FinalizeCommits(s: State, q: Id, c: Child)
    requires c.phase == Finalizing && Allowed(s, c) && NextGeneration(s, c.plan).Some? && q !in s.recorded
    requires SizeSealed(c.plan.objects, c.plan.rows, c.plan.body)
    ensures var t := Submit(s, q, Finalize(c)).0; var op := c.plan.logical;
            && op in t.parents && t.parents[op].result.Some? && t.parents[op].result.value.body == c.plan.body
            && t.parents[op].child == c.plan.id && t.parents[op].revision == c.plan.revision
            && c.plan.id in t.children && t.children[c.plan.id].plan == c.plan
  {
    assert FinalizePublish(s, c).Applied?;
  }

  /** The path still allows the attempt's claim, and its size is sealed. */
  ghost predicate Ready(s: State, c: Child) {
    NextGeneration(s, c.plan).Some? && SizeSealed(c.plan.objects, c.plan.rows, c.plan.body)
  }

  /** A finalizing attempt that is ready commits. */
  lemma FinalizingFinishes(derive: Derive, s: State, op: Id, c: Child, shape: Shape, body: Body)
    returns (more: seq<Step>)
    requires Inv(s) && Focus(s, op, c) && c.phase == Finalizing && Ready(s, c) && Shaped(c, shape, body)
    ensures CommitsAs(derive, s, op, shape, body, more)
  {
    FocusIsAuthority(s, op, c);
    var q := FreshId(s.recorded.Keys);
    FinalizeCommits(s, q, c);
    RunOne(derive, s, Send(q, Finalize(c)));
    more := [Send(q, Finalize(c))];
  }

  // ---------------------------------------------------------------- staging

  /** What the attempt still has to stage, to mark as uploaded and to list. */
  ghost function Unstaged(c: Child): (n: int)
  {
    2 * c.plan.objects - c.staged - c.uploaded + c.plan.rows - c.listed
  }

  /** The largest batch allowed for what is left. */
  function Batch(left: nat): (n: nat)
    ensures n <= left && n <= 192 && (left > 0 ==> n > 0)
  {
    if left < 192 then left else 192
  }

  lemma StageAdvances(s: State, c: Child, n: nat, d: Child)
    requires Allowed(s, c) && c.phase == Uploading && BatchFits(n, c.staged, c.plan.objects)
    requires d == c.(staged := c.staged + n)
    ensures Advances(s, StageObjects(c, n), c, d)
  {
  }

  lemma UploadAdvances(s: State, c: Child, n: nat, d: Child)
    requires Allowed(s, c) && c.phase == Uploading && BatchFits(n, c.uploaded, c.staged)
    requires d == c.(uploaded := c.uploaded + n)
    ensures Advances(s, MarkUploaded(c, n), c, d)
  {
  }

  lemma ListAdvances(s: State, c: Child, n: nat, d: Child)
    requires Allowed(s, c) && c.phase == Uploading && BatchFits(n, c.listed, c.plan.rows)
    requires c.staged == c.plan.objects && c.uploaded == c.plan.objects
    requires d == c.(listed := c.listed + n)
    ensures Advances(s, StageManifest(c, n), c, d)
  {
  }

  /** The batch an attempt is to send next, and what it leaves. */
  lemma NextBatch(s: State, c: Child) returns (cmd: Command, d: Child)
    requires Allowed(s, c) && Valid(c) && c.phase == Uploading && !CompleteClosure(c)
    ensures Advances(s, cmd, c, d) && !cmd.Retry? && d.phase == Uploading
    ensures 0 <= Unstaged(d) < Unstaged(c)
  {
    if c.staged < c.plan.objects {
      var n := Batch(c.plan.objects - c.staged);
      cmd, d := StageObjects(c, n), c.(staged := c.staged + n);
      StageAdvances(s, c, n, d);
    } else if c.uploaded < c.staged {
      var n := Batch(c.staged - c.uploaded);
      cmd, d := MarkUploaded(c, n), c.(uploaded := c.uploaded + n);
      UploadAdvances(s, c, n, d);
    } else {
      var n := Batch(c.plan.rows - c.listed);
      cmd, d := StageManifest(c, n), c.(listed := c.listed + n);
      ListAdvances(s, c, n, d);
    }
  }

  /** An attempt whose closure is not complete can stage, mark or list one more batch. */
  lemma StagingStep(derive: Derive, s: State, op: Id, c: Child) returns (step: Step, d: Child)
    requires Inv(s) && Focus(s, op, c) && c.phase == Uploading && !CompleteClosure(c)
    ensures Leads(derive, s, op, step, d) && d.plan == c.plan && d.phase == Uploading
    ensures 0 <= Unstaged(d) < Unstaged(c)
  {
    FocusIsAuthority(s, op, c);
    var cmd;
    cmd, d := NextBatch(s, c);
    step := Sent(derive, s, op, cmd, c, d);
  }

  lemma SealingStep(derive: Derive, s: State, op: Id, c: Child) returns (step: Step)
    requires Inv(s) && Focus(s, op, c) && c.phase == Uploading && CompleteClosure(c)
    ensures Leads(derive, s, op, step, c.(phase := Finalizing))
  {
    FocusIsAuthority(s, op, c);
    TransitAdvances(s, c, BeginFinalization);
    step := Sent(derive, s, op, Transit(c, BeginFinalization), c, c.(phase := Finalizing));
  }

  lemma SameReady(s: State, t: State, c: Child, d: Child)
    requires SameRoom(s, t) && d.plan == c.plan
    ensures Ready(t, d) == Ready(s, c)
  {
  }

  /** An attempt of any size that is ready is staged, uploaded, listed and committed. */
  lemma {:induction false} UploadingFinishes(derive: Derive, s: State, op: Id, c: Child, shape: Shape, body: Body)
    returns (more: seq<Step>)
    requires Inv(s) && Focus(s, op, c) && c.phase == Uploading && Ready(s, c) && Shaped(c, shape, body)
    ensures CommitsAs(derive, s, op, shape, body, more)
    decreases Unstaged(c)
  {
    var step, rest;
    if CompleteClosure(c) {
      step := SealingStep(derive, s, op, c);
      SameReady(s, Next(derive, s, step), c, c.(phase := Finalizing));
      rest := FinalizingFinishes(derive, Next(derive, s, step), op, c.(phase := Finalizing), shape, body);
    } else {
      var d;
      step, d := StagingStep(derive, s, op, c);
      SameReady(s, Next(derive, s, step), c, d);
      rest := UploadingFinishes(derive, Next(derive, s, step), op, d, shape, body);
    }
    Continue(derive, s, op, shape, body, step, rest);
    more := [step] + rest;
  }

  // ---------------------------------------------------------------- from a cleaned attempt to a receipt

  /** The plan of a successor that claims the path as it is. */
  ghost function Successor(s: State, p: Parent, shape: Shape): (plan: Plan)
  {
    var claim := if p.path in s.paths then Append(s.paths[p.path].generation, s.paths[p.path].revision) else CreateOnly;
    Plan(shape.id, p.logical, p.attempt + 1, p.payload, p.path, shape.revision, claim, Appended(s, p), s.epoch,
         shape.objects, shape.rows)
  }

  lemma SuccessorGeneration(s: State, p: Parent, shape: Shape)
    ensures NextGeneration(s, Successor(s, p, shape)).Some?
  {
  }

  /** After a cleaned attempt a successor is admitted. */
  lemma SuccessorIsAdmitted(s: State, op: Id, c: Child, shape: Shape)
    requires Focus(s, op, c) && c.phase == Cleaned && c.result.None? && Allowed(s, c) && c.plan.logical == op
    requires Usable(s, s.parents[op], shape) && s.parents[op].logical == op
    ensures var plan := Successor(s, s.parents[op], shape);
            && BeginPublish(s, plan, s.lease + 1).Applied?
            && Admitted(s, BeginPublish(s, plan, s.lease + 1).state, plan, s.lease + 1)
  {
  }

  lemma CleanedStep(derive: Derive, s: State, op: Id, c: Child, shape: Shape) returns (step: Step, d: Child)
    requires Inv(s) && Focus(s, op, c) && c.phase == Cleaned && Usable(s, s.parents[op], shape)
    ensures var t := Next(derive, s, step); Inv(t) && Focus(t, op, d) && t.paths == s.paths
    ensures d.phase == Uploading && Ready(s, d) && Shaped(d, shape, Appended(s, s.parents[op]))
  {
    FocusIsAuthority(s, op, c);
    assert ParentOk(s, op);
    SuccessorIsAdmitted(s, op, c, shape);
    SuccessorGeneration(s, s.parents[op], shape);
    var plan := Successor(s, s.parents[op], shape);
    var q := FreshId(s.recorded.Keys);
    step, d := Send(q, Begin(plan, s.lease + 1)), Fresh(plan, s.lease + 1);
    NextKeepsInv(derive, s, step);
    SubmitApplies(s, q, Begin(plan, s.lease + 1));
    SuccessorInFocus(s, Next(derive, s, step), op, plan, s.lease + 1);
  }

  lemma SuccessorInFocus(s: State, t: State, op: Id, plan: Plan, deadline: nat)
    requires op in s.parents && plan.logical == op
    requires t.parents
             == s.parents[op := Parent(op, plan.payload, plan.path, plan.attempt, plan.id, plan.revision, None)]
    requires t.children == s.children[plan.id := Fresh(plan, deadline)]
    ensures Focus(t, op, Fresh(plan, deadline))
  {
  }

  lemma SamePathsReady(s: State, t: State, c: Child)
    requires t.paths == s.paths
    ensures Ready(t, c) == Ready(s, c)
  {
  }

  lemma CleanedFinishes(derive: Derive, s: State, op: Id, c: Child, shape: Shape) returns (more: seq<Step>)
    requires Inv(s) && Focus(s, op, c) && c.phase == Cleaned && Usable(s, s.parents[op], shape)
    ensures CommitsAs(derive, s, op, shape, Appended(s, s.parents[op]), more)
  {
    var body := Appended(s, s.parents[op]);
    var step, d := CleanedStep(derive, s, op, c, shape);
    SamePathsReady(s, Next(derive, s, step), d);
    var rest := UploadingFinishes(derive, Next(derive, s, step), op, d, shape, body);
    Continue(derive, s, op, shape, body, step, rest);
    more := [step] + rest;
  }

  /** Steps before the successor keep it usable. */
  lemma SameUsable(s: State, t: State, op: Id, shape: Shape)
    requires SameRoom(s, t) && op in s.parents
    ensures t.parents == s.parents
    ensures Usable(t, t.parents[op], shape) == Usable(s, s.parents[op], shape)
    ensures Appended(t, t.parents[op]) == Appended(s, s.parents[op])
  {
  }

  lemma Onward(derive: Derive, s: State, op: Id, shape: Shape, step: Step, rest: seq<Step>)
    requires SameRoom(s, Next(derive, s, step)) && op in s.parents
    requires var t := Next(derive, s, step); CommitsAs(derive, t, op, shape, Appended(t, t.parents[op]), rest)
    ensures CommitsAs(derive, s, op, shape, Appended(s, s.parents[op]), [step] + rest)
  {
    SameUsable(s, Next(derive, s, step), op, shape);
    Continue(derive, s, op, shape, Appended(s, s.parents[op]), step, rest);
  }

  // ---------------------------------------------------------------- down to a cleaned attempt

  ghost function Uncleaned(c: Child): (n: int)
  {
    c.staged - c.cleanedObjects + c.listed - c.cleanedRows
  }

  /** The next command of a cleanup, and what it leaves. */
  lemma NextCleanup(s: State, c: Child) returns (cmd: Command, d: Child)
    requires Allowed(s, c) && Valid(c) && c.phase == Cleaning
    ensures Advances(s, cmd, c, d) && !cmd.Retry?
    ensures d.phase == Cleaned || (d.phase == Cleaning && 0 <= Uncleaned(d) < Uncleaned(c))
  {
    CleanAdvances(s, c);
    if c.cleanedObjects < c.staged {
      cmd, d := CleanObjects(c, 1), c.(cleanedObjects := c.cleanedObjects + 1);
    } else if c.cleanedRows < c.listed {
      cmd, d := CleanRows(c, 1), c.(cleanedRows := c.cleanedRows + 1);
    } else {
      cmd, d := Transit(c, FinishCleanup), c.(phase := Cleaned);
      TransitAdvances(s, c, FinishCleanup);
    }
  }

  lemma CleaningStep(derive: Derive, s: State, op: Id, c: Child) returns (step: Step, d: Child)
    requires Inv(s) && Focus(s, op, c) && c.phase == Cleaning
    ensures Leads(derive, s, op, step, d)
    ensures d.phase == Cleaned || (d.phase == Cleaning && 0 <= Uncleaned(d) < Uncleaned(c))
  {
    FocusIsAuthority(s, op, c);
    var cmd;
    cmd, d := NextCleanup(s, c);
    step := Sent(derive, s, op, cmd, c, d);
  }

  lemma {:induction false} CleaningFinishes(derive: Derive, s: State, op: Id, c: Child, shape: Shape)
    returns (more: seq<Step>)
    requires Inv(s) && Focus(s, op, c) && c.phase == Cleaning
    requires Usable(s, s.parents[op], shape)
    ensures CommitsAs(derive, s, op, shape, Appended(s, s.parents[op]), more)
    decreases Uncleaned(c)
  {
    var step, d := CleaningStep(derive, s, op, c);
    SameUsable(s, Next(derive, s, step), op, shape);
    var rest: seq<Step>;
    if d.phase == Cleaned {
      rest := CleanedFinishes(derive, Next(derive, s, step), op, d, shape);
    } else {
      rest := CleaningFinishes(derive, Next(derive, s, step), op, d, shape);
    }
    Onward(derive, s, op, shape, step, rest);
    more := [step] + rest;
  }

  lemma AbortingStep(derive: Derive, s: State, op: Id, c: Child) returns (step: Step)
    requires Inv(s) && Focus(s, op, c) && c.phase == Aborting
    ensures Leads(derive, s, op, step, c.(phase := Cleaning))
  {
    FocusIsAuthority(s, op, c);
    TransitAdvances(s, c, BeginCleaning);
    step := Sent(derive, s, op, Transit(c, BeginCleaning), c, c.(phase := Cleaning));
  }

  lemma AbortingFinishes(derive: Derive, s: State, op: Id, c: Child, shape: Shape) returns (more: seq<Step>)
    requires Inv(s) && Focus(s, op, c) && c.phase == Aborting
    requires Usable(s, s.parents[op], shape)
    ensures CommitsAs(derive, s, op, shape, Appended(s, s.parents[op]), more)
  {
    var step := AbortingStep(derive, s, op, c);
    SameUsable(s, Next(derive, s, step), op, shape);
    var rest := CleaningFinishes(derive, Next(derive, s, step), op, c.(phase := Cleaning), shape);
    Onward(derive, s, op, shape, step, rest);
    more := [step] + rest;
  }

  lemma QuarantinedStep(derive: Derive, s: State, op: Id, c: Child) returns (step: Step, d: Child)
    requires Inv(s) && Focus(s, op, c) && c.phase == Quarantined
    requires derive(op, Token(s.parents[op], c)) !in s.recorded
    ensures Leads(derive, s, op, step, d) && d.phase == Cleaning
  {
    FocusIsAuthority(s, op, c);
    RetryAdvances(s, op, c);
    var cmd := Retry(op, Token(s.parents[op], c));
    d := c.(phase := Cleaning, retries := c.retries + 1);
    SendAdvances(derive, s, 0, op, cmd, c, d);
    step := Send(0, cmd);
  }

  lemma QuarantinedFinishes(derive: Derive, s: State, op: Id, c: Child, shape: Shape) returns (more: seq<Step>)
    requires Inv(s) && Focus(s, op, c) && c.phase == Quarantined
    requires derive(op, Token(s.parents[op], c)) !in s.recorded
    requires Usable(s, s.parents[op], shape)
    ensures CommitsAs(derive, s, op, shape, Appended(s, s.parents[op]), more)
  {
    var step, d := QuarantinedStep(derive, s, op, c);
    SameUsable(s, Next(derive, s, step), op, shape);
    var rest := CleaningFinishes(derive, Next(derive, s, step), op, d, shape);
    Onward(derive, s, op, shape, step, rest);
    more := [step] + rest;
  }

  // ---------------------------------------------------------------- a live attempt is taken over

  lemma NewOwnerLeads(derive: Derive, s: State, op: Id, c: Child)
    requires Inv(s) && Focus(s, op, c)
    ensures Leads(derive, s, op, NewOwner, c)
  {
    NextKeepsInv(derive, s, NewOwner);
  }

  lemma TakeOverAdvances(s: State, c: Child, failure: Failure) returns (d: Child)
    requires Allowed(s, c) && c.plan.epoch < s.epoch && (c.phase == Uploading || c.phase == Finalizing)
    ensures Advances(s, TakeOver(c, 0, failure), c, d) && d.phase == Aborting
  {
    d := (if c.phase == Uploading then Apply(c, BeginAbort(failure)) else TakeOverFinalization(c, failure)).value;
  }

  lemma TakeOverStep(derive: Derive, s: State, op: Id, c: Child) returns (step: Step, d: Child)
    requires Inv(s) && Focus(s, op, c) && c.plan.epoch < s.epoch && (c.phase == Uploading || c.phase == Finalizing)
    ensures Leads(derive, s, op, step, d) && d.phase == Aborting
  {
    FocusIsAuthority(s, op, c);
    d := TakeOverAdvances(s, c, Failure(0, None));
    step := Sent(derive, s, op, TakeOver(c, 0, Failure(0, None)), c, d);
  }

  lemma {:induction false} LiveFinishes(derive: Derive, s: State, op: Id, c: Child, shape: Shape)
    returns (more: seq<Step>)
    requires Inv(s) && Focus(s, op, c) && (c.phase == Uploading || c.phase == Finalizing)
    requires Usable(s, s.parents[op], shape)
    ensures CommitsAs(derive, s, op, shape, Appended(s, s.parents[op]), more)
    decreases if c.plan.epoch < s.epoch then 0 else c.plan.epoch - s.epoch + 1
  {
    var step, rest;
    if c.plan.epoch < s.epoch {
      var d;
      step, d := TakeOverStep(derive, s, op, c);
      SameUsable(s, Next(derive, s, step), op, shape);
      rest := AbortingFinishes(derive, Next(derive, s, step), op, d, shape);
    } else {
      step := NewOwner;
      NewOwnerLeads(derive, s, op, c);
      SameUsable(s, Next(derive, s, step), op, shape);
      rest := LiveFinishes(derive, Next(derive, s, NewOwner), op, c, shape);
    }
    Onward(derive, s, op, shape, step, rest);
    more := [step] + rest;
  }

  // ---------------------------------------------------------------- the one dead end

  /** The request identity its quarantined state derives was used for something else. */
  ghost predicate Blocked(derive: Derive, s: State, op: Id, c: Child) {
    Focus(s, op, c) && c.phase == Quarantined && derive(op, Token(s.parents[op], c)) in s.recorded
  }

  /** A retry that is carried out names the attempt's exact present state. */
  lemma RetryNamesTheState(s: State, logical: Id, token: Token)
    requires Inv(s) && RetryAppendCleanup(s, logical, token).Applied?
    ensures logical in s.parents && Focus(s, logical, token.child) && token == Token(s.parents[logical], token.child)
  {
    assert ParentOk(s, logical);
  }

  lemma MoveKeepsBlocked(s: State, u: State, op: Id, c: Child, e: Child, d: Child)
    requires Focus(s, op, c) && c.phase == Quarantined && Moved(s, u, e, d) && d.retries == e.retries
    ensures Focus(u, op, c) && u.parents == s.parents
  {
  }

  lemma BeginKeepsBlocked(s: State, u: State, op: Id, c: Child, plan: Plan, deadline: nat)
    requires Focus(s, op, c) && c.phase == Quarantined && Admitted(s, u, plan, deadline)
    ensures Focus(u, op, c) && u.parents[op] == s.parents[op]
  {
  }

  lemma CommitKeepsBlocked(s: State, u: State, op: Id, c: Child, e: Child)
    requires Focus(s, op, c) && c.phase == Quarantined && Committed(s, u, e)
    ensures Focus(u, op, c) && u.parents[op] == s.parents[op]
  {
  }

  lemma ExecutedKeepsBlocked(s: State, op: Id, c: Child, cmd: Command, e: Child, d: Child, u: State, r: Result)
    requires Focus(s, op, c) && c.phase == Quarantined && Executed(s, cmd, e, d, u, r) && !cmd.Retry?
    ensures Focus(u, op, c) && u.parents[op] == s.parents[op]
  {
    if IsMove(cmd) {
      MoveKeepsBlocked(s, u, op, c, e, d);
    } else if cmd.Begin? {
      BeginKeepsBlocked(s, u, op, c, cmd.plan, cmd.deadline);
    } else if cmd.Finalize? {
      CommitKeepsBlocked(s, u, op, c, cmd.expected);
    } else {
      assert Unlinked(s, u, cmd.path, cmd.expectedGeneration);
    }
  }

  /** A cleanup round of another append leaves this one alone. */
  lemma OtherRetryKeepsBlocked(s: State, u: State, op: Id, c: Child, e: Child, d: Child)
    requires Focus(s, op, c) && Moved(s, u, e, d) && e.plan.id != c.plan.id
    ensures Focus(u, op, c) && u.parents == s.parents
  {
  }

  lemma SubmitKeepsBlocked(derive: Derive, s: State, op: Id, c: Child, q: Id, cmd: Command)
    requires Inv(s) && Blocked(derive, s, op, c) && (cmd.Retry? ==> q == derive(cmd.logical, cmd.token))
    ensures Blocked(derive, Submit(s, q, cmd).0, op, c)
  {
    if Submit(s, q, cmd).0 != s {
      var e, d, u, r := StateChanges(s, q, cmd);
      SameRecorded(s, cmd, e, d, u, r);
      if cmd.Retry? {
        RetryNamesTheState(s, cmd.logical, cmd.token);
        FocusIsAuthority(s, cmd.logical, e);
        FocusIsAuthority(s, op, c);
        OtherRetryKeepsBlocked(s, u, op, c, e, d);
      } else {
        ExecutedKeepsBlocked(s, op, c, cmd, e, d, u, r);
      }
    }
  }

  lemma {:induction false} RunKeepsBlocked(derive: Derive, s: State, op: Id, c: Child, more: seq<Step>)
    requires Inv(s) && Blocked(derive, s, op, c)
    ensures Inv(Run(derive, s, more)) && Blocked(derive, Run(derive, s, more), op, c)
  {
    if more != [] {
      var n := |more| - 1;
      var t := Run(derive, s, more[..n]);
      RunKeepsBlocked(derive, s, op, c, more[..n]);
      NextKeepsInv(derive, t, more[n]);
      NextKeepsBlocked(derive, t, op, c, more[n]);
    }
  }

  lemma ClockKeepsBlocked(derive: Derive, s: State, op: Id, c: Child, step: Step)
    requires Blocked(derive, s, op, c) && !step.Send?
    ensures Blocked(derive, Next(derive, s, step), op, c)
  {
  }

  lemma NextKeepsBlocked(derive: Derive, s: State, op: Id, c: Child, step: Step)
    requires Inv(s) && Blocked(derive, s, op, c)
    ensures Blocked(derive, Next(derive, s, step), op, c)
  {
    if step.Send? {
      SubmitKeepsBlocked(derive, s, op, c, RequestOf(derive, step.request, step.command), step.command);
    } else {
      ClockKeepsBlocked(derive, s, op, c, step);
    }
  }

  /** An append that is blocked is so in every later state. */
  lemma BlockedForever(derive: Derive, s: State, t: State, op: Id, c: Child)
    requires Reachable(derive, s) && Later(derive, s, t) && Blocked(derive, s, op, c)
    ensures Blocked(derive, t, op, c)
  {
    ReachableInv(derive, s);
    var more :| t == Run(derive, s, more);
    RunKeepsBlocked(derive, s, op, c, more);
  }

  /** In every reachable state, an append without a receipt can still be driven to commit, whatever was
      lost or aborted on the way, exactly unless its quarantined state derives a used request identity.
      It can then be committed under any unused identities and with any number of objects and manifest
      rows that can carry the body, and what is committed is the live body with the payload behind it. */
  lemma CanFinishUnlessBlocked(derive: Derive, s: State, op: Id)
    requires Reachable(derive, s) && op in s.parents && s.parents[op].result.None?
    ensures s.parents[op].child in s.children
    ensures var blocked := Blocked(derive, s, op, s.children[s.parents[op].child]);
            && ((exists more :: Reaches(derive, s, op, more)) <==> !blocked)
            && (!blocked ==> forall shape :: Usable(s, s.parents[op], shape) ==>
                  exists more :: CommitsAs(derive, s, op, shape, Appended(s, s.parents[op]), more))
  {
    ReachableInv(derive, s);
    assert ParentOk(s, op);
    var c := s.children[s.parents[op].child];
    if Blocked(derive, s, op, c) {
      forall more ensures !Reaches(derive, s, op, more) { RunKeepsBlocked(derive, s, op, c, more); }
    } else {
      forall shape | Usable(s, s.parents[op], shape)
        ensures exists more :: CommitsAs(derive, s, op, shape, Appended(s, s.parents[op]), more)
      {
        var more := Finishes(derive, s, op, c, shape);
      }
      SomeShape(derive, s, op);
    }
  }

  /** There is always a usable shape: fresh identities and one manifest row. */
  lemma SomeShape(derive: Derive, s: State, op: Id)
    requires Inv(s) && op in s.parents
    requires forall shape :: Usable(s, s.parents[op], shape) ==>
               exists more :: CommitsAs(derive, s, op, shape, Appended(s, s.parents[op]), more)
    ensures exists more :: Reaches(derive, s, op, more)
  {
    var id := FreshId(s.children.Keys + s.parents.Keys);
    var revision := FreshId(s.claims.Keys + s.bodies.Keys);
    var shape := Shape(id, revision, 0, 1);
    assert Usable(s, s.parents[op], shape);
    var more :| CommitsAs(derive, s, op, shape, Appended(s, s.parents[op]), more);
    assert Reaches(derive, s, op, more);
  }

  lemma Finishes(derive: Derive, s: State, op: Id, c: Child, shape: Shape) returns (more: seq<Step>)
    requires Inv(s) && Focus(s, op, c) && !Blocked(derive, s, op, c) && Usable(s, s.parents[op], shape)
    ensures CommitsAs(derive, s, op, shape, Appended(s, s.parents[op]), more)
  {
    FocusIsAuthority(s, op, c);
    match c.phase {
      case Aborting => more := AbortingFinishes(derive, s, op, c, shape);
      case Cleaning => more := CleaningFinishes(derive, s, op, c, shape);
      case Cleaned => more := CleanedFinishes(derive, s, op, c, shape);
      case Quarantined => more := QuarantinedFinishes(derive, s, op, c, shape);
      case _ => more := LiveFinishes(derive, s, op, c, shape);
    }
  }

  // ---------------------------------------------------------------- the dead end is reachable

  lemma ReachableNext(derive: Derive, s: State, step: Step)
    requires Reachable(derive, s)
    ensures Reachable(derive, Next(derive, s, step))
  {
    var steps :| s == Run(derive, Initial, steps);
    RunOne(derive, s, step);
    RunAppend(derive, Initial, steps, [step]);
  }

  /** Sends a command that advances the attempt in focus, under an unused request identity. */
  lemma ReachableAdvance(derive: Derive, s: State, op: Id, cmd: Command, c: Child, d: Child) returns (t: State)
    requires Reachable(derive, s) && Focus(s, op, c) && Advances(s, cmd, c, d) && !cmd.Retry?
    ensures Reachable(derive, t) && Focus(t, op, d) && Extends(s, t) && t.epoch == s.epoch
  {
    ReachableInv(derive, s);
    var q := FreshId(s.recorded.Keys);
    SendAdvances(derive, s, q, op, cmd, c, d);
    NextExtends(derive, s, Send(q, cmd));
    ReachableNext(derive, s, Send(q, cmd));
    t := Next(derive, s, Send(q, cmd));
  }

  /** A first admission and a new owner. */
  lemma Admission(derive: Derive) returns (s: State, c: Child)
    ensures Reachable(derive, s) && Focus(s, 1, c) && c.phase == Uploading && c.plan.epoch < s.epoch
    ensures s.lease == 0
  {
    var plan := Plan(2, 1, 0, [], "log", 3, CreateOnly, [], 1, 0, 0);
    c := Fresh(plan, 1);
    var first := Send(0, Begin(plan, 1));
    assert Initial == Run(derive, Initial, []);
    ReachableNext(derive, Initial, first);
    var admitted := Next(derive, Initial, first);
    assert Focus(admitted, 1, c) && admitted.epoch == 1;
    ReachableNext(derive, admitted, NewOwner);
    s := Next(derive, admitted, NewOwner);
  }

  /** Whatever request identities are derived, a run leads to an append that can never be finished: once
      it is quarantined, a request of another append takes the identity its state derives. */
  lemma DeadEndIsReachable(derive: Derive) returns (s: State, c: Child)
    ensures Reachable(derive, s) && Blocked(derive, s, 1, c)
  {
    s, c := Admission(derive);
    s, c := Quarantines(derive, s, 1, c);
    if derive(1, Token(s.parents[1], c)) !in s.recorded {
      s := TakesIdentity(derive, s, 1, c);
    }
  }

  /** Another append is admitted under the request identity a quarantined state derives. */
  lemma TakesIdentity(derive: Derive, s: State, op: Id, c: Child) returns (t: State)
    requires Reachable(derive, s) && Focus(s, op, c) && c.phase == Quarantined
    requires derive(op, Token(s.parents[op], c)) !in s.recorded
    ensures Reachable(derive, t) && Blocked(derive, t, op, c)
  {
    var q := derive(op, Token(s.parents[op], c));
    var id := FreshId(s.children.Keys + s.parents.Keys);
    var revision := FreshId(s.claims.Keys + s.bodies.Keys);
    var plan := Plan(id, id + 1, 0, [], "other", revision, CreateOnly, [], s.epoch, 0, 0);
    FirstIsAdmitted(s, plan);
    var u := BeginPublish(s, plan, s.lease + 1).state;
    BeginKeepsBlocked(s, u, op, c, plan, s.lease + 1);
    var step := Send(q, Begin(plan, s.lease + 1));
    ReachableNext(derive, s, step);
    t := Next(derive, s, step);
  }

  lemma FirstIsAdmitted(s: State, plan: Plan)
    requires PlanFits(plan) && plan.epoch == s.epoch && plan.attempt == 0
    requires plan.id !in s.children && plan.id !in s.parents && plan.revision !in s.claims && plan.revision !in s.bodies
    requires plan.logical !in s.children && plan.logical !in s.parents
    ensures BeginPublish(s, plan, s.lease + 1).Applied?
    ensures Admitted(s, BeginPublish(s, plan, s.lease + 1).state, plan, s.lease + 1)
  {
  }

  lemma Quarantines(derive: Derive, r: State, op: Id, a: Child) returns (s: State, c: Child)
    requires Reachable(derive, r) && Focus(r, op, a) && a.phase == Uploading && a.plan.epoch < r.epoch
    ensures Reachable(derive, s) && Focus(s, op, c) && c.phase == Quarantined && Extends(r, s)
  {
    var aborting, d := TakesOver(derive, r, op, a);
    var cleaning, e := TransitsTo(derive, aborting, op, d, BeginCleaning);
    s, c := TransitsTo(derive, cleaning, op, e, Quarantine(Failure(0, Some(0))));
    ExtendsTrans(r, aborting, cleaning);
    ExtendsTrans(r, cleaning, s);
  }

  lemma TakesOver(derive: Derive, s: State, op: Id, c: Child) returns (t: State, d: Child)
    requires Reachable(derive, s) && Focus(s, op, c) && c.phase == Uploading && c.plan.epoch < s.epoch
    ensures Reachable(derive, t) && Focus(t, op, d) && Extends(s, t) && d.phase == Aborting
  {
    ReachableInv(derive, s);
    FocusIsAuthority(s, op, c);
    d := TakeOverAdvances(s, c, Failure(0, None));
    t := ReachableAdvance(derive, s, op, TakeOver(c, 0, Failure(0, None)), c, d);
  }

  lemma TransitsTo(derive: Derive, s: State, op: Id, c: Child, transition: Transition) returns (t: State, d: Child)
    requires Reachable(derive, s) && Focus(s, op, c) && !transition.Publish? && Apply(c, transition).Some?
    ensures Reachable(derive, t) && Focus(t, op, d) && Extends(s, t) && d == Apply(c, transition).value
  {
    ReachableInv(derive, s);
    FocusIsAuthority(s, op, c);
    TransitAdvances(s, c, transition);
    d := Apply(c, transition).value;
    t := ReachableAdvance(derive, s, op, Transit(c, transition), c, d);
  }
}
