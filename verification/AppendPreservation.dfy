/** Each kind of step keeps the append invariant, so every run does. */
module AppendPreservation {
  import opened Optional
  import opened AppendRecords
  import opened AppendLedger
  import opened AppendInvariant

  // ---------------------------------------------------------------- one attempt moves

  lemma MovedChild(s: State, t: State, c: Child, d: Child, id: Id)
    requires RecordsOk(s) && Moved(s, t, c, d) && id in t.children
    ensures ChildOk(t, id)
  {
    assert ChildOk(s, id);
  }

  lemma MovedRevision(s: State, t: State, c: Child, d: Child, id: Id)
    requires RecordsOk(s) && Moved(s, t, c, d) && id in t.children
    ensures RevisionOk(t, id)
  {
    assert RevisionOk(s, id);
  }

  lemma MovedParent(s: State, t: State, c: Child, d: Child, op: Id)
    requires RecordsOk(s) && Moved(s, t, c, d) && op in t.parents
    ensures ParentOk(t, op)
  {
    assert ParentOk(s, op);
    assert ParentOk(s, c.plan.logical);
  }

  lemma MovedRecords(s: State, t: State, c: Child, d: Child)
    requires RecordsOk(s) && Moved(s, t, c, d)
    ensures RecordsOk(t)
  {
    forall id | id in t.children ensures ChildOk(t, id) { MovedChild(s, t, c, d, id); }
    forall id | id in t.children ensures RevisionOk(t, id) { MovedRevision(s, t, c, d, id); }
    forall op | op in t.parents ensures ParentOk(t, op) { MovedParent(s, t, c, d, op); }
  }

  lemma MovedRevisions(s: State, t: State, c: Child, d: Child)
    requires RevisionsDistinct(s) && Moved(s, t, c, d)
    ensures RevisionsDistinct(t)
  {
  }

  lemma MovedLog(s: State, t: State, c: Child, d: Child)
    requires LogOk(s) && Moved(s, t, c, d)
    ensures LogOk(t)
  {
    forall i | 0 <= i < |t.log| ensures EventOk(t, t.log[i]) {
      assert EventOk(s, s.log[i]);
    }
  }

  lemma SamePaths(s: State, t: State)
    requires PathsOk(s) && t.paths == s.paths && t.bodies == s.bodies && t.log == s.log
    ensures PathsOk(t)
  {
    forall path: Path ensures PathOk(t, path) {
      assert PathOk(s, path);
    }
  }

  // ---------------------------------------------------------------- an attempt is admitted

  lemma AdmittedPredecessor(s: State, t: State, plan: Plan, deadline: nat)
    requires RecordsOk(s) && Admitted(s, t, plan, deadline) && plan.logical in s.parents
    ensures var p := s.parents[plan.logical]; p.child in s.children && s.children[p.child].phase == Cleaned
  {
    assert ParentOk(s, plan.logical);
  }

  lemma AdmittedChild(s: State, t: State, plan: Plan, deadline: nat, id: Id)
    requires RecordsOk(s) && Admitted(s, t, plan, deadline) && id in t.children
    ensures ChildOk(t, id)
  {
    if id != plan.id {
      assert ChildOk(s, id);
      if s.children[id].plan.logical == plan.logical {
        AdmittedPredecessor(s, t, plan, deadline);
        assert s.children[id].phase == Cleaned;
      }
    }
  }

  lemma AdmittedParents(s: State, t: State, plan: Plan, deadline: nat)
    requires RecordsOk(s) && Admitted(s, t, plan, deadline)
    ensures ParentsOk(t)
  {
    forall op | op in t.parents ensures ParentOk(t, op) {
      if op in s.parents { assert ParentOk(s, op); }
    }
  }

  lemma AdmittedReservations(s: State, t: State, plan: Plan, deadline: nat)
    requires RevisionsOk(s) && Admitted(s, t, plan, deadline)
    ensures RevisionsOk(t)
  {
    forall id | id in t.children ensures RevisionOk(t, id) {
      if id != plan.id { assert RevisionOk(s, id); }
    }
  }

  lemma AdmittedRecords(s: State, t: State, plan: Plan, deadline: nat)
    requires RecordsOk(s) && Admitted(s, t, plan, deadline)
    ensures RecordsOk(t)
  {
    forall id | id in t.children ensures ChildOk(t, id) {
      AdmittedChild(s, t, plan, deadline, id);
    }
    AdmittedParents(s, t, plan, deadline);
    AdmittedReservations(s, t, plan, deadline);
  }

  lemma AdmittedRevisions(s: State, t: State, plan: Plan, deadline: nat)
    requires RecordsOk(s) && RevisionsDistinct(s) && Admitted(s, t, plan, deadline)
    ensures RevisionsDistinct(t)
  {
    forall id | id in s.children ensures s.children[id].plan.revision != plan.revision {
      assert RevisionOk(s, id);
    }
  }

  lemma AdmittedLog(s: State, t: State, plan: Plan, deadline: nat)
    requires RecordsOk(s) && LogOk(s) && Admitted(s, t, plan, deadline)
    ensures LogOk(t)
  {
    forall i | 0 <= i < |t.log| ensures EventOk(t, t.log[i]) {
      assert EventOk(s, s.log[i]);
    }
  }

  // ---------------------------------------------------------------- an attempt publishes

  lemma CommittedChild(s: State, t: State, c: Child, id: Id)
    requires Committed(s, t, c) && id in s.children && ChildOk(s, id) && ParentOk(s, c.plan.logical)
    ensures ChildOk(t, id)
  {
  }

  lemma CommittedRevision(s: State, t: State, c: Child, id: Id)
    requires Committed(s, t, c) && id in s.children && RevisionOk(s, id) && ChildOk(s, id)
    requires id != c.plan.id ==> s.children[id].plan.revision != c.plan.revision
    ensures RevisionOk(t, id)
  {
  }

  lemma CommittedParent(s: State, t: State, c: Child, op: Id)
    requires Committed(s, t, c) && op in s.parents && ParentOk(s, op) && ChildOk(s, c.plan.id)
    requires s.parents[op].child in s.children && ChildOk(s, s.parents[op].child)
    ensures ParentOk(t, op)
  {
  }

  lemma CommittedChildren(s: State, t: State, c: Child)
    requires ChildrenOk(s) && Committed(s, t, c) && ParentOk(s, c.plan.logical)
    ensures ChildrenOk(t)
  {
    forall id | id in t.children ensures ChildOk(t, id) { CommittedChild(s, t, c, id); }
  }

  lemma CommittedParents(s: State, t: State, c: Child)
    requires ChildrenOk(s) && ParentsOk(s) && Committed(s, t, c)
    ensures ParentsOk(t)
  {
    forall op | op in t.parents ensures ParentOk(t, op) {
      assert ParentOk(s, op);
      CommittedParent(s, t, c, op);
    }
  }

  lemma CommittedRevisions(s: State, t: State, c: Child)
    requires ChildrenOk(s) && RevisionsOk(s) && RevisionsDistinct(s) && Committed(s, t, c)
    ensures RevisionsOk(t)
  {
    forall id | id in t.children ensures RevisionOk(t, id) { CommittedRevision(s, t, c, id); }
  }

  lemma CommittedDistinct(s: State, t: State, c: Child)
    requires RevisionsDistinct(s) && Committed(s, t, c)
    ensures RevisionsDistinct(t)
  {
  }

  lemma CommittedEvents(s: State, t: State, c: Child)
    requires EventsOk(s) && Committed(s, t, c) && ParentOk(s, c.plan.logical)
    ensures EventsOk(t)
  {
    forall i | 0 <= i < |t.log| ensures EventOk(t, t.log[i]) {
      if i < |s.log| { assert EventOk(s, s.log[i]); }
    }
  }

  lemma CommittedOnce(s: State, t: State, c: Child)
    requires EventsOk(s) && EventsDistinct(s.log) && Committed(s, t, c)
    ensures EventsDistinct(t.log)
  {
    forall i | 0 <= i < |s.log| && s.log[i].ArtifactPublished? ensures s.log[i].logical != c.plan.logical {
      assert EventOk(s, s.log[i]);
    }
  }

  lemma CommittedReceipts(s: State, t: State, c: Child)
    requires ReceiptsLogged(s) && Committed(s, t, c)
    ensures ReceiptsLogged(t)
  {
    var n := |s.log|;
    forall op | op in t.parents && t.parents[op].result.Some? ensures InLog(t.log, op) {
      if op == c.plan.logical {
        assert t.log[n].ArtifactPublished? && t.log[n].logical == op;
      } else {
        LongerLog(s.log, t.log[n], op);
      }
    }
  }

  lemma LongerLog(log: seq<Event>, e: Event, op: Id)
    requires InLog(log, op)
    ensures InLog(log + [e], op)
  {
    var i :| 0 <= i < |log| && log[i].ArtifactPublished? && log[i].logical == op;
    assert (log + [e])[i] == log[i];
  }

  lemma CommittedLog(s: State, t: State, c: Child)
    requires LogOk(s) && Committed(s, t, c) && ParentOk(s, c.plan.logical)
    ensures LogOk(t)
  {
    CommittedEvents(s, t, c);
    CommittedOnce(s, t, c);
    CommittedReceipts(s, t, c);
  }

  /** What one more event does to a path's segment. */
  lemma SegmentStep(log: seq<Event>, e: Event, path: Path)
    ensures Segment(log + [e], path) ==
            if e.path != path then Segment(log, path)
            else if e.ArtifactRemoved? then []
            else Segment(log, path) + [e]
  {
    assert (log + [e])[..|log + [e]| - 1] == log;
  }

  lemma CommittedPath(s: State, t: State, c: Child, path: Path)
    requires Committed(s, t, c) && PathOk(s, path)
    ensures PathOk(t, path)
  {
    var e := t.log[|s.log|];
    SegmentStep(s.log, e, path);
    assert t.log == s.log + [e];
    var before, after := Segment(s.log, path), Segment(t.log, path);
    if path == c.plan.path {
      assert after == before + [e];
      assert e.receipt.generation == |before| + 1;
    }
  }

  lemma CommittedPaths(s: State, t: State, c: Child)
    requires PathsOk(s) && Committed(s, t, c)
    ensures PathsOk(t)
  {
    forall path: Path ensures PathOk(t, path) {
      CommittedPath(s, t, c, path);
    }
  }

  lemma UnlinkedLog(s: State, t: State, path: Path, g: nat)
    requires LogOk(s) && Unlinked(s, t, path, g)
    ensures LogOk(t)
  {
    forall i | 0 <= i < |t.log| ensures EventOk(t, t.log[i]) {
      if i < |s.log| { assert EventOk(s, s.log[i]); }
    }
    forall op | op in t.parents && t.parents[op].result.Some? ensures InLog(t.log, op) {
      LongerLog(s.log, ArtifactRemoved(path), op);
    }
  }

  lemma UnlinkedPaths(s: State, t: State, path: Path, g: nat)
    requires PathsOk(s) && Unlinked(s, t, path, g)
    ensures PathsOk(t)
  {
    forall q: Path ensures PathOk(t, q) {
      assert PathOk(s, q);
      SegmentStep(s.log, ArtifactRemoved(path), q);
    }
  }

  lemma SameRecords(s: State, t: State)
    requires RecordsOk(s) && RevisionsDistinct(s)
    requires t.parents == s.parents && t.children == s.children && t.bodies == s.bodies && t.claims == s.claims
    ensures RecordsOk(t) && RevisionsDistinct(t)
  {
    forall id | id in t.children ensures ChildOk(t, id) && RevisionOk(t, id) {
      assert ChildOk(s, id) && RevisionOk(s, id);
    }
    forall op | op in t.parents ensures ParentOk(t, op) {
      assert ParentOk(s, op);
    }
  }

  lemma SameLog(s: State, t: State)
    requires LogOk(s) && t.parents == s.parents && t.log == s.log
    ensures LogOk(t)
  {
    forall i | 0 <= i < |t.log| ensures EventOk(t, t.log[i]) {
      assert EventOk(s, s.log[i]);
    }
  }

  // ---------------------------------------------------------------- cleanup rounds

  lemma RecordOther(recorded: map<Id, Recorded>, q: Id, r: Recorded, child: Id)
    requires q !in recorded
    requires !(r.result.CleanupAccepted? && r.result.receipt.child == child)
    ensures Accepted(recorded[q := r], child) == Accepted(recorded, child)
  {
    var after := recorded[q := r];
    forall x | x in after.Values && x != r ensures x in recorded.Values {
      var k :| k in after && after[k] == x;
      assert recorded[k] == x;
    }
    forall x | x in recorded.Values ensures x in after.Values {
      var k :| k in recorded && recorded[k] == x;
      assert after[k] == x;
    }
  }

  lemma RecordRound(recorded: map<Id, Recorded>, q: Id, r: Recorded)
    requires q !in recorded && r.result.CleanupAccepted?
    ensures Accepted(recorded[q := r], r.result.receipt.child)
            == Accepted(recorded, r.result.receipt.child) + {r.result.receipt.token}
  {
    var after := recorded[q := r];
    assert after[q] == r;
    forall x | x in after.Values && x != r ensures x in recorded.Values {
      var k :| k in after && after[k] == x;
      assert recorded[k] == x;
    }
    forall x | x in recorded.Values ensures x in after.Values {
      var k :| k in recorded && recorded[k] == x;
      assert after[k] == x;
    }
  }

  /** Every accepted state is older than the attempt is now: it had seen fewer cleanup rounds. */
  lemma AcceptedAreOlder(s: State, child: Id)
    requires TokensOk(s)
    ensures forall token :: token in Accepted(s.recorded, child) ==>
              child in s.children && token.child.retries < s.children[child].retries
  {
    forall token | token in Accepted(s.recorded, child)
      ensures child in s.children && token.child.retries < s.children[child].retries
    {
      var r :| r in s.recorded.Values && r.result.CleanupAccepted? && r.result.receipt.child == child
               && r.result.receipt.token == token;
      var q :| q in s.recorded && s.recorded[q] == r;
      assert RoundOk(s, s.recorded[q]);
    }
  }

  /** No attempt's count of cleanup rounds changed, and new attempts start at zero. */
  ghost predicate RetriesKept(s: State, t: State) {
    && s.children.Keys <= t.children.Keys
    && forall id :: id in t.children ==>
         t.children[id].retries == if id in s.children then s.children[id].retries else 0
  }

  /** A command that accepts no cleanup round keeps the count of every attempt. */
  lemma QuietTokens(s: State, t: State, q: Id, r: Recorded)
    requires TokensOk(s) && q !in s.recorded && !r.result.CleanupAccepted?
    requires t.recorded == s.recorded[q := r] && RetriesKept(s, t)
    ensures TokensOk(t)
  {
    forall k | k in t.recorded ensures RoundOk(t, t.recorded[k]) {
      if k != q { assert RoundOk(s, s.recorded[k]); }
    }
    forall id: Id ensures |Accepted(t.recorded, id)| == if id in t.children then t.children[id].retries else 0 {
      RecordOther(s.recorded, q, r, id);
    }
  }

  /** Cleanup receipt `rc` accepts the quarantined state its attempt is in now. */
  ghost predicate AcceptsCurrent(s: State, rc: CleanupReceipt) {
    && rc.child in s.children
    && rc.token.child == s.children[rc.child]
    && rc.token.child.plan.id == rc.child
    && rc.token.child.phase == Quarantined
    && rc.token.parent.logical == rc.logical
    && rc.count == rc.token.child.retries + 1
  }

  lemma RoundRounds(s: State, t: State, q: Id, r: Recorded, d: Child)
    requires RoundsOk(s) && r.result.CleanupAccepted? && AcceptsCurrent(s, r.result.receipt)
    requires d.plan.id == r.result.receipt.child && d.retries == r.result.receipt.count
    requires r.command == Retry(r.result.receipt.logical, r.result.receipt.token)
    requires t.recorded == s.recorded[q := r] && t.children == s.children[d.plan.id := d]
    ensures RoundsOk(t)
  {
    forall k | k in t.recorded ensures RoundOk(t, t.recorded[k]) {
      if k != q { assert RoundOk(s, s.recorded[k]); }
    }
  }

  lemma RoundCounts(s: State, t: State, q: Id, r: Recorded, d: Child)
    requires TokensOk(s) && q !in s.recorded && r.result.CleanupAccepted? && AcceptsCurrent(s, r.result.receipt)
    requires d.plan.id == r.result.receipt.child && d.retries == r.result.receipt.count
    requires t.recorded == s.recorded[q := r] && t.children == s.children[d.plan.id := d]
    ensures CountsOk(t)
  {
    var child, token := d.plan.id, r.result.receipt.token;
    AcceptedAreOlder(s, child);
    RecordRound(s.recorded, q, r);
    assert token !in Accepted(s.recorded, child);
    forall id: Id ensures |Accepted(t.recorded, id)| == if id in t.children then t.children[id].retries else 0 {
      if id != child { RecordOther(s.recorded, q, r, id); }
    }
  }

  // ---------------------------------------------------------------- every step

  ghost predicate Core(s: State) {
    RecordsOk(s) && RevisionsDistinct(s) && LogOk(s) && PathsOk(s)
  }

  lemma CoreFrame(s: State, t: State)
    requires Core(s)
    requires t.parents == s.parents && t.children == s.children && t.bodies == s.bodies && t.claims == s.claims
    requires t.paths == s.paths && t.log == s.log
    ensures Core(t)
  {
    SameRecords(s, t);
    SameLog(s, t);
    SamePaths(s, t);
  }

  lemma MovedRetries(s: State, u: State, c: Child, d: Child)
    requires Moved(s, u, c, d) && d.retries == c.retries
    ensures RetriesKept(s, u)
  {
  }

  lemma MovedCore(s: State, u: State, c: Child, d: Child)
    requires Core(s) && Moved(s, u, c, d)
    ensures Core(u)
    ensures d.retries == c.retries ==> RetriesKept(s, u)
  {
    if d.retries == c.retries { MovedRetries(s, u, c, d); }
    MovedRecords(s, u, c, d);
    MovedRevisions(s, u, c, d);
    MovedLog(s, u, c, d);
    SamePaths(s, u);
  }

  lemma AdmittedRetries(s: State, u: State, plan: Plan, deadline: nat)
    requires Admitted(s, u, plan, deadline)
    ensures RetriesKept(s, u)
  {
  }

  lemma CommittedRetries(s: State, u: State, c: Child)
    requires Committed(s, u, c)
    ensures RetriesKept(s, u)
  {
  }

  lemma AdmittedCore(s: State, u: State, plan: Plan, deadline: nat)
    requires Core(s) && Admitted(s, u, plan, deadline)
    ensures Core(u) && RetriesKept(s, u)
  {
    AdmittedRetries(s, u, plan, deadline);
    AdmittedRecords(s, u, plan, deadline);
    AdmittedRevisions(s, u, plan, deadline);
    AdmittedLog(s, u, plan, deadline);
    SamePaths(s, u);
  }

  lemma FinalizeCore(s: State, u: State, c: Child)
    requires Core(s) && Committed(s, u, c)
    ensures Core(u) && RetriesKept(s, u)
  {
    CommittedRetries(s, u, c);
    assert ParentOk(s, c.plan.logical);
    CommittedChildren(s, u, c);
    CommittedParents(s, u, c);
    CommittedRevisions(s, u, c);
    CommittedDistinct(s, u, c);
    CommittedLog(s, u, c);
    CommittedPaths(s, u, c);
  }

  lemma RemoveCore(s: State, u: State, path: Path, g: nat)
    requires Core(s) && Unlinked(s, u, path, g)
    ensures Core(u) && RetriesKept(s, u)
  {
    SameRecords(s, u);
    UnlinkedLog(s, u, path, g);
    UnlinkedPaths(s, u, path, g);
  }

  /** The accepted cleanup round a retry command records. */
  ghost predicate Rounded(s: State, logical: Id, token: Token, r: Result) {
    && r.CleanupAccepted?
    && var rc := r.receipt;
    && rc.logical == logical && rc.token == token && AcceptsCurrent(s, rc)
  }

  /** What an applied command that changed the state did; a move took attempt `c` to `d`. */
  ghost predicate Executed(s: State, cmd: Command, c: Child, d: Child, u: State, r: Result) {
    if IsMove(cmd) then
      && Moved(s, u, c, d) && c == Before(cmd)
      && (cmd.Retry? ==> Rounded(s, cmd.logical, cmd.token, r) && d.retries == c.retries + 1)
      && (!cmd.Retry? ==> !r.CleanupAccepted? && d.retries == c.retries)
    else
      && !r.CleanupAccepted?
      && (cmd.Begin? ==> Admitted(s, u, cmd.plan, cmd.deadline))
      && (cmd.Finalize? ==> Committed(s, u, cmd.expected))
      && (cmd.Remove? ==> Unlinked(s, u, cmd.path, cmd.expectedGeneration))
  }

  lemma RetryExecuted(s: State, logical: Id, token: Token)
    requires RecordsOk(s) && RetryAppendCleanup(s, logical, token).Applied?
    ensures Rounded(s, logical, token, RetryAppendCleanup(s, logical, token).result)
  {
    assert ParentOk(s, logical);
    assert ChildOk(s, s.parents[logical].child);
  }

  lemma BeginExecuted(s: State, plan: Plan, deadline: nat)
    requires BeginPublish(s, plan, deadline).Applied? && BeginPublish(s, plan, deadline).state.version != s.version
    ensures Admitted(s, BeginPublish(s, plan, deadline).state, plan, deadline)
    ensures !BeginPublish(s, plan, deadline).result.CleanupAccepted?
  {
  }

  lemma MoveExecuted(s: State, cmd: Command)
    requires RecordsOk(s) && IsMove(cmd) && Execute(s, cmd).Applied? && !cmd.Retry?
    ensures After(cmd).Some?
    ensures Executed(s, cmd, Before(cmd), After(cmd).value, Execute(s, cmd).state, Execute(s, cmd).result)
  {
    Moves(s, cmd);
  }

  lemma RoundExecuted(s: State, cmd: Command)
    requires RecordsOk(s) && cmd.Retry? && Execute(s, cmd).Applied?
    ensures After(cmd).Some?
    ensures Executed(s, cmd, Before(cmd), After(cmd).value, Execute(s, cmd).state, Execute(s, cmd).result)
  {
    Moves(s, cmd);
    RetryExecuted(s, cmd.logical, cmd.token);
  }

  lemma OtherExecuted(s: State, cmd: Command, c: Child)
    requires !IsMove(cmd) && Execute(s, cmd).Applied? && Execute(s, cmd).state.version != s.version
    ensures Executed(s, cmd, c, c, Execute(s, cmd).state, Execute(s, cmd).result)
  {
    match cmd {
      case Begin(plan, deadline) => BeginExecuted(s, plan, deadline);
      case Finalize(e) => FinalizeExecuted(s, e);
      case Remove(path, g) =>
    }
  }

  lemma ExecuteIsExecuted(s: State, cmd: Command) returns (c: Child, d: Child)
    requires RecordsOk(s) && Execute(s, cmd).Applied? && Execute(s, cmd).state.version != s.version
    ensures Executed(s, cmd, c, d, Execute(s, cmd).state, Execute(s, cmd).result)
  {
    if cmd.Retry? {
      RoundExecuted(s, cmd);
      c, d := Before(cmd), After(cmd).value;
    } else if IsMove(cmd) {
      MoveExecuted(s, cmd);
      c, d := Before(cmd), After(cmd).value;
    } else {
      c := Fresh(Plan(0, 0, 0, [], "", 0, CreateOnly, [], 0, 0, 0), 0);
      OtherExecuted(s, cmd, c);
      d := c;
    }
  }

  lemma FinalizeExecuted(s: State, c: Child)
    requires FinalizePublish(s, c).Applied?
    ensures Committed(s, FinalizePublish(s, c).state, c)
    ensures FinalizePublish(s, c).result == ChildIs(c.(phase := Published, result := Some(ReceiptFor(s, c))))
  {
  }

  /** An applied command keeps the records, the log and the paths, and counts rounds only for a retry. */
  lemma ExecutedCore(s: State, cmd: Command, c: Child, d: Child, u: State, r: Result)
    requires Core(s) && Executed(s, cmd, c, d, u, r)
    ensures Core(u)
    ensures !cmd.Retry? ==> RetriesKept(s, u)
  {
    if IsMove(cmd) {
      MovedCore(s, u, c, d);
    } else if cmd.Begin? {
      AdmittedCore(s, u, cmd.plan, cmd.deadline);
    } else if cmd.Finalize? {
      FinalizeCore(s, u, cmd.expected);
    } else {
      RemoveCore(s, u, cmd.path, cmd.expectedGeneration);
    }
  }

  ghost function Stored(u: State, q: Id, cmd: Command, r: Result): (t: State)
  {
    u.(recorded := u.recorded[q := Recorded(cmd, u.version, r)])
  }

  lemma SameRecorded(s: State, cmd: Command, c: Child, d: Child, u: State, r: Result)
    requires Executed(s, cmd, c, d, u, r)
    ensures u.recorded == s.recorded
  {
  }

  lemma ExecutedTokens(s: State, q: Id, cmd: Command, c: Child, d: Child, u: State, r: Result)
    requires Core(s) && TokensOk(s) && q !in s.recorded && Executed(s, cmd, c, d, u, r)
    ensures TokensOk(Stored(u, q, cmd, r))
  {
    SameRecorded(s, cmd, c, d, u, r);
    var t := Stored(u, q, cmd, r);
    if cmd.Retry? {
      RoundRounds(s, t, q, t.recorded[q], d);
      RoundCounts(s, t, q, t.recorded[q], d);
    } else {
      ExecutedCore(s, cmd, c, d, u, r);
      QuietTokens(s, t, q, t.recorded[q]);
    }
  }

  lemma StoredKeepsInv(s: State, q: Id, cmd: Command, c: Child, d: Child, u: State, r: Result)
    requires Inv(s) && q !in s.recorded && Executed(s, cmd, c, d, u, r)
    ensures Inv(Stored(u, q, cmd, r))
  {
    ExecutedCore(s, cmd, c, d, u, r);
    CoreFrame(u, Stored(u, q, cmd, r));
    ExecutedTokens(s, q, cmd, c, d, u, r);
  }

  /** A request changes the state only by executing a command and recording its result. */
  lemma StateChanges(s: State, q: Id, cmd: Command) returns (c: Child, d: Child, u: State, r: Result)
    requires RecordsOk(s) && Submit(s, q, cmd).0 != s
    ensures q !in s.recorded && Executed(s, cmd, c, d, u, r)
    ensures Submit(s, q, cmd).0 == Stored(u, q, cmd, r)
    ensures Submit(s, q, cmd).1 == Done(u.version, r, false)
  {
    u, r := Execute(s, cmd).state, Execute(s, cmd).result;
    assert u.version != s.version by {
      if u.version == s.version { ReplayOnly(s, cmd); }
    }
    c, d := ExecuteIsExecuted(s, cmd);
  }

  /** Only the replay of an admission is applied without a new version, and it changes nothing. */
  lemma ReplayOnly(s: State, cmd: Command)
    requires Execute(s, cmd).Applied? && Execute(s, cmd).state.version == s.version
    ensures cmd.Begin? && Execute(s, cmd).state == s
  {
  }

  lemma NextKeepsInv(derive: Derive, s: State, step: Step)
    requires Inv(s)
    ensures Inv(Next(derive, s, step))
  {
    if step.Send? {
      SubmitKeepsInv(s, RequestOf(derive, step.request, step.command), step.command);
    } else {
      ClockKeepsInv(s, Next(derive, s, step));
    }
  }

  lemma ClockKeepsInv(s: State, t: State)
    requires Inv(s) && t == s.(epoch := t.epoch, lease := t.lease)
    ensures Inv(t)
  {
    CoreFrame(s, t);
    forall k | k in t.recorded ensures RoundOk(t, t.recorded[k]) { assert RoundOk(s, s.recorded[k]); }
  }

  lemma SubmitKeepsInv(s: State, q: Id, cmd: Command)
    requires Inv(s)
    ensures Inv(Submit(s, q, cmd).0)
  {
    if Submit(s, q, cmd).0 != s {
      var c, d, u, r := StateChanges(s, q, cmd);
      StoredKeepsInv(s, q, cmd, c, d, u, r);
    }
  }

  /** Every state the service can reach is good, whatever clients send and however requests collide. */
  lemma {:induction false} RunsKeepInv(derive: Derive, steps: seq<Step>)
    ensures Inv(Run(derive, Initial, steps))
  {
    if steps == [] {
      forall path: Path ensures PathOk(Initial, path) {}
      forall id: Id ensures Accepted(Initial.recorded, id) == {} {}
    } else {
      RunsKeepInv(derive, steps[..|steps| - 1]);
      NextKeepsInv(derive, Run(derive, Initial, steps[..|steps| - 1]), steps[|steps| - 1]);
    }
  }
}
