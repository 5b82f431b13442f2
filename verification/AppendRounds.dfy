/** Cleanup rounds: each exact quarantined state is accepted once, and counted once. */
module AppendRounds {
  import opened AppendRecords
  import opened AppendLedger
  import opened AppendInvariant
  import opened AppendPreservation
  import opened AppendTheorems

  /** The attempt is new in `t`: some step from `s` admitted it. */
  ghost predicate AdmittedBy(derive: Derive, s: State, t: State, child: Id) {
    child !in s.children && child in t.children && exists step :: t == Next(derive, s, step)
  }

  /** The retry counter of an attempt is the number of distinct states accepted for it. */
  lemma CounterCountsTokens(derive: Derive, s: State, child: Id)
    requires Reachable(derive, s) && child in s.children
    ensures s.children[child].retries == |Accepted(s.recorded, child)|
  {
    ReachableInv(derive, s);
  }

  /** A first or successor attempt that is admitted has no accepted state yet, and counts zero. */
  lemma SuccessorCountsZero(derive: Derive, s: State, t: State, child: Id)
    requires Reachable(derive, s) && AdmittedBy(derive, s, t, child)
    ensures t.children[child].retries == 0 && Accepted(t.recorded, child) == {}
  {
    ReachableInv(derive, s);
    var step :| t == Next(derive, s, step);
    NewAttemptCountsZero(derive, s, step, child);
  }

  lemma ExecutedAdmission(s: State, cmd: Command, c: Child, d: Child, u: State, r: Result, child: Id)
    requires Executed(s, cmd, c, d, u, r) && child !in s.children && child in u.children
    ensures u.children[child].retries == 0
  {
  }

  lemma SubmitAdmission(s: State, q: Id, cmd: Command, child: Id)
    requires RecordsOk(s) && child !in s.children && child in Submit(s, q, cmd).0.children
    ensures Submit(s, q, cmd).0.children[child].retries == 0
  {
    var c, d, u, r := StateChanges(s, q, cmd);
    ExecutedAdmission(s, cmd, c, d, u, r, child);
  }

  lemma StepAdmission(derive: Derive, s: State, step: Step, child: Id)
    requires RecordsOk(s) && child !in s.children && child in Next(derive, s, step).children
    ensures Next(derive, s, step).children[child].retries == 0
  {
    SubmitAdmission(s, RequestOf(derive, step.request, step.command), step.command, child);
  }

  lemma NoneAccepted(s: State, child: Id)
    requires Inv(s) && child in s.children && s.children[child].retries == 0
    ensures Accepted(s.recorded, child) == {}
  {
    assert |Accepted(s.recorded, child)| == 0;
  }

  lemma NewAttemptCountsZero(derive: Derive, s: State, step: Step, child: Id)
    requires Inv(s) && child !in s.children && child in Next(derive, s, step).children
    ensures var t := Next(derive, s, step); t.children[child].retries == 0 && Accepted(t.recorded, child) == {}
  {
    NextKeepsInv(derive, s, step);
    StepAdmission(derive, s, step, child);
    NoneAccepted(Next(derive, s, step), child);
  }

  /** However often an attempt is quarantined, its present state was never accepted before: a delayed
      old request cannot be taken for a new one. */
  lemma QuarantineTokenIsFresh(derive: Derive, s: State, op: Id)
    requires Reachable(derive, s) && op in s.parents
    ensures var p := s.parents[op];
            p.child in s.children && Token(p, s.children[p.child]) !in Accepted(s.recorded, p.child)
  {
    ReachableInv(derive, s);
    assert ParentOk(s, op);
    AcceptedAreOlder(s, s.parents[op].child);
  }

  /** A cleanup round belongs to a known append and is recorded under the identity its token derives. */
  ghost predicate RoundsKeyed(derive: Derive, s: State) {
    forall q :: q in s.recorded && s.recorded[q].result.CleanupAccepted? ==>
      && s.recorded[q].result.receipt.logical in s.parents
      && q == derive(s.recorded[q].result.receipt.logical, s.recorded[q].result.receipt.token)
  }

  lemma StoredKeyed(derive: Derive, s: State, t: State, q: Id, r: Recorded)
    requires RoundsKeyed(derive, s) && s.parents.Keys <= t.parents.Keys && t.recorded == s.recorded[q := r]
    requires r.result.CleanupAccepted? ==>
               r.result.receipt.logical in t.parents && q == derive(r.result.receipt.logical, r.result.receipt.token)
    ensures RoundsKeyed(derive, t)
  {
  }

  lemma SubmitKeyed(derive: Derive, s: State, q: Id, cmd: Command)
    requires Inv(s) && RoundsKeyed(derive, s) && (cmd.Retry? ==> q == derive(cmd.logical, cmd.token))
    ensures RoundsKeyed(derive, Submit(s, q, cmd).0)
  {
    if Submit(s, q, cmd).0 != s {
      var c, d, u, r := StateChanges(s, q, cmd);
      SameRecorded(s, cmd, c, d, u, r);
      ExecutedExtends(s, cmd, c, d, u, r);
      StoredKeyed(derive, s, Stored(u, q, cmd, r), q, Recorded(cmd, u.version, r));
    }
  }

  lemma NextKeyed(derive: Derive, s: State, step: Step)
    requires Inv(s) && RoundsKeyed(derive, s)
    ensures RoundsKeyed(derive, Next(derive, s, step))
  {
    if step.Send? {
      SubmitKeyed(derive, s, RequestOf(derive, step.request, step.command), step.command);
    }
  }

  lemma {:induction false} RunKeyed(derive: Derive, steps: seq<Step>)
    ensures RoundsKeyed(derive, Run(derive, Initial, steps))
  {
    if steps != [] {
      var n := |steps| - 1;
      RunKeyed(derive, steps[..n]);
      RunsKeepInv(derive, steps[..n]);
      NextKeyed(derive, Run(derive, Initial, steps[..n]), steps[n]);
    }
  }

  lemma ReachableKeyed(derive: Derive, s: State)
    requires Reachable(derive, s)
    ensures RoundsKeyed(derive, s)
  {
    var steps :| s == Run(derive, Initial, steps);
    RunKeyed(derive, steps);
  }

  /** A recorded cleanup round. */
  ghost predicate IsRound(s: State, q: Id) {
    q in s.recorded && s.recorded[q].result.CleanupAccepted?
  }

  /** Each token starts at most one cleanup round. */
  lemma TokenAcceptedOnce(derive: Derive, s: State, q: Id, other: Id)
    requires Reachable(derive, s) && IsRound(s, q) && IsRound(s, other)
    requires s.recorded[q].result.receipt.token == s.recorded[other].result.receipt.token
    ensures q == other
  {
    ReachableKeyed(derive, s);
    ReachableInv(derive, s);
    assert RoundOk(s, s.recorded[q]) && RoundOk(s, s.recorded[other]);
  }

  /** Repeating an accepted token, in any later state, returns its original receipt and changes nothing:
      no counter moves, whether the attempt was quarantined again or a successor has published. */
  lemma AcceptedTokenReplays(derive: Derive, s: State, t: State, q: Id)
    requires Reachable(derive, s) && Later(derive, s, t) && IsRound(s, q)
    ensures var rc := s.recorded[q].result.receipt;
            && Submit(t, derive(rc.logical, rc.token), Retry(rc.logical, rc.token))
               == (t, Done(s.recorded[q].version, CleanupAccepted(rc), true))
            && rc.count == rc.token.child.retries + 1
  {
    ReachableKeyed(derive, s);
    ReachableInv(derive, s);
    LaterExtends(derive, s, t);
    assert RoundOk(s, s.recorded[q]);
    assert t.recorded[q] == s.recorded[q] && s.recorded[q].result.receipt.logical in t.parents;
  }
}
