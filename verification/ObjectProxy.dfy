/** The object-store fault proxy: a one-shot rule that fires after a real provider success, a rejection
    filter, and one PUT held back until it is released; one handler thread per request. */
module ObjectProxy {
  import opened Optional
  import opened Text

  datatype Action = DropSuccess | CorruptBody | Read503 | SealAckLossHeadFailure | HoldSealSuccess

  /** A fault to inject once; `id` numbers the assignments to `rule`, an empty suffix means any path. */
  datatype Rule = Rule(id: nat, verb: string, action: Action, suffix: string)

  datatype Reject = Reject(verb: string, part: string)

  /** `emptyBody` and `ifMatch` are the two headers a seal is recognised by. */
  datatype Request = Request(verb: string, path: string, emptyBody: bool, ifMatch: bool)

  datatype Fault = Fault(rule: Rule, request: Request, status: nat)

  datatype Fields = Fields(
    rule: Option<Rule>, holdPut: bool, release: bool, reject: Option<Reject>,
    fired: seq<Fault>, rejected: seq<Request>)

  // ---------------------------------------------------------------- the regions under the lock

  predicate Contains(text: string, part: string) {
    exists i :: 0 <= i <= |text| && part <= text[i..]
  }

  predicate IsArtifact(r: Request) {
    Contains(r.path, "/nokv/artifacts/")
  }

  predicate IsSeal(a: Action) {
    a == SealAckLossHeadFailure || a == HoldSealSuccess
  }

  predicate Rejects(f: Fields, r: Request) {
    f.reject.Some? && r.verb == f.reject.value.verb && Contains(r.path, f.reject.value.part)
  }

  predicate Holds(f: Fields, r: Request) {
    f.holdPut && r.verb == "PUT" && IsArtifact(r)
  }

  /** The rule selects a provider reply: a success to a matching artifact request. */
  predicate Selects(rule: Rule, r: Request, status: nat) {
    && r.verb == rule.verb
    && IsArtifact(r)
    && 200 <= status < 300
    && EndsWith(r.path, rule.suffix)
    && (IsSeal(rule.action) ==> r.emptyBody && r.ifMatch)
  }

  predicate Claims(f: Fields, r: Request, status: nat) {
    f.rule.Some? && Selects(f.rule.value, r, status)
  }

  function Claimed(f: Fields, r: Request, status: nat): (g: Fields)
  {
    if !Claims(f, r, status) then f
    else if f.rule.value.action == SealAckLossHeadFailure
    then f.(rule := None, reject := Some(Reject("HEAD", r.path)))
    else f.(rule := None)
  }

  function WithRejected(f: Fields, r: Request): (g: Fields)
  {
    f.(rejected := f.rejected + [r])
  }

  function WithFault(f: Fields, fault: Fault): (g: Fields)
  {
    f.(fired := f.fired + [fault])
  }

  function ProviderReleased(f: Fields): (g: Fields)
  {
    f.(reject := None, rule := None)
  }

  class FaultProxy {
    var rule: Option<Rule>
    var holdPut: bool
    var release: bool
    var reject: Option<Reject>
    var fired: seq<Fault>
    var rejected: seq<Request>

    ghost function View(): (f: Fields)
      reads this
    {
      Fields(rule, holdPut, release, reject, fired, rejected)
    }

    constructor ()
      ensures View() == Fields(None, false, false, None, [], [])
    {
      rule, holdPut, release, reject, fired, rejected := None, false, false, None, [], [];
    }

    method Arm(next: Rule) returns (before: Option<nat>)
      modifies this
      ensures View() == if old(rule).Some? then old(View()) else old(View()).(rule := Some(next))
      ensures before == if old(rule).Some? then None else Some(|old(fired)|)
    {
      if rule.Some? {
        return None;
      }
      rule := Some(next);
      return Some(|fired|);
    }

    method CheckReject(r: Request) returns (refused: bool)
      ensures refused == Rejects(View(), r)
    {
      refused := false;
      if reject.Some? && r.verb == reject.value.verb {
        refused := Contains(r.path, reject.value.part);
      }
    }

    method RecordRejected(r: Request)
      modifies this
      ensures View() == WithRejected(old(View()), r)
    {
      rejected := rejected + [r];
    }

    method TakeHold(r: Request) returns (held: bool)
      modifies this
      ensures held == Holds(old(View()), r)
      ensures View() == old(View()).(holdPut := old(holdPut) && !held)
    {
      held := holdPut && r.verb == "PUT" && IsArtifact(r);
      if held {
        holdPut := false;
      }
    }

    method Claim(r: Request, status: nat) returns (taken: Option<Rule>)
      modifies this
      ensures View() == Claimed(old(View()), r, status)
      ensures taken == if Claims(old(View()), r, status) then old(rule) else None
    {
      taken := None;
      if rule.Some? && Selects(rule.value, r, status) {
        taken, rule := rule, None;
        if taken.value.action == SealAckLossHeadFailure {
          reject := Some(Reject("HEAD", r.path));
        }
      }
    }

    method RecordFault(fault: Fault)
      modifies this
      ensures View() == WithFault(old(View()), fault)
    {
      fired := fired + [fault];
    }

    /** Refuses, changing nothing, while an earlier hold has not caught its PUT. */
    method HoldNextPut() returns (ok: bool)
      modifies this
      ensures ok == !old(holdPut)
      ensures View() == if ok then old(View()).(holdPut := true, release := false) else old(View())
    {
      ok := !holdPut;
      if ok {
        holdPut, release := true, false;
      }
    }

    method ReleaseProvider()
      modifies this
      ensures View() == ProviderReleased(old(View()))
    {
      reject, rule := None, None;
    }
  }

  // ---------------------------------------------------------------- every interleaving

  /** Where a handler thread is between two regions; `hold` is the hold that caught its PUT, and `seen`
      counts the releases before it began to wait. */
  datatype Phase =
    | Received(request: Request)
    | Refusing(request: Request)
    | Refused(request: Request)
    | Admitted(request: Request)
    | Held(request: Request, caught: nat)
    | Waiting(request: Request, caught: nat, seen: nat)
    | Ready(request: Request, hold: Option<nat>)
    | Sent(request: Request, hold: Option<nat>)
    | Replied(request: Request, status: nat)
    | Faulting(fault: Fault)
    | Closed

  /** `holds[h]` counts the releases before hold `h` was set; `armed`, `released`, `displaced` and
      `claims` are the history of the rule. */
  datatype State = State(
    fields: Fields, threads: map<nat, Phase>, releases: nat, holds: seq<nat>,
    armed: nat, released: set<nat>, displaced: set<nat>, claims: map<nat, Fault>)

  const Initial := State(Fields(None, false, false, None, [], []), map[], 0, [], 0, {}, {}, map[])

  datatype Step =
    | Arm(verb: string, action: Action)
    | AssignRule(verb: string, action: Action, suffix: string)
    | AssignReject(reject: Option<Reject>)
    | ReleaseProvider
    | HoldNextPut
    | SetRelease
    | Receive(thread: nat, request: Request)
    | CheckReject(thread: nat)
    | RecordRejected(thread: nat)
    | TakeHold(thread: nat)
    | BeginWait(thread: nat)
    | Wake(thread: nat)
    | Send(thread: nat)
    | Reply(thread: nat, status: nat)
    | Claim(thread: nat)
    | RecordFault(thread: nat)
    | Close(thread: nat)

  function At(s: State, i: nat): (p: Phase)
  {
    if i in s.threads then s.threads[i] else Closed
  }

  function Move(s: State, i: nat, p: Phase): (t: State)
  {
    s.(threads := s.threads[i := p])
  }

  function Current(s: State): (ids: set<nat>)
  {
    if s.fields.rule.Some? then {s.fields.rule.value.id} else {}
  }

  function SetRule(s: State, verb: string, action: Action, suffix: string): (t: State)
  {
    s.(fields := s.fields.(rule := Some(Rule(s.armed, verb, action, suffix))), armed := s.armed + 1)
  }

  function Next(s: State, step: Step): (t: State)
  {
    match step
    case Arm(verb, action) => if s.fields.rule.Some? then s else SetRule(s, verb, action, "")
    case AssignRule(verb, action, suffix) => SetRule(s, verb, action, suffix).(displaced := s.displaced + Current(s))
    case AssignReject(reject) => s.(fields := s.fields.(reject := reject))
    case ReleaseProvider =>
      s.(fields := ProviderReleased(s.fields), released := s.released + Current(s))
    case HoldNextPut =>
      if s.fields.holdPut then s
      else s.(fields := s.fields.(holdPut := true, release := false), holds := s.holds + [s.releases])
    case SetRelease => s.(fields := s.fields.(release := true), releases := s.releases + 1)
    case Receive(i, r) => if i in s.threads then s else Move(s, i, Received(r))
    case CheckReject(i) =>
      if !At(s, i).Received? then s
      else if Rejects(s.fields, At(s, i).request) then Move(s, i, Refusing(At(s, i).request))
      else Move(s, i, Admitted(At(s, i).request))
    case RecordRejected(i) =>
      if !At(s, i).Refusing? then s
      else Move(s, i, Refused(At(s, i).request)).(fields := WithRejected(s.fields, At(s, i).request))
    case TakeHold(i) =>
      if !At(s, i).Admitted? then s
      else if Holds(s.fields, At(s, i).request) && s.holds != []
      then Move(s, i, Held(At(s, i).request, |s.holds| - 1)).(fields := s.fields.(holdPut := false))
      else Move(s, i, Ready(At(s, i).request, None))
    case BeginWait(i) =>
      if !At(s, i).Held? then s
      else if s.fields.release then Move(s, i, Ready(At(s, i).request, Some(At(s, i).caught)))
      else Move(s, i, Waiting(At(s, i).request, At(s, i).caught, s.releases))
    case Wake(i) =>
      if At(s, i).Waiting? && (s.fields.release || At(s, i).seen < s.releases)
      then Move(s, i, Ready(At(s, i).request, Some(At(s, i).caught))) else s
    case Send(i) => if At(s, i).Ready? then Move(s, i, Sent(At(s, i).request, At(s, i).hold)) else s
    case Reply(i, status) => if At(s, i).Sent? then Move(s, i, Replied(At(s, i).request, status)) else s
    case Claim(i) => if At(s, i).Replied? then ClaimStep(s, i, At(s, i).request, At(s, i).status) else s
    case RecordFault(i) =>
      if !At(s, i).Faulting? then s
      else Move(s, i, Closed).(fields := WithFault(s.fields, At(s, i).fault))
    case Close(i) => if i in s.threads then Move(s, i, Closed) else s
  }

  function ClaimStep(s: State, i: nat, r: Request, status: nat): (t: State)
  {
    if !Claims(s.fields, r, status) then Move(s, i, Closed)
    else
      var fault := Fault(s.fields.rule.value, r, status);
      Move(s, i, Faulting(fault))
        .(fields := Claimed(s.fields, r, status), claims := s.claims[fault.rule.id := fault])
  }

  function Run(s: State, steps: seq<Step>): (t: State)
  {
    if steps == [] then s else Next(Run(s, steps[..|steps| - 1]), steps[|steps| - 1])
  }

  // ---------------------------------------------------------------- every rule is accounted for

  ghost function Ids(faults: seq<Fault>): (ids: set<nat>)
  {
    set i | 0 <= i < |faults| :: faults[i].rule.id
  }

  /** The rules armed so far: each is claimed, armed, released or displaced, and only one of these. */
  ghost predicate Partitioned(s: State) {
    && (forall id :: 0 <= id < s.armed <==> id in s.claims.Keys + Current(s) + s.released + s.displaced)
    && s.claims.Keys !! Current(s) && s.claims.Keys !! s.released && s.claims.Keys !! s.displaced
    && Current(s) !! s.released && Current(s) !! s.displaced && s.released !! s.displaced
  }

  /** What is claimed was selected, under its own number. */
  ghost predicate ClaimsOk(s: State) {
    forall id :: id in s.claims ==>
      s.claims[id].rule.id == id && Selects(s.claims[id].rule, s.claims[id].request, s.claims[id].status)
  }

  ghost predicate IsClaim(s: State, f: Fault) {
    f.rule.id in s.claims && s.claims[f.rule.id] == f
  }

  /** A claim is recorded once at most, by the one thread that has it. */
  ghost predicate RecordsOk(s: State) {
    && (forall i :: 0 <= i < |s.fields.fired| ==> IsClaim(s, s.fields.fired[i]))
    && (forall i, j :: 0 <= i < j < |s.fields.fired| ==> s.fields.fired[i].rule.id != s.fields.fired[j].rule.id)
  }

  ghost predicate HandsClaim(s: State) {
    forall t :: t in s.threads && s.threads[t].Faulting? ==> IsClaim(s, s.threads[t].fault)
  }

  ghost predicate HandsUnrecorded(s: State) {
    forall t :: t in s.threads && s.threads[t].Faulting? ==>
      forall i :: 0 <= i < |s.fields.fired| ==> s.fields.fired[i].rule.id != s.threads[t].fault.rule.id
  }

  ghost predicate HandsOk(s: State) {
    HandsClaim(s) && HandsUnrecorded(s)
  }

  ghost predicate HandsDistinct(s: State) {
    forall t, u :: t in s.threads && u in s.threads && t != u && s.threads[t].Faulting? && s.threads[u].Faulting?
                   ==> s.threads[t].fault.rule.id != s.threads[u].fault.rule.id
  }

  ghost predicate RulesOk(s: State) {
    Partitioned(s) && ClaimsOk(s) && RecordsOk(s) && HandsOk(s) && HandsDistinct(s)
  }

  /** A step that arms, releases or claims no rule. */
  ghost predicate KeepsRules(step: Step) {
    !step.Arm? && !step.AssignRule? && !step.ReleaseProvider? && !step.Claim?
  }

  lemma RulesKept(s: State, step: Step)
    requires KeepsRules(step)
    ensures var t := Next(s, step);
            && t.armed == s.armed && t.claims == s.claims && t.released == s.released && t.displaced == s.displaced
            && t.fields.rule == s.fields.rule
  {
  }

  /** In how many of the four places rule `id` is. */
  ghost function Places(s: State, id: nat): (n: nat)
  {
    (if id in s.claims then 1 else 0) + (if id in Current(s) then 1 else 0)
    + (if id in s.released then 1 else 0) + (if id in s.displaced then 1 else 0)
  }

  ghost predicate InOnePlace(s: State, id: nat) {
    Places(s, id) == if id < s.armed then 1 else 0
  }

  lemma PlacesOfPartition(s: State, id: nat)
    requires Partitioned(s)
    ensures InOnePlace(s, id)
  {
    assert id < s.armed <==> id in s.claims.Keys + Current(s) + s.released + s.displaced;
  }

  lemma PartitionOfPlaces(s: State)
    requires forall id: nat :: InOnePlace(s, id)
    ensures Partitioned(s)
  {
    forall id: nat ensures id < s.armed <==> id in s.claims.Keys + Current(s) + s.released + s.displaced {
      assert InOnePlace(s, id);
    }
    forall id: nat
      ensures id in s.claims ==> id !in Current(s) && id !in s.released && id !in s.displaced
      ensures id in Current(s) ==> id !in s.released && id !in s.displaced
      ensures id in s.released ==> id !in s.displaced
    {
      assert InOnePlace(s, id);
    }
  }

  lemma NextInOnePlace(s: State, step: Step, id: nat)
    requires InOnePlace(s, id) && (s.fields.rule.Some? ==> InOnePlace(s, s.fields.rule.value.id))
    ensures InOnePlace(Next(s, step), id)
  {
    if KeepsRules(step) {
      RulesKept(s, step);
    }
  }

  lemma NextPartitioned(s: State, step: Step)
    requires Partitioned(s)
    ensures Partitioned(Next(s, step))
  {
    forall id: nat ensures InOnePlace(Next(s, step), id) {
      PlacesOfPartition(s, id);
      if s.fields.rule.Some? { PlacesOfPartition(s, s.fields.rule.value.id); }
      NextInOnePlace(s, step, id);
    }
    PartitionOfPlaces(Next(s, step));
  }

  lemma NextClaimsOk(s: State, step: Step)
    requires ClaimsOk(s)
    ensures ClaimsOk(Next(s, step))
  {
  }

  lemma NextRecordsOk(s: State, step: Step)
    requires Partitioned(s) && RecordsOk(s) && HandsOk(s)
    ensures RecordsOk(Next(s, step))
  {
  }

  lemma NextHandsClaim(s: State, step: Step)
    requires Partitioned(s) && HandsClaim(s)
    ensures HandsClaim(Next(s, step))
  {
  }

  lemma NextHandsUnrecorded(s: State, step: Step)
    requires Partitioned(s) && RecordsOk(s) && HandsUnrecorded(s) && HandsDistinct(s)
    ensures HandsUnrecorded(Next(s, step))
  {
  }

  lemma NextHandsOk(s: State, step: Step)
    requires Partitioned(s) && RecordsOk(s) && HandsOk(s) && HandsDistinct(s)
    ensures HandsOk(Next(s, step))
  {
    NextHandsClaim(s, step);
    NextHandsUnrecorded(s, step);
  }

  lemma NextHandsDistinct(s: State, step: Step)
    requires Partitioned(s) && HandsOk(s) && HandsDistinct(s)
    ensures HandsDistinct(Next(s, step))
  {
  }

  lemma NextRulesOk(s: State, step: Step)
    requires RulesOk(s)
    ensures RulesOk(Next(s, step))
  {
    NextPartitioned(s, step);
    NextClaimsOk(s, step);
    NextRecordsOk(s, step);
    NextHandsOk(s, step);
    NextHandsDistinct(s, step);
  }

  lemma {:induction false} RunRulesOk(steps: seq<Step>)
    ensures RulesOk(Run(Initial, steps))
  {
    if steps != [] {
      RunRulesOk(steps[..|steps| - 1]);
      NextRulesOk(Run(Initial, steps[..|steps| - 1]), steps[|steps| - 1]);
    }
  }

  ghost function Below(n: nat): (ids: set<nat>)
    ensures |ids| == n && forall id :: id in ids <==> 0 <= id < n
  {
    if n == 0 then {} else Below(n - 1) + {n - 1}
  }

  lemma {:induction false} IdsCount(faults: seq<Fault>)
    requires forall i, j :: 0 <= i < j < |faults| ==> faults[i].rule.id != faults[j].rule.id
    ensures |Ids(faults)| == |faults|
  {
    if faults != [] {
      var n := |faults| - 1;
      IdsCount(faults[..n]);
      assert Ids(faults) == Ids(faults[..n]) + {faults[n].rule.id};
    }
  }

  /** Claims whose fault is not recorded: their thread is on the way, or it failed before. */
  ghost function Unrecorded(s: State): (ids: set<nat>)
  {
    s.claims.Keys - Ids(s.fields.fired)
  }

  lemma DisjointCount(a: set<nat>, b: set<nat>, c: set<nat>, d: set<nat>)
    requires a !! b && a !! c && a !! d && b !! c && b !! d && c !! d
    ensures |a + b + c + d| == |a| + |b| + |c| + |d|
  {
    assert a !! b;
    assert (a + b) !! c;
    assert (a + b + c) !! d;
  }

  lemma ClaimsCount(s: State)
    requires RecordsOk(s)
    ensures |s.claims.Keys| == |s.fields.fired| + |Unrecorded(s)|
  {
    IdsCount(s.fields.fired);
    assert Ids(s.fields.fired) <= s.claims.Keys;
    assert s.claims.Keys == Ids(s.fields.fired) + Unrecorded(s);
  }

  lemma RulesAddUp(s: State)
    requires Partitioned(s) && RecordsOk(s)
    ensures s.armed == |s.fields.fired| + |Unrecorded(s)| + |Current(s)| + |s.released| + |s.displaced|
  {
    assert Below(s.armed) == s.claims.Keys + Current(s) + s.released + s.displaced;
    DisjointCount(s.claims.Keys, Current(s), s.released, s.displaced);
    ClaimsCount(s);
  }

  /** An assignment to `rule` that does not look replaces a rule that is still armed. */
  ghost predicate Overwrites(s: State, step: Step) {
    step.AssignRule? && s.fields.rule.Some?
  }

  ghost predicate NeverOverwrites(s: State, steps: seq<Step>) {
    steps == [] ||
    (var n := |steps| - 1; NeverOverwrites(s, steps[..n]) && !Overwrites(Run(s, steps[..n]), steps[n]))
  }

  lemma NextDisplaced(s: State, step: Step)
    ensures Next(s, step).displaced == {} <==> s.displaced == {} && !Overwrites(s, step)
  {
    if Overwrites(s, step) { assert s.fields.rule.value.id in Next(s, step).displaced; }
  }

  lemma {:induction false} DisplacedExactly(steps: seq<Step>)
    ensures Run(Initial, steps).displaced == {} <==> NeverOverwrites(Initial, steps)
  {
    if steps != [] {
      DisplacedExactly(steps[..|steps| - 1]);
      NextDisplaced(Run(Initial, steps[..|steps| - 1]), steps[|steps| - 1]);
    }
  }

  /** Rules armed are the faults recorded, the claims not yet recorded, the rule now armed and those
      released: exactly in the runs where no unguarded assignment overwrites an armed rule. */
  lemma EveryRuleAccountedFor(steps: seq<Step>, s: State)
    requires s == Run(Initial, steps)
    ensures s.armed == |s.fields.fired| + |Unrecorded(s)| + |Current(s)| + |s.released|
            <==> NeverOverwrites(Initial, steps)
  {
    RunRulesOk(steps);
    RulesAddUp(s);
    DisplacedExactly(steps);
  }

  /** Two assignments in a row lose the first rule: it is neither recorded, claimed, armed nor released. */
  lemma SecondAssignmentLosesTheFirst()
    ensures var twice := AssignRule("PUT", DropSuccess, "");
            var s := Next(Next(Initial, twice), twice);
            && s.armed == 2 && s.displaced == {0}
            && |s.fields.fired| + |Unrecorded(s)| + |Current(s)| + |s.released| == 1
  {
    var twice := AssignRule("PUT", DropSuccess, "");
    var s := Next(Next(Initial, twice), twice);
    assert s.displaced == {0} && Unrecorded(s) == {} && Current(s) == {1};
  }

  /** A recorded fault followed a provider success to a request its rule selects, and no rule is
      recorded twice. */
  lemma FaultsAreReal(steps: seq<Step>, i: nat, j: nat)
    requires var fired := Run(Initial, steps).fields.fired; i < |fired| && j < |fired|
    ensures var fired := Run(Initial, steps).fields.fired;
            && Selects(fired[i].rule, fired[i].request, fired[i].status)
            && 200 <= fired[i].status < 300
            && (fired[i].rule.id == fired[j].rule.id ==> i == j)
  {
    RunRulesOk(steps);
    assert IsClaim(Run(Initial, steps), Run(Initial, steps).fields.fired[i]);
  }

  // ---------------------------------------------------------------- held PUTs

  ghost function Caught(p: Phase): (hold: Option<nat>)
  {
    match p
    case Held(_, h) => Some(h)
    case Waiting(_, h, _) => Some(h)
    case Ready(_, h) => h
    case Sent(_, h) => h
    case _ => None
  }

  ghost predicate HoldOk(s: State, p: Phase) {
    && (Caught(p).Some? ==> Caught(p).value < |s.holds|)
    && (p.Waiting? ==> s.holds[p.caught] <= p.seen <= s.releases)
    && ((p.Ready? || p.Sent?) && p.hold.Some? ==> s.holds[p.hold.value] < s.releases)
  }

  ghost predicate HoldsOk(s: State) {
    && (s.fields.holdPut ==> s.holds != [])
    && (forall h :: 0 <= h < |s.holds| ==> s.holds[h] <= s.releases)
    && (s.fields.release ==> forall h :: 0 <= h < |s.holds| ==> s.holds[h] < s.releases)
  }

  ghost predicate WaitersOk(s: State) {
    forall t :: t in s.threads ==> HoldOk(s, s.threads[t])
  }

  /** A hold catches one PUT. */
  ghost predicate CaughtOnce(s: State) {
    forall t, u :: t in s.threads && u in s.threads && t != u && Caught(s.threads[t]).Some?
                   ==> Caught(s.threads[t]) != Caught(s.threads[u])
  }

  ghost predicate OpenHold(s: State) {
    s.fields.holdPut ==> forall t :: t in s.threads ==> Caught(s.threads[t]) != Some(|s.holds| - 1)
  }

  lemma NextHoldsOk(s: State, step: Step)
    requires HoldsOk(s)
    ensures HoldsOk(Next(s, step))
  {
  }

  /** Holds are only added, and the count of releases only grows. */
  lemma HoldsGrow(s: State, step: Step)
    ensures s.holds <= Next(s, step).holds && s.releases <= Next(s, step).releases
  {
  }

  lemma HoldOkGrows(s: State, t: State, p: Phase)
    requires HoldOk(s, p) && s.holds <= t.holds && s.releases <= t.releases
    ensures HoldOk(t, p)
  {
  }

  /** Not a step of some other thread than `i`. */
  ghost predicate OwnThread(step: Step, i: nat) {
    match step
    case Receive(t, _) => t == i
    case CheckReject(t) => t == i
    case RecordRejected(t) => t == i
    case TakeHold(t) => t == i
    case BeginWait(t) => t == i
    case Wake(t) => t == i
    case Send(t) => t == i
    case Reply(t, _) => t == i
    case Claim(t) => t == i
    case RecordFault(t) => t == i
    case Close(t) => t == i
    case _ => true
  }

  lemma OtherThreads(s: State, step: Step, i: nat)
    requires !OwnThread(step, i)
    ensures i in Next(s, step).threads <==> i in s.threads
    ensures i in s.threads ==> Next(s, step).threads[i] == s.threads[i]
  {
  }

  lemma OwnWaiter(s: State, step: Step, i: nat)
    requires HoldsOk(s) && OwnThread(step, i) && (i in s.threads ==> HoldOk(s, s.threads[i]))
    ensures i in Next(s, step).threads ==> HoldOk(Next(s, step), Next(s, step).threads[i])
  {
  }

  lemma NextWaitersOk(s: State, step: Step)
    requires HoldsOk(s) && WaitersOk(s)
    ensures WaitersOk(Next(s, step))
  {
    var t := Next(s, step);
    forall i | i in t.threads ensures HoldOk(t, t.threads[i]) {
      if OwnThread(step, i) {
        OwnWaiter(s, step, i);
      } else {
        OtherThreads(s, step, i);
        HoldsGrow(s, step);
        HoldOkGrows(s, t, t.threads[i]);
      }
    }
  }

  lemma NextOpenHold(s: State, step: Step)
    requires WaitersOk(s) && OpenHold(s)
    ensures OpenHold(Next(s, step))
  {
  }

  /** A thread keeps the hold it has; it gets one only by taking the open hold. */
  lemma CaughtKept(s: State, step: Step, i: nat)
    ensures var t := Next(s, step);
            i in t.threads && Caught(t.threads[i]).Some? ==>
              || (i in s.threads && Caught(t.threads[i]) == Caught(s.threads[i]))
              || (s.fields.holdPut && OwnThread(step, i) && step.TakeHold?
                && Caught(t.threads[i]) == Some(|s.holds| - 1))
  {
  }

  lemma NextCaughtOnce(s: State, step: Step)
    requires OpenHold(s) && CaughtOnce(s)
    ensures CaughtOnce(Next(s, step))
  {
    var t := Next(s, step);
    forall i, j | i in t.threads && j in t.threads && i != j && Caught(t.threads[i]).Some?
      ensures Caught(t.threads[i]) != Caught(t.threads[j])
    {
      CaughtKept(s, step, i);
      CaughtKept(s, step, j);
    }
  }

  lemma NextHolds(s: State, step: Step)
    requires HoldsOk(s) && WaitersOk(s) && OpenHold(s) && CaughtOnce(s)
    ensures var t := Next(s, step); HoldsOk(t) && WaitersOk(t) && OpenHold(t) && CaughtOnce(t)
  {
    NextHoldsOk(s, step);
    NextWaitersOk(s, step);
    NextOpenHold(s, step);
    NextCaughtOnce(s, step);
  }

  lemma {:induction false} RunHolds(steps: seq<Step>)
    ensures var t := Run(Initial, steps); HoldsOk(t) && WaitersOk(t) && OpenHold(t) && CaughtOnce(t)
  {
    if steps != [] {
      RunHolds(steps[..|steps| - 1]);
      NextHolds(Run(Initial, steps[..|steps| - 1]), steps[|steps| - 1]);
    }
  }

  /** A held PUT reaches the provider only after a release that came after its hold was set, and each
      hold catches one PUT at most. */
  lemma HeldUntilReleased(steps: seq<Step>, i: nat, j: nat)
    requires var s := Run(Initial, steps);
             i in s.threads && s.threads[i].Sent? && s.threads[i].hold.Some? && j in s.threads
    ensures var s := Run(Initial, steps);
            && s.threads[i].hold.value < |s.holds|
            && s.holds[s.threads[i].hold.value] < s.releases
            && (Caught(s.threads[j]) == s.threads[i].hold ==> i == j)
  {
    RunHolds(steps);
    assert HoldOk(Run(Initial, steps), Run(Initial, steps).threads[i]);
  }

  // ---------------------------------------------------------------- rejected requests

  ghost predicate IsRefused(p: Phase) {
    p.Refusing? || p.Refused? || p.Closed?
  }

  lemma NextRefused(s: State, step: Step, i: nat)
    requires i in s.threads && IsRefused(s.threads[i])
    ensures i in Next(s, step).threads && IsRefused(Next(s, step).threads[i])
  {
  }

  /** A refused request is never sent on. */
  lemma {:induction false} RefusedStays(s: State, steps: seq<Step>, i: nat)
    requires i in s.threads && IsRefused(s.threads[i])
    ensures var t := Run(s, steps); i in t.threads && IsRefused(t.threads[i])
  {
    if steps != [] {
      RefusedStays(s, steps[..|steps| - 1], i);
      NextRefused(Run(s, steps[..|steps| - 1]), steps[|steps| - 1], i);
    }
  }

  ghost predicate NoRelease(steps: seq<Step>) {
    forall k :: 0 <= k < |steps| ==> !steps[k].ReleaseProvider? && !steps[k].AssignReject?
  }

  /** The step claims a seal fault. */
  ghost predicate ClaimsSeal(s: State, step: Step) {
    && step.Claim? && At(s, step.thread).Replied?
    && Claims(s.fields, At(s, step.thread).request, At(s, step.thread).status)
    && s.fields.rule.value.action == SealAckLossHeadFailure
  }

  /** The path of the newest seal fault, `path` if none was claimed on the way. */
  ghost function LastSeal(s: State, path: string, steps: seq<Step>): (last: string)
  {
    if steps == [] then path
    else
      var n := |steps| - 1;
      var t := Run(s, steps[..n]);
      if ClaimsSeal(t, steps[n]) then At(t, steps[n].thread).request.path else LastSeal(s, path, steps[..n])
  }

  lemma NextReject(s: State, step: Step)
    requires !step.ReleaseProvider? && !step.AssignReject?
    ensures Next(s, step).fields.reject
            == if ClaimsSeal(s, step) then Some(Reject("HEAD", At(s, step.thread).request.path)) else s.fields.reject
  {
  }

  lemma {:induction false} SealStays(s: State, path: string, steps: seq<Step>)
    requires s.fields.reject == Some(Reject("HEAD", path)) && NoRelease(steps)
    ensures Run(s, steps).fields.reject == Some(Reject("HEAD", LastSeal(s, path, steps)))
  {
    if steps != [] {
      SealStays(s, path, steps[..|steps| - 1]);
      NextReject(Run(s, steps[..|steps| - 1]), steps[|steps| - 1]);
    }
  }

  /** Once a seal fault on `path` is claimed and until a release, a HEAD is rejected and never forwarded
      exactly when its path contains that of the newest seal fault; so every HEAD on `path` is, as long
      as no other seal fault is claimed. */
  lemma SealRejectsHeads(s: State, path: string, steps: seq<Step>, i: nat, more: seq<Step>)
    requires s.fields.reject == Some(Reject("HEAD", path)) && NoRelease(steps)
    requires var p := At(Run(s, steps), i); p.Received? && p.request.verb == "HEAD"
    ensures var t := Run(s, steps);
            var u := Next(t, CheckReject(i));
            if Contains(At(t, i).request.path, LastSeal(s, path, steps))
            then u.threads[i].Refusing? && IsRefused(At(Run(u, more), i))
            else u.threads[i].Admitted?
  {
    SealStays(s, path, steps);
    var t := Run(s, steps);
    var u := Next(t, CheckReject(i));
    if Contains(At(t, i).request.path, LastSeal(s, path, steps)) { RefusedStays(u, more, i); }
  }

  /** The seal request the fault waits for. */
  function Seal(path: string): (r: Request)
  {
    Request("PUT", path, true, true)
  }

  /** One seal fault from arming to its claim, by thread `i`. */
  function SealSteps(i: nat, path: string): (steps: seq<Step>)
  {
    [AssignRule("PUT", SealAckLossHeadFailure, ""), Receive(i, Seal(path)), CheckReject(i), TakeHold(i), Send(i),
     Reply(i, 200), Claim(i)]
  }

  lemma RunSnoc(s: State, steps: seq<Step>, step: Step)
    ensures Run(s, steps + [step]) == Next(Run(s, steps), step)
  {
    assert (steps + [step])[..|steps|] == steps;
  }

  lemma RunSeven(s: State, steps: seq<Step>)
    requires |steps| == 7
    ensures Run(s, steps)
            == Next(Next(Next(Next(Next(Next(Next(s, steps[0]), steps[1]), steps[2]), steps[3]), steps[4]), steps[5]),
              steps[6])
  {
    forall k | 0 <= k < 7 ensures Run(s, steps[..k + 1]) == Next(Run(s, steps[..k]), steps[k]) {
      assert steps[..k + 1] == steps[..k] + [steps[k]];
      RunSnoc(s, steps[..k], steps[k]);
    }
    assert steps[..7] == steps && steps[..0] == [];
  }

  /** Thread `i` has come to `p` with a seal fault armed. */
  ghost predicate Sealing(s: State, t: State, i: nat, p: Phase) {
    && t.threads == s.threads[i := p]
    && t.fields == s.fields.(rule := Some(Rule(s.armed, "PUT", SealAckLossHeadFailure, "")))
  }

  lemma SealAdmitted(s: State, i: nat, path: string)
    requires i !in s.threads && (s.fields.reject.Some? ==> s.fields.reject.value.verb == "HEAD")
    ensures var armed := Next(s, AssignRule("PUT", SealAckLossHeadFailure, ""));
            Sealing(s, Next(Next(armed, Receive(i, Seal(path))), CheckReject(i)), i, Admitted(Seal(path)))
  {
  }

  lemma SealReplied(s: State, t: State, i: nat, path: string)
    requires Sealing(s, t, i, Admitted(Seal(path))) && !s.fields.holdPut
    ensures Sealing(s, Next(Next(Next(t, TakeHold(i)), Send(i)), Reply(i, 200)), i, Replied(Seal(path), 200))
  {
  }

  lemma SealClaimed(s: State, t: State, i: nat, path: string)
    requires Sealing(s, t, i, Replied(Seal(path), 200)) && Contains(path, "/nokv/artifacts/")
    ensures var u := Next(t, Claim(i));
            && u.fields.reject == Some(Reject("HEAD", path)) && u.fields.holdPut == s.fields.holdPut
            && u.threads.Keys == s.threads.Keys + {i}
  {
    assert Selects(t.fields.rule.value, Seal(path), 200);
  }

  lemma SealRun(s: State, i: nat, path: string)
    requires i !in s.threads && Contains(path, "/nokv/artifacts/") && !s.fields.holdPut
    requires s.fields.reject.Some? ==> s.fields.reject.value.verb == "HEAD"
    ensures var t := Run(s, SealSteps(i, path));
            t.fields.reject == Some(Reject("HEAD", path)) && !t.fields.holdPut && t.threads.Keys == s.threads.Keys + {i}
  {
    RunSeven(s, SealSteps(i, path));
    SealAdmitted(s, i, path);
    var t := Next(Next(Next(s, AssignRule("PUT", SealAckLossHeadFailure, "")), Receive(i, Seal(path))), CheckReject(i));
    SealReplied(s, t, i, path);
    SealClaimed(s, Next(Next(Next(t, TakeHold(i)), Send(i)), Reply(i, 200)), i, path);
  }

  lemma SealReleasesNothing(i: nat, path: string)
    ensures NoRelease(SealSteps(i, path))
  {
  }

  lemma HeadGoesThrough(s: State, i: nat, path: string, other: string)
    requires i !in s.threads && s.fields.reject == Some(Reject("HEAD", other)) && !Contains(path, other)
    ensures var t := Next(Next(s, Receive(i, Request("HEAD", path, false, false))), CheckReject(i));
            i in t.threads && t.threads[i].Admitted?
  {
  }

  /** A second seal fault replaces the rejection of the first: with no release in between, a HEAD on the
      first path goes through again. */
  lemma SecondSealReplaces(first: string, second: string)
    requires Contains(first, "/nokv/artifacts/") && Contains(second, "/nokv/artifacts/") && !Contains(first, second)
    ensures var s := Run(Run(Initial, SealSteps(0, first)), SealSteps(1, second));
            var t := Next(Next(s, Receive(2, Request("HEAD", first, false, false))), CheckReject(2));
            NoRelease(SealSteps(1, second)) && 2 in t.threads && t.threads[2].Admitted?
  {
    SealReleasesNothing(1, second);
    SealRun(Initial, 0, first);
    var s := Run(Initial, SealSteps(0, first));
    SealRun(s, 1, second);
    HeadGoesThrough(Run(s, SealSteps(1, second)), 2, first, second);
  }
}
