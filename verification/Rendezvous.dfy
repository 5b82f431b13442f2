/** The pre-admission rendezvous of the publication proxy: `begin_rendezvous` writes three fields one
    after the other, connection threads register under the lock and then meet at a barrier. */
module Rendezvous {
  import opened Optional

  type Request = nat

  /** The barrier object in `rendezvous`, by number, and its party count. */
  datatype Party = Party(barrier: nat, parties: nat)

  datatype Fields = Fields(rendezvous: Option<Party>, operation: string, entries: seq<Request>)

  // ---------------------------------------------------------------- the proxy's own regions

  /** The request takes one of the places still open. */
  predicate Joins(f: Fields, operation: string) {
    operation == f.operation && f.rendezvous.Some? && |f.entries| < f.rendezvous.value.parties
  }

  function Entered(f: Fields, operation: string, r: Request): (g: Fields)
  {
    if Joins(f, operation) then f.(entries := f.entries + [r]) else f
  }

  function WithOperation(f: Fields, operation: string): (g: Fields)
  {
    f.(operation := operation)
  }

  function WithoutEntries(f: Fields): (g: Fields)
  {
    f.(entries := [])
  }

  class PublicationProxy {
    var rendezvous: Option<Party>
    var rendezvousOperation: string
    var rendezvousEntries: seq<Request>

    ghost function View(): (f: Fields)
      reads this
    {
      Fields(rendezvous, rendezvousOperation, rendezvousEntries)
    }

    constructor ()
      ensures View() == Fields(None, "prepare_artifact_publish", [])
    {
      rendezvous, rendezvousOperation, rendezvousEntries := None, "prepare_artifact_publish", [];
    }

    /** The three assignments of `begin_rendezvous`; other threads may run between any two of them. */
    method SetBarrier(party: Party) returns (ok: bool)
      modifies this
      ensures ok == old(rendezvous).None?
      ensures View() == if ok then old(View()).(rendezvous := Some(party)) else old(View())
    {
      ok := rendezvous.None?;
      if ok {
        rendezvous := Some(party);
      }
    }

    method SetOperation(operation: string)
      modifies this
      ensures View() == WithOperation(old(View()), operation)
    {
      rendezvousOperation := operation;
    }

    method ClearEntries()
      modifies this
      ensures View() == WithoutEntries(old(View()))
    {
      rendezvousEntries := [];
    }

    /** The region a request runs under the lock: the barrier to wait at, if it is held. */
    method Enter(operation: string, r: Request) returns (barrier: Option<nat>)
      modifies this
      ensures View() == Entered(old(View()), operation, r)
      ensures barrier == if Joins(old(View()), operation) then Some(old(View()).rendezvous.value.barrier) else None
    {
      barrier := None;
      if operation == rendezvousOperation && rendezvous.Some? {
        if |rendezvousEntries| < rendezvous.value.parties {
          barrier := Some(rendezvous.value.barrier);
          rendezvousEntries := rendezvousEntries + [r];
        }
      }
    }
  }

  // ---------------------------------------------------------------- the barrier

  datatype Gate = Filling | Draining | Broken

  /** A barrier of the language's library, and what happened at it: the requests held before and after
      `begin_rendezvous` returned, the matching requests since it returned, the arrivals, the releases. */
  datatype Barrier = Barrier(
    parties: nat, gate: Gate, waiting: set<Request>,
    early: seq<Request>, matching: seq<Request>, held: seq<Request>,
    arrived: set<Request>, released: set<Request>)

  /** The last party opens the gate and goes through; any other waits. */
  function Arrived(b: Barrier, r: Request): (c: Barrier)
    requires b.gate == Filling
  {
    var c := b.(arrived := b.arrived + {r});
    if |b.waiting| + 1 == b.parties
    then c.(gate := if b.waiting == {} then Filling else Draining, released := b.released + {r})
    else c.(waiting := b.waiting + {r})
  }

  /** A waiting party leaves through the open gate; the last one closes it behind. */
  function Woken(b: Barrier, r: Request): (c: Barrier)
    requires b.gate == Draining
  {
    var rest := b.waiting - {r};
    b.(waiting := rest, released := b.released + {r}, gate := if rest == {} then Filling else Draining)
  }

  /** A party that gives up breaks the barrier for all. */
  function GaveUp(b: Barrier, r: Request): (c: Barrier)
  {
    b.(waiting := b.waiting - {r}, gate := Broken)
  }

  // ---------------------------------------------------------------- every interleaving

  datatype Setup = Ready | BarrierSet(operation: string) | OperationSet

  datatype Phase =
    | Free
    | Held(barrier: nat)
    | Waiting(barrier: nat)
    | Released(barrier: nat)
    | Failed
    | Forwarded(via: Option<nat>)

  datatype State = State(fields: Fields, setup: Setup, barriers: seq<Barrier>, requests: map<Request, Phase>)

  const Initial := State(Fields(None, "prepare_artifact_publish", []), Ready, [], map[])

  datatype Step =
    | Begin(parties: nat, operation: string)
    | NameOperation
    | Clear
    | End
    | Enter(request: Request, about: string)
    | Arrive(request: Request)
    | Wake(request: Request)
    | TimeOut(request: Request)
    | Abort(request: Request)
    | Forward(request: Request)

  function At(s: State, r: Request): (p: Phase)
  {
    if r in s.requests then s.requests[r] else Failed
  }

  function Move(s: State, r: Request, p: Phase): (t: State)
  {
    s.(requests := s.requests[r := p])
  }

  function SetBarrier(s: State, n: nat, b: Barrier): (t: State)
    requires n < |s.barriers|
  {
    s.(barriers := s.barriers[n := b])
  }

  predicate Known(s: State, p: Phase) {
    (p.Held? || p.Waiting? || p.Released?) && p.barrier < |s.barriers|
  }

  function Next(s: State, step: Step): (t: State)
  {
    match step
    case Begin(n, operation) =>
      if s.setup.Ready? && s.fields.rendezvous.None?
      then s.(fields := s.fields.(rendezvous := Some(Party(|s.barriers|, n))), setup := BarrierSet(operation),
              barriers := s.barriers + [Barrier(n, Filling, {}, [], [], [], {}, {})])
      else s
    case NameOperation =>
      if s.setup.BarrierSet?
      then s.(fields := WithOperation(s.fields, s.setup.operation), setup := OperationSet) else s
    case Clear => if s.setup.OperationSet? then s.(fields := WithoutEntries(s.fields), setup := Ready) else s
    case End => if s.setup.Ready? then s.(fields := s.fields.(rendezvous := None)) else s
    case Enter(r, operation) => if r in s.requests then s else EnterStep(s, r, operation)
    case Arrive(r) => if Known(s, At(s, r)) && At(s, r).Held? then ArriveStep(s, r, At(s, r).barrier) else s
    case Wake(r) => if Known(s, At(s, r)) && At(s, r).Waiting? then WakeStep(s, r, At(s, r).barrier) else s
    case TimeOut(r) =>
      if Known(s, At(s, r)) && At(s, r).Waiting? && s.barriers[At(s, r).barrier].gate == Filling
      then Move(SetBarrier(s, At(s, r).barrier, GaveUp(s.barriers[At(s, r).barrier], r)), r, Failed) else s
    case Abort(r) => if At(s, r).Held? then Move(s, r, Failed) else s
    case Forward(r) =>
      if At(s, r).Free? then Move(s, r, Forwarded(None))
      else if At(s, r).Released? then Move(s, r, Forwarded(Some(At(s, r).barrier)))
      else s
  }

  /** The barrier's own record of a matching request: early while the fields are still being written. */
  function Noted(b: Barrier, setup: Setup, joins: bool, r: Request): (c: Barrier)
  {
    if setup.Ready?
    then b.(matching := b.matching + [r], held := if joins then b.held + [r] else b.held)
    else if joins then b.(early := b.early + [r], held := b.held + [r]) else b
  }

  function EnterStep(s: State, r: Request, operation: string): (t: State)
  {
    var joins := Joins(s.fields, operation);
    var matches := operation == s.fields.operation && s.fields.rendezvous.Some?;
    if matches && s.fields.rendezvous.value.barrier < |s.barriers| then
      var n := s.fields.rendezvous.value.barrier;
      Move(SetBarrier(s, n, Noted(s.barriers[n], s.setup, joins, r)), r, if joins then Held(n) else Free)
        .(fields := Entered(s.fields, operation, r))
    else Move(s, r, Free)
  }

  function ArriveStep(s: State, r: Request, n: nat): (t: State)
    requires n < |s.barriers|
  {
    var b := s.barriers[n];
    match b.gate
    case Broken => Move(s, r, Failed)
    case Draining => s
    case Filling =>
      Move(SetBarrier(s, n, Arrived(b, r)), r, if r in Arrived(b, r).released then Released(n) else Waiting(n))
  }

  function WakeStep(s: State, r: Request, n: nat): (t: State)
    requires n < |s.barriers|
  {
    var b := s.barriers[n];
    match b.gate
    case Broken => Move(SetBarrier(s, n, b.(waiting := b.waiting - {r})), r, Failed)
    case Draining => Move(SetBarrier(s, n, Woken(b, r)), r, Released(n))
    case Filling => s
  }

  function Run(s: State, steps: seq<Step>): (t: State)
  {
    if steps == [] then s else Next(Run(s, steps[..|steps| - 1]), steps[|steps| - 1])
  }

  // ---------------------------------------------------------------- what every step keeps

  ghost function First(n: nat, requests: seq<Request>): (prefix: seq<Request>)
  {
    if |requests| <= n then requests else requests[..n]
  }

  /** Whoever is let through, enough parties have arrived. */
  ghost predicate GateOk(b: Barrier) {
    && b.waiting <= b.arrived && b.released <= b.arrived && b.waiting !! b.released
    && (b.released != {} ==> |b.arrived| >= b.parties)
    && (b.gate == Draining ==> b.released != {})
  }

  /** Those held early, then the first of those that matched. */
  ghost predicate HeldOk(b: Barrier) {
    b.held == b.early + First(b.parties, b.matching)
  }

  ghost function Members(requests: seq<Request>): (members: set<Request>)
  {
    set r | r in requests
  }

  /** All parties or none, for a barrier nobody joined early. */
  ghost predicate AllOrNone(b: Barrier) {
    && |b.held| <= b.parties
    && b.arrived <= Members(b.held)
    && (b.gate == Filling && b.released == {}
       ==> b.arrived == b.waiting && (b.waiting == {} || |b.waiting| < b.parties))
    && (b.released != {} ==>
          && b.gate != Broken && |b.held| == b.parties
          && b.arrived == Members(b.held) && b.arrived == b.waiting + b.released)
    && (b.gate == Filling && b.released != {} ==> b.waiting == {})
  }

  ghost predicate BarrierOk(b: Barrier) {
    GateOk(b) && HeldOk(b) && (b.early == [] ==> AllOrNone(b))
  }

  lemma {:induction false} MembersFit(requests: seq<Request>)
    ensures |Members(requests)| <= |requests|
  {
    if requests != [] {
      var n := |requests| - 1;
      MembersFit(requests[..n]);
      assert Members(requests) == Members(requests[..n]) + {requests[n]};
    }
  }

  lemma SameSize(a: set<Request>, b: set<Request>)
    requires a <= b && |b| <= |a|
    ensures a == b
  {
    if a != b {
      var x :| x in b && x !in a;
      assert a <= b - {x};
      Subset(a, b - {x});
    }
  }

  lemma {:induction false} Subset(a: set<Request>, b: set<Request>)
    requires a <= b
    ensures |a| <= |b|
    decreases a
  {
    if a != {} {
      var x :| x in a;
      Subset(a - {x}, b - {x});
    }
  }

  lemma ArrivedGate(b: Barrier, r: Request)
    requires GateOk(b) && b.gate == Filling && r !in b.arrived
    ensures GateOk(Arrived(b, r))
  {
    Subset(b.waiting + {r}, b.arrived + {r});
    Subset(b.arrived, b.arrived + {r});
  }

  lemma ArrivedAll(b: Barrier, r: Request)
    requires GateOk(b) && AllOrNone(b) && b.gate == Filling && r in b.held && r !in b.arrived
    ensures AllOrNone(Arrived(b, r))
  {
    MembersFit(b.held);
    Subset(b.waiting + {r}, Members(b.held));
    if |b.waiting| + 1 == b.parties {
      SameSize(b.waiting + {r}, Members(b.held));
    }
  }

  lemma WokenOk(b: Barrier, r: Request)
    requires BarrierOk(b) && b.gate == Draining && r in b.waiting
    ensures BarrierOk(Woken(b, r))
  {
  }

  lemma GaveUpOk(b: Barrier, r: Request)
    requires BarrierOk(b) && b.gate == Filling && r in b.waiting
    ensures BarrierOk(GaveUp(b, r))
  {
  }

  lemma NotedOk(b: Barrier, setup: Setup, joins: bool, r: Request)
    requires BarrierOk(b)
    requires setup.Ready? ==> (joins <==> |First(b.parties, b.matching)| < b.parties)
    requires !setup.Ready? ==> b.matching == []
    ensures BarrierOk(Noted(b, setup, joins, r))
  {
    var c := Noted(b, setup, joins, r);
    assert HeldOk(c);
    assert Members(b.held) <= Members(c.held);
  }

  // ---------------------------------------------------------------- every reachable state

  ghost predicate BarriersOk(s: State) {
    forall n :: 0 <= n < |s.barriers| ==> BarrierOk(s.barriers[n])
  }

  /** The registered barrier is the newest, and the entries are the places taken at it. */
  ghost predicate FieldsOk(s: State) {
    && (s.fields.rendezvous.Some? ==>
          && s.fields.rendezvous.value.barrier + 1 == |s.barriers|
          && s.fields.rendezvous.value.parties == s.barriers[|s.barriers| - 1].parties
          && (if s.setup.Ready?
              then s.fields.entries == First(s.fields.rendezvous.value.parties, s.barriers[|s.barriers| - 1].matching)
              else s.barriers[|s.barriers| - 1].matching == []))
    && (!s.setup.Ready? ==> s.fields.rendezvous.Some?)
  }

  ghost predicate PhaseOk(s: State, r: Request)
    requires r in s.requests
  {
    match s.requests[r]
    case Held(n) => n < |s.barriers| && r in s.barriers[n].held && r !in s.barriers[n].arrived
    case Waiting(n) => n < |s.barriers| && r in s.barriers[n].waiting
    case Released(n) => n < |s.barriers| && r in s.barriers[n].released
    case Forwarded(Some(n)) => n < |s.barriers| && r in s.barriers[n].released
    case _ => true
  }

  ghost predicate PhasesOk(s: State) {
    forall r :: r in s.requests ==> PhaseOk(s, r)
  }

  /** A request that goes straight through. */
  ghost predicate Passes(p: Phase) {
    p == Free || p == Forwarded(None)
  }

  ghost predicate HeldAt(s: State, r: Request) {
    forall n :: 0 <= n < |s.barriers| && r in s.barriers[n].held ==> r in s.requests && !Passes(s.requests[r])
  }

  ghost predicate LateAt(s: State, r: Request) {
    forall n :: 0 <= n < |s.barriers| && r in s.barriers[n].matching && r !in s.barriers[n].held
                ==> r in s.requests && Passes(s.requests[r])
  }

  /** What is held never passes straight through. */
  ghost predicate HeldKnown(s: State) {
    forall r: Request :: HeldAt(s, r)
  }

  /** What matched too late always does. */
  ghost predicate LateKnown(s: State) {
    forall r: Request :: LateAt(s, r)
  }

  ghost predicate ArrivalsOk(s: State) {
    forall n :: 0 <= n < |s.barriers| ==> s.barriers[n].arrived <= Members(s.barriers[n].held)
  }

  ghost predicate Inv(s: State) {
    BarriersOk(s) && FieldsOk(s) && PhasesOk(s) && HeldKnown(s) && LateKnown(s) && ArrivalsOk(s)
  }

  lemma EnterBarriers(s: State, r: Request, operation: string)
    requires BarriersOk(s) && FieldsOk(s) && r !in s.requests
    ensures BarriersOk(EnterStep(s, r, operation))
  {
    if operation == s.fields.operation && s.fields.rendezvous.Some? {
      NotedOk(s.barriers[|s.barriers| - 1], s.setup, Joins(s.fields, operation), r);
    }
  }

  lemma ArriveBarriers(s: State, r: Request, n: nat)
    requires BarriersOk(s) && n < |s.barriers| && r in s.barriers[n].held && r !in s.barriers[n].arrived
    ensures BarriersOk(ArriveStep(s, r, n))
  {
    var b := s.barriers[n];
    if b.gate == Filling {
      ArrivedGate(b, r);
      if b.early == [] { ArrivedAll(b, r); }
    }
  }

  lemma WakeBarriers(s: State, r: Request, n: nat)
    requires BarriersOk(s) && n < |s.barriers| && r in s.barriers[n].waiting
    ensures BarriersOk(WakeStep(s, r, n))
  {
    if s.barriers[n].gate == Draining { WokenOk(s.barriers[n], r); }
  }

  lemma NextBarriersOk(s: State, step: Step)
    requires BarriersOk(s) && FieldsOk(s) && PhasesOk(s)
    ensures BarriersOk(Next(s, step))
  {
    if step.Enter? {
      if step.request !in s.requests { EnterBarriers(s, step.request, step.about); }
    } else if step.Arrive? || step.Wake? || step.TimeOut? {
      var r := step.request;
      if Known(s, At(s, r)) {
        assert PhaseOk(s, r);
        var n := At(s, r).barrier;
        if step.Arrive? && At(s, r).Held? { ArriveBarriers(s, r, n); }
        if step.Wake? && At(s, r).Waiting? { WakeBarriers(s, r, n); }
        if step.TimeOut? && At(s, r).Waiting? && s.barriers[n].gate == Filling { GaveUpOk(s.barriers[n], r); }
      }
    }
  }

  lemma EnterFields(s: State, r: Request, operation: string)
    requires FieldsOk(s)
    ensures FieldsOk(EnterStep(s, r, operation))
  {
  }

  /** At the barrier itself, nobody touches the fields. */
  lemma BarrierFields(s: State, step: Step)
    requires step.Arrive? || step.Wake? || step.TimeOut? || step.Abort? || step.Forward?
    ensures var t := Next(s, step);
            && t.fields == s.fields && t.setup == s.setup && |t.barriers| == |s.barriers|
            && (forall n :: 0 <= n < |s.barriers| ==>
                  t.barriers[n].parties == s.barriers[n].parties && t.barriers[n].matching == s.barriers[n].matching)
  {
  }

  lemma NextFieldsOk(s: State, step: Step)
    requires FieldsOk(s)
    ensures FieldsOk(Next(s, step))
  {
    if step.Arrive? || step.Wake? || step.TimeOut? || step.Abort? || step.Forward? {
      BarrierFields(s, step);
    } else if step.Enter? {
      EnterFields(s, step.request, step.about);
    }
  }

  /** Nothing at the barrier changed for anyone but `r`. */
  ghost predicate OnlyFor(b: Barrier, c: Barrier, r: Request) {
    && (forall x :: x in b.held ==> x in c.held)
    && (forall x :: x != r && x in c.held ==> x in b.held)
    && (forall x :: x != r && x in c.matching ==> x in b.matching)
    && c.arrived <= b.arrived + {r}
    && b.waiting <= c.waiting + {r}
    && b.released <= c.released
  }

  ghost predicate OnlyRequest(s: State, t: State, r: Request) {
    && |s.barriers| <= |t.barriers|
    && (forall n :: 0 <= n < |s.barriers| ==> OnlyFor(s.barriers[n], t.barriers[n], r))
    && (forall n :: |s.barriers| <= n < |t.barriers| ==> t.barriers[n].held == [] && t.barriers[n].matching == [])
    && (forall x :: x != r ==> (x in t.requests <==> x in s.requests))
    && (forall x :: x in t.requests && x != r ==> t.requests[x] == s.requests[x])
  }

  lemma OthersOk(s: State, t: State, r: Request)
    requires PhasesOk(s) && OnlyRequest(s, t, r)
    ensures forall x :: x in t.requests && x != r ==> PhaseOk(t, x)
  {
    forall x | x in t.requests && x != r ensures PhaseOk(t, x) {
      assert PhaseOk(s, x);
    }
  }

  /** The request a step is about. */
  ghost function Subject(step: Step): (r: Request)
  {
    if step.Begin? || step.NameOperation? || step.Clear? || step.End? then 0 else step.request
  }

  lemma BarriersAreLocal(s: State, step: Step, n: nat)
    requires n < |s.barriers|
    ensures |s.barriers| <= |Next(s, step).barriers|
    ensures OnlyFor(s.barriers[n], Next(s, step).barriers[n], Subject(step))
  {
  }

  lemma NextIsLocal(s: State, step: Step)
    ensures OnlyRequest(s, Next(s, step), Subject(step))
  {
    forall n | 0 <= n < |s.barriers| ensures OnlyFor(s.barriers[n], Next(s, step).barriers[n], Subject(step)) {
      BarriersAreLocal(s, step, n);
    }
  }

  lemma NextPhaseOk(s: State, step: Step)
    requires PhasesOk(s) && FieldsOk(s) && ArrivalsOk(s) && HeldKnown(s)
    requires Subject(step) in Next(s, step).requests
    ensures PhaseOk(Next(s, step), Subject(step))
  {
    assert HeldAt(s, Subject(step));
    if Subject(step) in s.requests { assert PhaseOk(s, Subject(step)); }
  }

  lemma NextPhasesOk(s: State, step: Step)
    requires PhasesOk(s) && FieldsOk(s) && ArrivalsOk(s) && HeldKnown(s)
    ensures PhasesOk(Next(s, step))
  {
    NextIsLocal(s, step);
    OthersOk(s, Next(s, step), Subject(step));
    if Subject(step) in Next(s, step).requests { NextPhaseOk(s, step); }
  }

  lemma SubjectHeld(s: State, step: Step)
    requires HeldAt(s, Subject(step))
    ensures HeldAt(Next(s, step), Subject(step))
  {
  }

  lemma SubjectLate(s: State, step: Step)
    requires HeldAt(s, Subject(step)) && LateAt(s, Subject(step))
    ensures LateAt(Next(s, step), Subject(step))
  {
  }

  lemma OthersKnown(s: State, t: State, r: Request, x: Request)
    requires OnlyRequest(s, t, r) && x != r
    ensures HeldAt(s, x) ==> HeldAt(t, x)
    ensures LateAt(s, x) ==> LateAt(t, x)
  {
  }

  lemma NextKnown(s: State, step: Step)
    requires HeldKnown(s) && LateKnown(s)
    ensures HeldKnown(Next(s, step)) && LateKnown(Next(s, step))
  {
    var t := Next(s, step);
    forall x: Request ensures HeldAt(t, x) && LateAt(t, x) {
      assert HeldAt(s, x) && LateAt(s, x);
      if x == Subject(step) {
        SubjectHeld(s, step);
        SubjectLate(s, step);
      } else {
        NextIsLocal(s, step);
        OthersKnown(s, t, Subject(step), x);
      }
    }
  }

  lemma NextArrivalsOk(s: State, step: Step)
    requires PhasesOk(s) && ArrivalsOk(s)
    ensures ArrivalsOk(Next(s, step))
  {
  }

  lemma NextKeepsInv(s: State, step: Step)
    requires Inv(s)
    ensures Inv(Next(s, step))
  {
    NextBarriersOk(s, step);
    NextFieldsOk(s, step);
    NextPhasesOk(s, step);
    NextKnown(s, step);
    NextArrivalsOk(s, step);
  }

  lemma {:induction false} RunsKeepInv(steps: seq<Step>)
    ensures Inv(Run(Initial, steps))
  {
    if steps != [] {
      RunsKeepInv(steps[..|steps| - 1]);
      NextKeepsInv(Run(Initial, steps[..|steps| - 1]), steps[|steps| - 1]);
    }
  }

  // ---------------------------------------------------------------- what the rendezvous promises

  ghost predicate Reachable(s: State) {
    exists steps :: s == Run(Initial, steps)
  }

  lemma ReachableInv(s: State)
    requires Reachable(s)
    ensures Inv(s)
  {
    var steps :| s == Run(Initial, steps);
    RunsKeepInv(steps);
  }

  /** In every interleaving, a request that was held is forwarded only after at least as many parties as
      its barrier has places have arrived. */
  lemma ForwardedAfterArrivals(s: State, r: Request, n: nat)
    requires Reachable(s) && r in s.requests && s.requests[r] == Forwarded(Some(n))
    ensures n < |s.barriers| && r in s.barriers[n].arrived && |s.barriers[n].arrived| >= s.barriers[n].parties
  {
    ReachableInv(s);
    assert PhaseOk(s, r) && BarrierOk(s.barriers[n]);
  }

  /** A barrier holds the requests that raced with `begin_rendezvous`, then the first N that matched
      after it; so it holds exactly the first N just when no request raced. Every later match passes
      straight through, and nothing that is held does. */
  lemma HoldsExactlyTheFirst(s: State, n: nat)
    requires Reachable(s) && n < |s.barriers|
    ensures var b := s.barriers[n]; b.held == First(b.parties, b.matching) <==> b.early == []
    ensures forall r :: r in s.barriers[n].held ==> r in s.requests && !Passes(s.requests[r])
    ensures forall r :: r in s.barriers[n].matching && r !in s.barriers[n].held ==>
              r in s.requests && Passes(s.requests[r])
  {
    ReachableInv(s);
    ExactlyFirst(s, n);
    forall r | r in s.barriers[n].held || r in s.barriers[n].matching ensures HeldAt(s, r) && LateAt(s, r) {}
  }

  lemma ExactlyFirst(s: State, n: nat)
    requires BarriersOk(s) && n < |s.barriers|
    ensures var b := s.barriers[n]; b.held == First(b.parties, b.matching) <==> b.early == []
  {
    var b := s.barriers[n];
    assert BarrierOk(b);
    assert |b.held| == |b.early| + |First(b.parties, b.matching)|;
  }

  /** When none raced, the barrier is all or nothing: if one held request is forwarded then all N have
      arrived and they are the first N; and a timed-out barrier has forwarded none. */
  lemma AllOrNothing(s: State, r: Request, n: nat)
    requires Reachable(s) && r in s.requests && s.requests[r] == Forwarded(Some(n))
    requires n < |s.barriers| && s.barriers[n].early == []
    ensures var b := s.barriers[n];
            && b.gate != Broken
            && b.held == First(b.parties, b.matching) && |b.held| == b.parties
            && b.arrived == Members(b.held)
  {
    ReachableInv(s);
    assert PhaseOk(s, r) && BarrierOk(s.barriers[n]);
  }

  lemma RunSnoc(s: State, steps: seq<Step>, step: Step)
    ensures Run(s, steps + [step]) == Next(Run(s, steps), step)
  {
    assert (steps + [step])[..|steps|] == steps;
  }

  const Prepare := "prepare_artifact_publish"

  /** Request 0 falls between the assignments of `begin_rendezvous`; requests 1 and 2 follow. */
  const Race: seq<Step> := [Begin(2, Prepare), Enter(0, Prepare), NameOperation, Clear, Enter(1, Prepare),
    Enter(2, Prepare)]

  /** The state with one barrier of two parties after `begin_rendezvous` returned. */
  function Meeting(
    matching: seq<Request>, held: seq<Request>, gate: Gate, waiting: set<Request>,
    arrived: set<Request>, released: set<Request>, requests: map<Request, Phase>): (s: State)
  {
    State(Fields(Some(Party(0, 2)), Prepare, matching), Ready,
          [Barrier(2, gate, waiting, [0], matching, held, arrived, released)], requests)
  }

  const Raced := Meeting([1, 2], [0, 1, 2], Filling, {}, {}, {}, map[0 := Held(0), 1 := Held(0), 2 := Held(0)])

  lemma RaceOpens()
    ensures Run(Initial, Race[..4]) == Meeting([], [0], Filling, {}, {}, {}, map[0 := Held(0)])
  {
    var b := Barrier(2, Filling, {}, [], [], [], {}, {});
    var f := Fields(Some(Party(0, 2)), Prepare, []);
    assert Race[..1][..0] == [] && Race[..2][..1] == Race[..1] && Race[..3][..2] == Race[..2]
           && Race[..4][..3] == Race[..3];
    assert Run(Initial, Race[..1]) == State(f, BarrierSet(Prepare), [b], map[]);
    var s := Run(Initial, Race[..2]);
    assert s.barriers[0].early == [0] && s.barriers[0].held == [0];
    assert s.requests == map[0 := Held(0)];
  }

  lemma RaceRun()
    ensures Run(Initial, Race) == Raced
  {
    RaceOpens();
    assert Race[..5][..4] == Race[..4] && Race == Race[..6] && Race[..6][..5] == Race[..5];
    var s := Run(Initial, Race[..5]);
    assert s.barriers[0].matching == [1] && s.barriers[0].held == [0, 1];
    assert s.barriers[0] == Barrier(2, Filling, {}, [0], [1], [0, 1], {}, {});
    assert s.requests == map[0 := Held(0), 1 := Held(0)];
    var t := Run(Initial, Race[..6]);
    assert t.barriers[0].matching == [1, 2] && t.barriers[0].held == [0, 1, 2];
    assert t.barriers[0] == Raced.barriers[0];
    assert t.requests == Raced.requests;
  }

  const Overtaken :=
    Meeting([1, 2], [0, 1, 2], Draining, {0}, {0, 1}, {1}, map[0 := Waiting(0), 1 := Forwarded(Some(0)), 2 := Held(0)])

  const OneWaits := Meeting([1, 2], [0, 1, 2], Filling, {0}, {0}, {}, map[0 := Waiting(0), 1 := Held(0), 2 := Held(0)])

  lemma FirstWaits()
    ensures Next(Raced, Arrive(0)) == OneWaits
  {
    var s := Next(Raced, Arrive(0));
    assert s.barriers[0].arrived == {0} && s.barriers[0].waiting == {0};
    assert s.barriers[0] == OneWaits.barriers[0];
    assert s.requests == OneWaits.requests;
  }

  const OneOut := Overtaken.(requests := map[0 := Waiting(0), 1 := Released(0), 2 := Held(0)])

  lemma SecondOpens()
    ensures Next(OneWaits, Arrive(1)) == OneOut
  {
    var s := Next(OneWaits, Arrive(1));
    assert |{0}| == 1;
    assert s.barriers[0].arrived == {0, 1} && s.barriers[0].released == {1};
    assert s.barriers[0] == OneOut.barriers[0];
    assert s.requests == OneOut.requests;
  }

  lemma SecondLeaves()
    ensures Next(OneOut, Forward(1)) == Overtaken
  {
    assert Next(OneOut, Forward(1)).requests == Overtaken.requests;
  }

  lemma {:induction false} RunThree(s: State, a: Step, b: Step, c: Step)
    ensures Run(s, [a, b, c]) == Next(Next(Next(s, a), b), c)
  {
    RunSnoc(s, [], a);
    assert [] + [a] == [a];
    RunSnoc(s, [a], b);
    assert [a] + [b] == [a, b];
    RunSnoc(s, [a, b], c);
    assert [a, b] + [c] == [a, b, c];
  }

  lemma Overtakes()
    ensures Run(Raced, [Arrive(0), Arrive(1), Forward(1)]) == Overtaken
  {
    RunThree(Raced, Arrive(0), Arrive(1), Forward(1));
    FirstWaits();
    SecondOpens();
    SecondLeaves();
  }

  const Drained :=
    Meeting([1, 2], [0, 1, 2], Filling, {}, {0, 1}, {0, 1},
      map[0 := Released(0), 1 := Forwarded(Some(0)), 2 := Held(0)])

  lemma Drains()
    ensures Next(Overtaken, Wake(0)) == Drained
  {
    var s := Next(Overtaken, Wake(0));
    assert {0} - {0} == {};
    assert s.barriers[0].waiting == {} && s.barriers[0].released == {0, 1};
    assert s.barriers[0] == Drained.barriers[0];
    assert s.requests == Drained.requests;
  }

  lemma Breaks()
    ensures var t := Run(Overtaken, [Wake(0), Arrive(2), TimeOut(2)]);
            |t.barriers| == 1 && t.barriers[0].gate == Broken && t.barriers[0].released == {0, 1}
  {
    RunThree(Overtaken, Wake(0), Arrive(2), TimeOut(2));
    Drains();
    ThirdIsLate();
  }

  lemma ThirdIsLate()
    ensures var t := Next(Next(Drained, Arrive(2)), TimeOut(2));
            |t.barriers| == 1 && t.barriers[0].gate == Broken && t.barriers[0].released == {0, 1}
  {
    var t := Next(Drained, Arrive(2));
    assert t.barriers[0].gate == Filling && t.barriers[0].released == {0, 1} && t.requests[2] == Waiting(0);
  }

  /** With a racing request the promise fails: of a rendezvous of two, request 1 is forwarded although
      request 2, the other one of the first two, has not arrived; later the barrier breaks behind it. */
  lemma RacingRequestBreaksIt()
    ensures var s := Run(Run(Initial, Race), [Arrive(0), Arrive(1), Forward(1)]);
            var t := Run(s, [Wake(0), Arrive(2), TimeOut(2)]);
            && |s.barriers| == 1 && |t.barriers| == 1
            && s.requests == map[0 := Waiting(0), 1 := Forwarded(Some(0)), 2 := Held(0)]
            && First(s.barriers[0].parties, s.barriers[0].matching) == [1, 2] && 2 !in s.barriers[0].arrived
            && t.barriers[0].gate == Broken && t.barriers[0].released == {0, 1}
  {
    RaceRun();
    Overtakes();
    Breaks();
  }
}
