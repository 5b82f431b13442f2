/** The one-shot response drop of the metadata proxies, as a state machine over the regions each
    connection thread runs atomically, and the class those regions belong to. */
module DropProxy {
  import opened Optional

  type Operation = string

  /** The three proxies that share the drop: the plain one drops any reply to the armed operation, the
      other two only a successful one; the publication proxy reports every unexpected exception. */
  datatype Kind = Plain | Evidence | Publication

  /** The shared fields. A callback is known by the number of the `arm` call that supplied it. */
  datatype Proxy = Proxy(dropOperation: Option<Operation>, onDrop: Option<nat>, dropped: bool, errors: seq<string>)

  datatype Response = Response(id: nat, operation: Option<Operation>, success: bool)

  // ---------------------------------------------------------------- the regions under the lock

  /** `arm`: None when a drop is already armed. */
  function Armed(p: Proxy, operation: Operation, callback: nat): (r: Option<Proxy>)
  {
    if p.dropOperation.Some? then None
    else Some(p.(dropOperation := Some(operation), onDrop := Some(callback), dropped := false))
  }

  predicate Selects(kind: Kind, p: Proxy, r: Response) {
    (kind != Plain ==> r.success) && r.operation == p.dropOperation
  }

  /** The region in which a reply may take the armed callback. */
  function Taken(kind: Kind, p: Proxy, r: Response): (q: Proxy)
  {
    if Selects(kind, p, r) then p.(dropOperation := None, onDrop := None) else p
  }

  function Callback(kind: Kind, p: Proxy, r: Response): (c: Option<nat>)
  {
    if Selects(kind, p, r) then p.onDrop else None
  }

  function WithError(p: Proxy, message: string): (q: Proxy)
  {
    p.(errors := p.errors + [message])
  }

  function WithSignal(p: Proxy): (q: Proxy)
  {
    p.(dropped := true)
  }

  /** The fields as the source keeps them; each method is one region no other thread interrupts. */
  class ResponseDropProxy {
    const kind: Kind
    var dropOperation: Option<Operation>
    var onDrop: Option<nat>
    var dropped: bool
    var errors: seq<string>

    ghost function View(): (p: Proxy)
      reads this
    {
      Proxy(dropOperation, onDrop, dropped, errors)
    }

    constructor (k: Kind)
      ensures kind == k && View() == Proxy(None, None, false, [])
    {
      kind := k;
      dropOperation, onDrop, dropped, errors := None, None, false, [];
    }

    /** Refuses, changing nothing, while an earlier drop is still armed. */
    method Arm(operation: Operation, callback: nat) returns (ok: bool)
      modifies this
      ensures ok == Armed(old(View()), operation, callback).Some?
      ensures View() == if ok then Armed(old(View()), operation, callback).value else old(View())
    {
      if dropOperation.Some? {
        return false;
      }
      dropOperation := Some(operation);
      onDrop := Some(callback);
      dropped := false;
      return true;
    }

    method Take(r: Response) returns (callback: Option<nat>)
      modifies this
      ensures View() == Taken(kind, old(View()), r)
      ensures callback == Callback(kind, old(View()), r)
    {
      callback := None;
      if kind == Plain || r.success {
        if r.operation == dropOperation {
          callback := onDrop;
          dropOperation := None;
          onDrop := None;
        }
      }
    }

    method Append(message: string)
      modifies this
      ensures View() == WithError(old(View()), message)
    {
      errors := errors + [message];
    }

    method Signal()
      modifies this
      ensures View() == WithSignal(old(View()))
    {
      dropped := true;
    }
  }

  // ---------------------------------------------------------------- threads

  /** Where a connection thread is between two regions. */
  datatype Phase =
    | Relaying
    | Answered(response: Response)
    | Passing(response: Response)
    | Claimed(arm: nat, response: Response)
    | Evidenced(arm: nat, response: Response)
    | Calling(arm: nat)
    | Called(arm: nat)
    | Failing
    | Reporting
    | Signalling
    | Closed

  /** What the history remembers. */
  datatype Event =
    | Claim(arm: nat, response: Response)
    | Dropped(response: Response)
    | Started(arm: nat)
    | Returned(arm: nat)
    | Signalled(arm: nat)
    | Delivered(response: Response)

  /** How far the controller's last `wait_dropped` since the last arm has come. */
  datatype Wait = NotWaiting | Seen | ReturnedNormally | Raised

  datatype State = State(
    kind: Kind, proxy: Proxy, arms: seq<Operation>, threads: map<nat, Phase>, answered: nat,
    wait: Wait, log: seq<Event>)

  function Initial(kind: Kind): (s: State)
  {
    State(kind, Proxy(None, None, false, []), [], map[], 0, NotWaiting, [])
  }

  datatype Step =
    | Arm(operation: Operation)
    | Connect(thread: nat)
    | Answer(thread: nat, about: Option<Operation>, success: bool)
    | Take(thread: nat)
    | Record(thread: nat)
    | Start(thread: nat)
    | Return(thread: nat)
    | Signal(thread: nat)
    | Deliver(thread: nat)
    | Fail(thread: nat)
    | Die(thread: nat)
    | CheckArmed(thread: nat)
    | Append(thread: nat, message: string)
    | Observe
    | TimeOut
    | Check

  function Move(s: State, thread: nat, phase: Phase): (t: State)
  {
    s.(threads := s.threads[thread := phase])
  }

  function At(s: State, thread: nat): (p: Phase)
  {
    if thread in s.threads then s.threads[thread] else Closed
  }

  /** Where an exception can leave the relay loop. */
  predicate MayRaise(p: Phase) {
    p.Relaying? || p.Answered? || p.Passing? || p.Claimed? || p.Evidenced? || p.Calling?
  }

  /** One region of one thread; a step its thread is not ready for does nothing. */
  function Next(s: State, step: Step): (t: State)
  {
    match step
    case Arm(operation) =>
      (match Armed(s.proxy, operation, |s.arms|)
       case None => s
       case Some(p) => s.(proxy := p, arms := s.arms + [operation], wait := NotWaiting))
    case Connect(i) => if i in s.threads then s else Move(s, i, Relaying)
    case Answer(i, operation, success) =>
      if At(s, i).Relaying?
      then Move(s, i, Answered(Response(s.answered, operation, success))).(answered := s.answered + 1) else s
    case Take(i) => if At(s, i).Answered? then TakeStep(s, i, At(s, i).response) else s
    case Record(i) =>
      if At(s, i).Claimed?
      then Move(s, i, Evidenced(At(s, i).arm, At(s, i).response)).(log := s.log + [Dropped(At(s, i).response)]) else s
    case Start(i) =>
      if At(s, i).Evidenced?
      then Move(s, i, Calling(At(s, i).arm)).(log := s.log + [Started(At(s, i).arm)]) else s
    case Return(i) =>
      if At(s, i).Calling?
      then Move(s, i, Called(At(s, i).arm)).(log := s.log + [Returned(At(s, i).arm)]) else s
    case Signal(i) =>
      if At(s, i).Called?
      then Move(s, i, Closed).(proxy := WithSignal(s.proxy), log := s.log + [Signalled(At(s, i).arm)])
      else if At(s, i).Signalling? then Move(s, i, Closed).(proxy := WithSignal(s.proxy))
      else s
    case Deliver(i) =>
      if At(s, i).Passing? then Move(s, i, Relaying).(log := s.log + [Delivered(At(s, i).response)]) else s
    case Fail(i) => if MayRaise(At(s, i)) then Move(s, i, Failing) else s
    case Die(i) => if MayRaise(At(s, i)) || At(s, i).Failing? then Move(s, i, Closed) else s
    case CheckArmed(i) =>
      if At(s, i).Failing? && (s.kind == Publication || s.proxy.dropOperation.Some?) then Move(s, i, Reporting) else s
    case Append(i, message) =>
      if At(s, i).Reporting?
      then Move(s, i, Signalling).(proxy := WithError(s.proxy, message)) else s
    case Observe => if s.proxy.dropped then s.(wait := Seen) else s
    case TimeOut => s.(wait := Raised)
    case Check =>
      if s.wait == Seen then s.(wait := if s.proxy.errors == [] then ReturnedNormally else Raised) else s
  }

  function TakeStep(s: State, i: nat, r: Response): (t: State)
  {
    var t := s.(proxy := Taken(s.kind, s.proxy, r));
    match Callback(s.kind, s.proxy, r)
    case None => Move(t, i, Passing(r))
    case Some(arm) => Move(t, i, Claimed(arm, r)).(log := s.log + [Claim(arm, r)])
  }

  function Run(s: State, steps: seq<Step>): (t: State)
  {
    if steps == [] then s else Next(Run(s, steps[..|steps| - 1]), steps[|steps| - 1])
  }

  // ---------------------------------------------------------------- what every step keeps

  /** The arm a thread has taken and not yet signalled. */
  ghost function Holding(p: Phase): (arm: Option<nat>)
  {
    if p.Claimed? || p.Evidenced? || p.Calling? || p.Called? then Some(p.arm) else None
  }

  /** The reply a thread has in hand. */
  ghost function InHand(p: Phase): (r: Option<Response>)
  {
    if p.Answered? || p.Passing? || p.Claimed? || p.Evidenced? then Some(p.response) else None
  }

  ghost predicate IsTaken(s: State, arm: nat) {
    exists i :: 0 <= i < |s.log| && s.log[i].Claim? && s.log[i].arm == arm
  }

  /** The armed callback is the newest arm's, and no reply has taken it. */
  ghost predicate ArmOk(s: State) {
    && (s.proxy.dropOperation.Some? <==> s.proxy.onDrop.Some?)
    && (s.proxy.onDrop.Some? ==>
          && s.proxy.onDrop.value + 1 == |s.arms|
          && s.proxy.dropOperation.value == s.arms[|s.arms| - 1]
          && !IsTaken(s, s.proxy.onDrop.value))
  }

  ghost predicate ClaimsOk(s: State) {
    && (forall i :: 0 <= i < |s.log| && s.log[i].Claim? ==>
          && s.log[i].arm < |s.arms|
          && s.log[i].response.operation == Some(s.arms[s.log[i].arm])
          && (s.kind != Plain ==> s.log[i].response.success))
    && (forall i, j :: 0 <= i < j < |s.log| && s.log[i].Claim? && s.log[j].Claim? ==> s.log[i].arm != s.log[j].arm)
  }

  /** Each taken arm has one holder, until it is signalled. */
  ghost predicate HoldersOk(s: State) {
    forall t :: t in s.threads && Holding(s.threads[t]).Some? ==> IsTaken(s, Holding(s.threads[t]).value)
  }

  ghost predicate HoldersDistinct(s: State) {
    forall t, u :: t in s.threads && u in s.threads && t != u && Holding(s.threads[t]).Some?
                   ==> Holding(s.threads[t]) != Holding(s.threads[u])
  }

  ghost predicate StartsOk(s: State) {
    forall i :: 0 <= i < |s.log| && s.log[i].Started? ==>
      && IsTaken(s, s.log[i].arm)
      && (forall t :: t in s.threads && (s.threads[t].Claimed? || s.threads[t].Evidenced?)
                      ==> s.threads[t].arm != s.log[i].arm)
  }

  ghost predicate StartsDistinct(s: State) {
    forall i, j :: 0 <= i < j < |s.log| && s.log[i].Started? && s.log[j].Started? ==> s.log[i].arm != s.log[j].arm
  }

  ghost predicate CallsOk(s: State) {
    && (forall t :: t in s.threads && s.threads[t].Calling? ==> Started(s.threads[t].arm) in s.log)
    && (forall t :: t in s.threads && s.threads[t].Called? ==> Returned(s.threads[t].arm) in s.log)
    && (forall i :: 0 <= i < |s.log| && s.log[i].Returned? ==> Started(s.log[i].arm) in s.log)
    && (forall i :: 0 <= i < |s.log| && s.log[i].Signalled? ==> Returned(s.log[i].arm) in s.log)
  }

  ghost predicate SignalsOk(s: State) {
    forall i :: 0 <= i < |s.log| && s.log[i].Signalled? ==>
      && IsTaken(s, s.log[i].arm)
      && (forall t :: t in s.threads ==> Holding(s.threads[t]) != Some(s.log[i].arm))
  }

  /** A reply is in one hand at most. */
  ghost predicate HandsOk(s: State) {
    forall t :: t in s.threads && InHand(s.threads[t]).Some? ==> InHand(s.threads[t]).value.id < s.answered
  }

  ghost predicate HandsDistinct(s: State) {
    forall t, u :: t in s.threads && u in s.threads && t != u
                   && InHand(s.threads[t]).Some? && InHand(s.threads[u]).Some?
                   ==> InHand(s.threads[t]).value.id != InHand(s.threads[u]).value.id
  }

  /** Nobody who could still deliver has a dropped reply in hand. */
  ghost predicate DropsOk(s: State) {
    forall i :: 0 <= i < |s.log| && s.log[i].Dropped? ==>
      && s.log[i].response.id < s.answered
      && (forall t :: t in s.threads && (s.threads[t].Answered? || s.threads[t].Passing?)
                      ==> s.threads[t].response.id != s.log[i].response.id)
  }

  /** Nobody has a delivered reply in hand. */
  ghost predicate DeliveriesOk(s: State) {
    forall i :: 0 <= i < |s.log| && s.log[i].Delivered? ==>
      && s.log[i].response.id < s.answered
      && (forall t :: t in s.threads && InHand(s.threads[t]).Some?
                      ==> InHand(s.threads[t]).value.id != s.log[i].response.id)
  }

  ghost predicate FatesOk(s: State) {
    forall i, j :: 0 <= i < |s.log| && 0 <= j < |s.log| && s.log[i].Dropped? && s.log[j].Delivered?
                   ==> s.log[i].response.id != s.log[j].response.id
  }

  ghost predicate ArmsOk(s: State) {
    && ArmOk(s) && ClaimsOk(s) && HoldersOk(s) && HoldersDistinct(s)
    && StartsOk(s) && StartsDistinct(s) && CallsOk(s) && SignalsOk(s)
  }

  ghost predicate RepliesOk(s: State) {
    HandsOk(s) && HandsDistinct(s) && DropsOk(s) && DeliveriesOk(s) && FatesOk(s)
  }

  lemma TakenGrows(s: State, t: State)
    requires s.log <= t.log
    ensures forall arm :: IsTaken(s, arm) ==> IsTaken(t, arm)
  {
    forall arm | IsTaken(s, arm) ensures IsTaken(t, arm) {
      var i :| 0 <= i < |s.log| && s.log[i].Claim? && s.log[i].arm == arm;
      assert t.log[i] == s.log[i];
    }
  }

  lemma LastIsTaken(s: State)
    requires s.log != [] && s.log[|s.log| - 1].Claim?
    ensures IsTaken(s, s.log[|s.log| - 1].arm)
  {
  }

  lemma NextArmOk(s: State, step: Step)
    requires ArmOk(s) && ClaimsOk(s)
    ensures ArmOk(Next(s, step))
  {
  }

  lemma NextClaimsOk(s: State, step: Step)
    requires ArmOk(s) && ClaimsOk(s)
    ensures ClaimsOk(Next(s, step))
  {
  }

  lemma NextHoldersOk(s: State, step: Step)
    requires ArmOk(s) && HoldersOk(s)
    ensures HoldersOk(Next(s, step))
  {
    var t := Next(s, step);
    TakenGrows(s, t);
    if t.log != [] && t.log[|t.log| - 1].Claim? { LastIsTaken(t); }
  }

  lemma NextHoldersDistinct(s: State, step: Step)
    requires ArmOk(s) && HoldersOk(s) && HoldersDistinct(s)
    ensures HoldersDistinct(Next(s, step))
  {
  }

  lemma NextStartsOk(s: State, step: Step)
    requires ArmOk(s) && HoldersOk(s) && HoldersDistinct(s) && StartsOk(s)
    ensures StartsOk(Next(s, step))
  {
    TakenGrows(s, Next(s, step));
  }

  lemma NextStartsDistinct(s: State, step: Step)
    requires StartsOk(s) && StartsDistinct(s)
    ensures StartsDistinct(Next(s, step))
  {
  }

  lemma NextCallsOk(s: State, step: Step)
    requires CallsOk(s)
    ensures CallsOk(Next(s, step))
  {
  }

  lemma NextSignalsOk(s: State, step: Step)
    requires ArmOk(s) && HoldersOk(s) && HoldersDistinct(s) && SignalsOk(s)
    ensures SignalsOk(Next(s, step))
  {
    TakenGrows(s, Next(s, step));
  }

  lemma NextHandsOk(s: State, step: Step)
    requires HandsOk(s)
    ensures HandsOk(Next(s, step))
  {
  }

  lemma NextHandsDistinct(s: State, step: Step)
    requires HandsOk(s) && HandsDistinct(s)
    ensures HandsDistinct(Next(s, step))
  {
  }

  lemma NextDropsOk(s: State, step: Step)
    requires HandsOk(s) && HandsDistinct(s) && DropsOk(s)
    ensures DropsOk(Next(s, step))
  {
  }

  lemma NextDeliveriesOk(s: State, step: Step)
    requires HandsOk(s) && HandsDistinct(s) && DeliveriesOk(s)
    ensures DeliveriesOk(Next(s, step))
  {
  }

  lemma NextFatesOk(s: State, step: Step)
    requires DropsOk(s) && DeliveriesOk(s) && FatesOk(s)
    ensures FatesOk(Next(s, step))
  {
  }

  lemma NextKeepsArms(s: State, step: Step)
    requires ArmsOk(s)
    ensures ArmsOk(Next(s, step))
  {
    NextArmOk(s, step);
    NextClaimsOk(s, step);
    NextHoldersOk(s, step);
    NextHoldersDistinct(s, step);
    NextStartsOk(s, step);
    NextStartsDistinct(s, step);
    NextCallsOk(s, step);
    NextSignalsOk(s, step);
  }

  lemma NextKeepsReplies(s: State, step: Step)
    requires RepliesOk(s)
    ensures RepliesOk(Next(s, step))
  {
    NextHandsOk(s, step);
    NextHandsDistinct(s, step);
    NextDropsOk(s, step);
    NextDeliveriesOk(s, step);
    NextFatesOk(s, step);
  }

  ghost predicate Inv(kind: Kind, s: State) {
    s.kind == kind && ArmsOk(s) && RepliesOk(s)
  }

  lemma InitialOk(kind: Kind)
    ensures Inv(kind, Initial(kind))
  {
  }

  lemma NextKeepsInv(kind: Kind, s: State, step: Step)
    requires Inv(kind, s)
    ensures Inv(kind, Next(s, step))
  {
    NextKeepsArms(s, step);
    NextKeepsReplies(s, step);
  }

  lemma {:induction false} RunsKeep(kind: Kind, steps: seq<Step>)
    ensures Inv(kind, Run(Initial(kind), steps))
  {
    if steps == [] {
      InitialOk(kind);
    } else {
      var n := |steps| - 1;
      RunsKeep(kind, steps[..n]);
      NextKeepsInv(kind, Run(Initial(kind), steps[..n]), steps[n]);
    }
  }

  // ---------------------------------------------------------------- what the drop promises

  /** In every interleaving an arm claims at most one reply, its callback starts at most once and only
      after the claim, and what is claimed is a reply to the armed operation (a successful one, for the
      proxies that look). */
  lemma OneDropPerArm(kind: Kind, steps: seq<Step>, i: nat, j: nat)
    requires var log := Run(Initial(kind), steps).log; i < |log| && j < |log|
    ensures var s := Run(Initial(kind), steps);
            && (s.log[i].Claim? && s.log[j].Claim? && s.log[i].arm == s.log[j].arm ==> i == j)
            && (s.log[i].Started? && s.log[j].Started? && s.log[i].arm == s.log[j].arm ==> i == j)
            && (s.log[i].Started? ==> IsTaken(s, s.log[i].arm))
            && (s.log[i].Claim? ==>
                  && s.log[i].arm < |s.arms|
                  && s.log[i].response.operation == Some(s.arms[s.log[i].arm])
                  && (kind != Plain ==> s.log[i].response.success))
  {
    RunsKeep(kind, steps);
  }

  /** Every reply a run of this proxy claims is a successful one. */
  ghost predicate ClaimsOnlySuccesses(kind: Kind) {
    forall steps: seq<Step>, i: nat ::
      var log := Run(Initial(kind), steps).log; i < |log| && log[i].Claim? ==> log[i].response.success
  }

  /** Only the plain proxy does not look at the status: it claims, and so drops, a failed reply too. */
  lemma OnlyPlainDropsFailures(kind: Kind)
    ensures ClaimsOnlySuccesses(kind) <==> kind != Plain
  {
    if kind == Plain {
      PlainDropsFailure();
      var steps := [Arm("commit"), Connect(0), Answer(0, Some("commit"), false), Take(0)];
      var log := Run(Initial(kind), steps).log;
      assert log[0].Claim? && !log[0].response.success;
    } else {
      forall steps: seq<Step>, i: nat | i < |Run(Initial(kind), steps).log| && Run(Initial(kind), steps).log[i].Claim?
        ensures Run(Initial(kind), steps).log[i].response.success
      {
        OneDropPerArm(kind, steps, i, i);
      }
    }
  }

  /** A run of the plain proxy that claims a failed reply to the armed operation. */
  lemma PlainDropsFailure()
    ensures var steps := [Arm("commit"), Connect(0), Answer(0, Some("commit"), false), Take(0)];
            Run(Initial(Plain), steps).log == [Claim(0, Response(0, Some("commit"), false))]
  {
    var start := Initial(Plain);
    var one, two := [Arm("commit")], [Arm("commit"), Connect(0)];
    var three := [Arm("commit"), Connect(0), Answer(0, Some("commit"), false)];
    var four := [Arm("commit"), Connect(0), Answer(0, Some("commit"), false), Take(0)];
    assert one[..0] == [] && two[..1] == one && three[..2] == two && four[..3] == three;
    assert Run(start, one) == Next(start, Arm("commit"));
    assert Run(start, two) == Next(Run(start, one), Connect(0));
    assert Run(start, three) == Next(Run(start, two), Answer(0, Some("commit"), false));
    assert Run(start, four) == Next(Run(start, three), Take(0));
  }

  /** No reply is both recorded as dropped and delivered to the client. */
  lemma NeverDroppedAndDelivered(kind: Kind, steps: seq<Step>, i: nat, j: nat)
    requires var log := Run(Initial(kind), steps).log;
             i < |log| && j < |log| && log[i].Dropped? && log[j].Delivered?
    ensures var log := Run(Initial(kind), steps).log; log[i].response.id != log[j].response.id
  {
    RunsKeep(kind, steps);
  }

  // ---------------------------------------------------------------- what a normal return means

  /** No thread still has to signal for an earlier arm. */
  ghost predicate NoStale(s: State) {
    forall t :: t in s.threads && Holding(s.threads[t]).Some? ==> Holding(s.threads[t]).value + 1 == |s.arms|
  }

  ghost predicate Unclaimed(s: State) {
    forall t :: t in s.threads ==> Holding(s.threads[t]).None?
  }

  ghost predicate CurrentSignalled(s: State) {
    s.arms != [] && Signalled(|s.arms| - 1) in s.log
  }

  /** An error is on record before its thread raises the event. */
  ghost predicate ErrorsOk(s: State) {
    forall t :: t in s.threads && s.threads[t].Signalling? ==> s.proxy.errors != []
  }

  ghost predicate WaitOk(s: State) {
    && (s.proxy.errors == [] && (s.proxy.dropped || s.wait == Seen) ==> CurrentSignalled(s))
    && (s.wait == ReturnedNormally ==> CurrentSignalled(s))
  }

  ghost predicate Arms(s: State, step: Step) {
    step.Arm? && s.proxy.dropOperation.None?
  }

  lemma NextErrorsOk(s: State, step: Step)
    requires ErrorsOk(s)
    ensures ErrorsOk(Next(s, step))
  {
  }

  lemma NextNoStale(s: State, step: Step)
    requires ArmOk(s) && NoStale(s) && !Arms(s, step)
    ensures NoStale(Next(s, step))
  {
  }

  lemma NextWaitOk(s: State, step: Step)
    requires ErrorsOk(s) && NoStale(s) && WaitOk(s) && !Arms(s, step)
    ensures WaitOk(Next(s, step))
  {
  }

  lemma ArmWaitOk(s: State, operation: Operation)
    requires Unclaimed(s) && Arms(s, Arm(operation))
    ensures NoStale(Next(s, Arm(operation))) && WaitOk(Next(s, Arm(operation)))
  {
  }

  ghost predicate Good(s: State) {
    ArmsOk(s) && ErrorsOk(s) && NoStale(s) && WaitOk(s)
  }

  lemma NextGood(s: State, step: Step)
    requires Good(s) && (Arms(s, step) ==> Unclaimed(s))
    ensures Good(Next(s, step))
  {
    NextKeepsArms(s, step);
    NextErrorsOk(s, step);
    if Arms(s, step) {
      ArmWaitOk(s, step.operation);
    } else {
      NextNoStale(s, step);
      NextWaitOk(s, step);
    }
  }

  /** A wait that returned normally leaves no claim open: its arm was signalled. */
  lemma NormalReturnIsUnclaimed(s: State)
    requires Good(s) && (s.arms == [] || s.wait == ReturnedNormally)
    ensures Unclaimed(s)
  {
    assert s.arms != [] ==> CurrentSignalled(s);
  }

  /** Every arm but the first follows a `wait_dropped` that returned normally. */
  ghost predicate Disciplined(s: State, steps: seq<Step>) {
    steps == [] ||
    (var n := |steps| - 1;
     var t := Run(s, steps[..n]);
     Disciplined(s, steps[..n]) && (Arms(t, steps[n]) ==> t.arms == [] || t.wait == ReturnedNormally))
  }

  lemma {:induction false} DisciplinedGood(kind: Kind, steps: seq<Step>)
    requires Disciplined(Initial(kind), steps)
    ensures Good(Run(Initial(kind), steps))
  {
    if steps != [] {
      var n := |steps| - 1;
      var s := Run(Initial(kind), steps[..n]);
      DisciplinedGood(kind, steps[..n]);
      if Arms(s, steps[n]) { NormalReturnIsUnclaimed(s); }
      NextGood(s, steps[n]);
    }
  }

  /** The wait returned normally only if the callback of the current arm has run to its end. */
  ghost predicate ReturnIsTrue(s: State) {
    s.wait == ReturnedNormally ==> s.arms != [] && Returned(|s.arms| - 1) in s.log
  }

  lemma GoodReturnIsTrue(s: State)
    requires Good(s)
    ensures ReturnIsTrue(s)
  {
  }

  /** If each new arm follows a normally returned wait, then a normal return means that the callback of
      the current arm has run to its end. */
  lemma NormalReturnMeansDropped(kind: Kind, steps: seq<Step>)
    requires Disciplined(Initial(kind), steps)
    ensures ReturnIsTrue(Run(Initial(kind), steps))
  {
    DisciplinedGood(kind, steps);
    GoodReturnIsTrue(Run(Initial(kind), steps));
  }

  // ---------------------------------------------------------------- exactly when it means that

  ghost predicate NoArm(s: State, steps: seq<Step>) {
    steps == [] ||
    (var n := |steps| - 1;
     NoArm(s, steps[..n]) && !Arms(Run(s, steps[..n]), steps[n]))
  }

  /** Whatever the threads do until the next arm, a wait on the present one returns normally only after
      its callback. */
  ghost predicate WaitIsSound(s: State) {
    forall steps: seq<Step> :: NoArm(s, steps) ==> ReturnIsTrue(Run(s, steps))
  }

  lemma {:induction false} QuietGood(s: State, steps: seq<Step>)
    requires Good(s) && NoArm(s, steps)
    ensures Good(Run(s, steps))
  {
    if steps != [] {
      var n := |steps| - 1;
      QuietGood(s, steps[..n]);
      NextGood(Run(s, steps[..n]), steps[n]);
    }
  }

  lemma UnclaimedIsSound(s: State, operation: Operation)
    requires ArmsOk(s) && ErrorsOk(s) && Unclaimed(s) && Arms(s, Arm(operation))
    ensures WaitIsSound(Next(s, Arm(operation)))
  {
    var t := Next(s, Arm(operation));
    NextKeepsArms(s, Arm(operation));
    NextErrorsOk(s, Arm(operation));
    ArmWaitOk(s, operation);
    forall steps: seq<Step> | NoArm(t, steps) ensures ReturnIsTrue(Run(t, steps)) {
      QuietGood(t, steps);
      GoodReturnIsTrue(Run(t, steps));
    }
  }

  lemma RunStep(s: State, steps: seq<Step>, step: Step)
    requires NoArm(s, steps) && !step.Arm?
    ensures NoArm(s, steps + [step]) && Run(s, steps + [step]) == Next(Run(s, steps), step)
  {
    assert (steps + [step])[..|steps|] == steps;
  }

  /** Thread `i` holds an arm other than the newest one, which has not run; no error is on record. */
  ghost predicate Misleading(s: State, i: nat) {
    && i in s.threads && Holding(s.threads[i]).Some? && Holding(s.threads[i]).value + 1 != |s.arms|
    && s.arms != [] && Returned(|s.arms| - 1) !in s.log && s.proxy.errors == []
  }

  lemma LateSignal(s: State, i: nat)
    requires Misleading(s, i)
    ensures var t := Next(Next(Next(s, Record(i)), Start(i)), Return(i));
            Misleading(t, i) && t.threads[i].Called? && t.arms == s.arms
  {
    var t := Next(s, Record(i));
    assert Misleading(t, i) && !t.threads[i].Claimed?;
    var u := Next(t, Start(i));
    assert Misleading(u, i) && !u.threads[i].Claimed? && !u.threads[i].Evidenced?;
  }

  lemma LateWait(s: State, i: nat)
    requires Misleading(s, i) && s.threads[i].Called?
    ensures !ReturnIsTrue(Next(Next(Next(s, Signal(i)), Observe), Check))
  {
  }

  lemma MisleadingIsUnsound(s: State, i: nat)
    requires Misleading(s, i)
    ensures !WaitIsSound(s)
  {
    LateSignal(s, i);
    LateWait(Next(Next(Next(s, Record(i)), Start(i)), Return(i)), i);
    RunStep(s, [], Record(i));
    RunStep(s, [] + [Record(i)], Start(i));
    RunStep(s, [] + [Record(i)] + [Start(i)], Return(i));
    RunStep(s, [] + [Record(i)] + [Start(i)] + [Return(i)], Signal(i));
    RunStep(s, [] + [Record(i)] + [Start(i)] + [Return(i)] + [Signal(i)], Observe);
    RunStep(s, [] + [Record(i)] + [Start(i)] + [Return(i)] + [Signal(i)] + [Observe], Check);
  }

  lemma FreshArmHasNotRun(s: State)
    requires ArmsOk(s)
    ensures Returned(|s.arms|) !in s.log
  {
  }

  /** Exactly when arming makes waiting sound, in every reachable state: when no thread holds an earlier
      claim it has yet to signal. (Once an error is on record no wait returns normally at all.) */
  lemma SoundExactlyWhenUnclaimed(kind: Kind, steps: seq<Step>, operation: Operation)
    requires var s := Run(Initial(kind), steps); Arms(s, Arm(operation)) && s.proxy.errors == []
    ensures var s := Run(Initial(kind), steps);
            WaitIsSound(Next(s, Arm(operation))) <==> Unclaimed(s)
  {
    RunsKeep(kind, steps);
    RunErrorsOk(kind, steps);
    var s := Run(Initial(kind), steps);
    if Unclaimed(s) {
      UnclaimedIsSound(s, operation);
    } else {
      var i :| i in s.threads && Holding(s.threads[i]).Some?;
      StaleIsMisleading(s, operation, i);
      MisleadingIsUnsound(Next(s, Arm(operation)), i);
    }
  }

  lemma StaleIsMisleading(s: State, operation: Operation, i: nat)
    requires ArmsOk(s) && Arms(s, Arm(operation)) && s.proxy.errors == []
    requires i in s.threads && Holding(s.threads[i]).Some?
    ensures Misleading(Next(s, Arm(operation)), i)
  {
    FreshArmHasNotRun(s);
    assert IsTaken(s, Holding(s.threads[i]).value);
  }

  lemma {:induction false} RunErrorsOk(kind: Kind, steps: seq<Step>)
    ensures ErrorsOk(Run(Initial(kind), steps))
  {
    if steps != [] {
      RunErrorsOk(kind, steps[..|steps| - 1]);
      NextErrorsOk(Run(Initial(kind), steps[..|steps| - 1]), steps[|steps| - 1]);
    }
  }

  /** A wait that raised is not enough: a claim whose callback outlasts the wait answers for the next arm. */
  lemma RaisedWaitIsNotEnough()
    ensures var steps := [Arm("commit"), Connect(0), Answer(0, Some("commit"), true), Take(0), TimeOut];
            var s := Run(Initial(Evidence), steps);
            s.wait == Raised && Arms(s, Arm("abort")) && !WaitIsSound(Next(s, Arm("abort")))
  {
    var start := Initial(Evidence);
    var one, two := [Arm("commit")], [Arm("commit"), Connect(0)];
    var three := [Arm("commit"), Connect(0), Answer(0, Some("commit"), true)];
    var four := [Arm("commit"), Connect(0), Answer(0, Some("commit"), true), Take(0)];
    var five := [Arm("commit"), Connect(0), Answer(0, Some("commit"), true), Take(0), TimeOut];
    assert one[..0] == [] && two[..1] == one && three[..2] == two && four[..3] == three && five[..4] == four;
    assert Run(start, one) == Next(start, Arm("commit"));
    assert Run(start, two) == Next(Run(start, one), Connect(0));
    assert Run(start, three) == Next(Run(start, two), Answer(0, Some("commit"), true));
    assert Run(start, four) == Next(Run(start, three), Take(0));
    assert Holding(At(Run(start, four), 0)).Some?;
    assert Holding(At(Run(start, five), 0)).Some?;
    SoundExactlyWhenUnclaimed(Evidence, five, "abort");
  }
}
