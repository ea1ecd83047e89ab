/** The epoch-fenced lifecycle of one component instance: its transitions, the
    object that makes them, and what every sequence of them keeps. */
module Lifecycles {
  import opened Common

  datatype Epoch = Epoch(incarnation: nat, sequence: nat)

  datatype StopTarget = ToPending | ToRemoved

  datatype Failure = Failure(whileStarting: bool, summary: string)

  datatype State =
    | Pending
    | Starting(activation: Epoch)
    | Active(activation: Epoch)
    | FailedState(activation: Epoch, failure: Failure)
    | Stopping(activation: Epoch, target: StopTarget, priorFailure: Option<Failure>)
    | Removed

  datatype StateKind = KPending | KStarting | KActive | KFailed | KStopping | KRemoved

  function Kind(s: State): StateKind {
    match s
    case Pending => KPending
    case Starting(_) => KStarting
    case Active(_) => KActive
    case FailedState(_, _) => KFailed
    case Stopping(_, _, _) => KStopping
    case Removed => KRemoved
  }

  function ActivationOf(s: State): Option<Epoch> {
    if s.Pending? || s.Removed? then None else Some(s.activation)
  }

  datatype LifecycleError =
    | InvalidTransition(from: StateKind)
    | StaleActivation(expected: Epoch, received: Epoch)
    | ActivationEpochExhausted
    | InstanceIncarnationExhausted

  datatype Instance = Instance(incarnation: nat, state: State, lastActivation: nat, lastFailure: Option<Failure>)

  datatype Transition = Moved(instance: Instance) | Rejected(error: LifecycleError)

  function RequireActivation(s: State, received: Epoch): Option<LifecycleError> {
    match ActivationOf(s)
    case None => Some(InvalidTransition(Kind(s)))
    case Some(expected) => if expected != received then Some(StaleActivation(expected, received)) else None
  }

  function BeginStart(i: Instance): Transition {
    if !i.state.Pending? then Rejected(InvalidTransition(Kind(i.state)))
    else if i.lastActivation == U64_MAX then Rejected(ActivationEpochExhausted)
    else
      var next := i.lastActivation + 1;
      Moved(i.(lastActivation := next, state := Starting(Epoch(i.incarnation, next))))
  }

  function CompleteStart(i: Instance, e: Epoch): Transition {
    var bad := RequireActivation(i.state, e);
    if bad.Some? then Rejected(bad.value)
    else if i.state.Starting? then Moved(i.(state := Active(e)))
    else Rejected(InvalidTransition(Kind(i.state)))
  }

  function MarkFailed(i: Instance, e: Epoch, summary: string): Transition {
    var bad := RequireActivation(i.state, e);
    if bad.Some? then Rejected(bad.value)
    else if i.state.Starting? || i.state.Active? then
      var failure := Failure(i.state.Starting?, summary);
      Moved(i.(lastFailure := Some(failure), state := FailedState(e, failure)))
    else Rejected(InvalidTransition(Kind(i.state)))
  }

  function BeginStop(i: Instance, e: Epoch, target: StopTarget): Transition {
    var bad := RequireActivation(i.state, e);
    if bad.Some? then Rejected(bad.value)
    else match i.state
         case FailedState(_, failure) => Moved(i.(state := Stopping(e, target, Some(failure))))
         case Starting(_) => Moved(i.(state := Stopping(e, target, None)))
         case Active(_) => Moved(i.(state := Stopping(e, target, None)))
         case _ => Rejected(InvalidTransition(Kind(i.state)))
  }

  function CompleteStop(i: Instance, e: Epoch): Transition {
    var bad := RequireActivation(i.state, e);
    if bad.Some? then Rejected(bad.value)
    else if i.state.Stopping? then
      Moved(i.(state := if i.state.target.ToPending? then Pending else Removed))
    else Rejected(InvalidTransition(Kind(i.state)))
  }

  function RemovePending(i: Instance): Transition {
    if i.state.Pending? then Moved(i.(state := Removed)) else Rejected(InvalidTransition(Kind(i.state)))
  }

  // ---------------------------------------------------------------------
  // Any sequence of operations
  // ---------------------------------------------------------------------

  datatype Op =
    | StartOp
    | ActivateOp(epoch: Epoch)
    | FailOp(epoch: Epoch, summary: string)
    | StopOp(epoch: Epoch, target: StopTarget)
    | SettleOp(epoch: Epoch)
    | RemoveOp

  function Perform(i: Instance, op: Op): Transition {
    match op
    case StartOp => BeginStart(i)
    case ActivateOp(e) => CompleteStart(i, e)
    case FailOp(e, summary) => MarkFailed(i, e, summary)
    case StopOp(e, target) => BeginStop(i, e, target)
    case SettleOp(e) => CompleteStop(i, e)
    case RemoveOp => RemovePending(i)
  }

  function After(i: Instance, op: Op): Instance {
    match Perform(i, op)
    case Moved(next) => next
    case Rejected(_) => i
  }

  function Run(i: Instance, ops: seq<Op>): Instance {
    if ops == [] then i else After(Run(i, ops[..|ops| - 1]), ops[|ops| - 1])
  }

  function Fresh(incarnation: nat): Instance { Instance(incarnation, Pending, 0, None) }

  /** A live activation is always the latest epoch of this incarnation. */
  predicate InstanceOk(i: Instance) {
    && i.lastActivation <= U64_MAX
    && (ActivationOf(i.state).Some? ==> ActivationOf(i.state) == Some(Epoch(i.incarnation, i.lastActivation)))
  }

  /** The epoch belongs to another incarnation, or was handed out and is over. */
  predicate Spent(i: Instance, e: Epoch) {
    e.incarnation != i.incarnation || (e.sequence <= i.lastActivation && ActivationOf(i.state) != Some(e))
  }

  predicate Carries(op: Op, e: Epoch) { !op.StartOp? && !op.RemoveOp? && op.epoch == e }

  lemma {:induction false} RunKeeps(i: Instance, ops: seq<Op>)
    requires InstanceOk(i)
    ensures InstanceOk(Run(i, ops)) && Run(i, ops).incarnation == i.incarnation
    ensures Run(i, ops).lastActivation >= i.lastActivation
  {
    if ops != [] {
      RunKeeps(i, ops[..|ops| - 1]);
    }
  }

  /** Once an activation is over, no operation carrying its epoch ever does
      anything again, whatever happens in between. */
  lemma {:induction false} FencedForever(i: Instance, ops: seq<Op>, e: Epoch, late: Op)
    requires InstanceOk(i) && Spent(i, e) && Carries(late, e)
    ensures Spent(Run(i, ops), e) && Perform(Run(i, ops), late).Rejected? && After(Run(i, ops), late) == Run(i, ops)
  {
    RunKeeps(i, ops);
    if ops != [] {
      FencedForever(i, ops[..|ops| - 1], e, late);
      RunKeeps(i, ops[..|ops| - 1]);
    }
  }

  /** A removed instance stays removed. */
  lemma {:induction false} RemovedForever(i: Instance, ops: seq<Op>)
    requires i.state.Removed?
    ensures Run(i, ops) == i
  {
    if ops != [] { RemovedForever(i, ops[..|ops| - 1]); }
  }

  /** The operation at `m` settled the activation `e`. */
  ghost predicate Settles(i: Instance, ops: seq<Op>, m: int, e: Epoch) {
    0 <= m < |ops| && ops[m] == SettleOp(e) && Perform(Run(i, ops[..m]), ops[m]).Moved?
  }

  lemma {:induction false} HeldUntilSettled(i: Instance, ops: seq<Op>, j: nat, k: nat, e: Epoch)
    requires InstanceOk(i) && j <= k <= |ops| && ActivationOf(Run(i, ops[..j]).state) == Some(e)
    requires forall m :: j <= m < k ==> !Settles(i, ops, m, e)
    ensures ActivationOf(Run(i, ops[..k]).state) == Some(e)
    decreases k
  {
    if j < k {
      HeldUntilSettled(i, ops, j, k - 1, e);
      RunKeeps(i, ops[..k - 1]);
      assert ops[..k][..k - 1] == ops[..k - 1];
      assert !Settles(i, ops, k - 1, e);
    }
  }

  /** Two activations of one instance never overlap: the later one has a larger
      epoch, and the earlier one was settled in between. */
  lemma ActivationsNeverOverlap(i: Instance, ops: seq<Op>, j: nat, k: nat)
    requires InstanceOk(i) && j < k < |ops| && ops[j].StartOp? && ops[k].StartOp?
    requires Perform(Run(i, ops[..j]), ops[j]).Moved? && Perform(Run(i, ops[..k]), ops[k]).Moved?
    ensures var first := ActivationOf(Run(i, ops[..j + 1]).state); var second := ActivationOf(Run(i, ops[..k + 1]).state);
            && first.Some? && second.Some? && first.value.sequence < second.value.sequence
            && exists m :: j < m < k && Settles(i, ops, m, first.value)
  {
    RunKeeps(i, ops[..j]);
    RunKeeps(i, ops[..k]);
    assert ops[..j + 1][..j] == ops[..j] && ops[..k + 1][..k] == ops[..k];
    var e := ActivationOf(Run(i, ops[..j + 1]).state).value;
    if forall m :: j + 1 <= m < k ==> !Settles(i, ops, m, e) {
      HeldUntilSettled(i, ops, j + 1, k, e);
      assert false;
    }
    LaterEpochs(i, ops, j + 1, k);
  }

  lemma {:induction false} LaterEpochs(i: Instance, ops: seq<Op>, j: nat, k: nat)
    requires InstanceOk(i) && j <= k <= |ops|
    ensures Run(i, ops[..j]).lastActivation <= Run(i, ops[..k]).lastActivation
    decreases k
  {
    if j < k {
      LaterEpochs(i, ops, j, k - 1);
      RunKeeps(i, ops[..k - 1]);
      assert ops[..k][..k - 1] == ops[..k - 1];
    }
  }

  /** One operation was performed: it moved, or it was refused and left no trace. */
  ghost predicate Performed(before: Instance, op: Op, after: Instance, refusal: Option<LifecycleError>) {
    match Perform(before, op)
    case Moved(i) => after == i && refusal.None?
    case Rejected(error) => after == before && refusal == Some(error)
  }

  /** Epochs that are over stay over. */
  ghost predicate Fenced(before: Instance, after: Instance) {
    InstanceOk(after) && forall e :: Spent(before, e) ==> Spent(after, e)
  }

  // ---------------------------------------------------------------------
  // The objects
  // ---------------------------------------------------------------------

  /** The process-wide incarnation counter. */
  class Incarnations {
    var next: nat

    ghost predicate Valid()
      reads this
    {
      next <= U64_MAX
    }

    constructor ()
      ensures Valid() && next == 1
    {
      next := 1;
    }

    /** Never hands out one incarnation twice; an exhausted counter stays put. */
    method Mint() returns (r: Option<nat>)
      requires Valid()
      modifies this
      ensures Valid()
      ensures r.None? <==> old(next) == U64_MAX
      ensures r.None? ==> next == old(next)
      ensures r.Some? ==> r.value == old(next) && next == old(next) + 1
    {
      if next == U64_MAX { return None; }
      r := Some(next);
      next := next + 1;
    }
  }

  class ComponentInstance {
    const incarnation: nat
    var state: State
    var lastActivation: nat
    var lastFailure: Option<Failure>

    ghost function View(): Instance
      reads this
    {
      Instance(incarnation, state, lastActivation, lastFailure)
    }

    ghost predicate Valid()
      reads this
    {
      InstanceOk(View())
    }

    constructor (incarnation: nat)
      ensures Valid() && View() == Fresh(incarnation)
    {
      this.incarnation := incarnation;
      state, lastActivation, lastFailure := Pending, 0, None;
    }

    /** Admits exactly the live activation. */
    method Admit(received: Epoch) returns (refusal: Option<LifecycleError>)
      ensures refusal.None? <==> ActivationOf(state) == Some(received)
      ensures refusal.Some? ==> refusal == RequireActivation(state, received)
    {
      if state.Pending? || state.Removed? { return Some(InvalidTransition(Kind(state))); }
      if state.activation != received { return Some(StaleActivation(state.activation, received)); }
      refusal := None;
    }

    /** A start hands out an epoch no operation ever carried before. */
    method Start() returns (refusal: Option<LifecycleError>)
      requires Valid()
      modifies this
      ensures Performed(old(View()), StartOp, View(), refusal) && Fenced(old(View()), View())
      ensures refusal.None? ==>
                state.Starting? && !Spent(View(), state.activation)
                && state.activation.sequence > old(lastActivation)
    {
      if !state.Pending? { return Some(InvalidTransition(Kind(state))); }
      if lastActivation == U64_MAX { return Some(ActivationEpochExhausted); }
      lastActivation := lastActivation + 1;
      state := Starting(Epoch(incarnation, lastActivation));
      refusal := None;
    }

    method Activate(e: Epoch) returns (refusal: Option<LifecycleError>)
      requires Valid()
      modifies this
      ensures Performed(old(View()), ActivateOp(e), View(), refusal) && Fenced(old(View()), View())
      ensures old(Spent(View(), e)) ==> refusal.Some?
      ensures refusal.None? ==> state == Active(e)
    {
      refusal := Admit(e);
      if refusal.Some? { return; }
      if !state.Starting? { return Some(InvalidTransition(Kind(state))); }
      state := Active(e);
    }

    method Fail(e: Epoch, summary: string) returns (refusal: Option<LifecycleError>)
      requires Valid()
      modifies this
      ensures Performed(old(View()), FailOp(e, summary), View(), refusal) && Fenced(old(View()), View())
      ensures old(Spent(View(), e)) ==> refusal.Some?
      ensures refusal.None? ==> lastFailure == Some(Failure(old(state).Starting?, summary)) && ActivationOf(state) == Some(e)
    {
      refusal := Admit(e);
      if refusal.Some? { return; }
      if !state.Starting? && !state.Active? { return Some(InvalidTransition(Kind(state))); }
      var failure := Failure(state.Starting?, summary);
      lastFailure := Some(failure);
      state := FailedState(e, failure);
    }

    method Stop(e: Epoch, target: StopTarget) returns (refusal: Option<LifecycleError>)
      requires Valid()
      modifies this
      ensures Performed(old(View()), StopOp(e, target), View(), refusal) && Fenced(old(View()), View())
      ensures old(Spent(View(), e)) ==> refusal.Some?
      ensures refusal.None? ==> state.Stopping? && state.target == target && ActivationOf(state) == Some(e)
    {
      refusal := Admit(e);
      if refusal.Some? { return; }
      var prior := None;
      match state {
        case FailedState(_, failure) => prior := Some(failure);
        case Starting(_) =>
        case Active(_) =>
        case _ => return Some(InvalidTransition(Kind(state)));
      }
      state := Stopping(e, target, prior);
    }

    /** Settling is what spends an epoch. */
    method Settle(e: Epoch) returns (refusal: Option<LifecycleError>)
      requires Valid()
      modifies this
      ensures Performed(old(View()), SettleOp(e), View(), refusal) && Fenced(old(View()), View())
      ensures refusal.None? ==> !old(Spent(View(), e)) && Spent(View(), e) && ActivationOf(state).None?
    {
      refusal := Admit(e);
      if refusal.Some? { return; }
      if !state.Stopping? { return Some(InvalidTransition(Kind(state))); }
      state := if state.target.ToPending? then Pending else Removed;
    }

    method Remove() returns (refusal: Option<LifecycleError>)
      requires Valid()
      modifies this
      ensures Performed(old(View()), RemoveOp, View(), refusal) && Fenced(old(View()), View())
      ensures refusal.None? ==> state.Removed?
    {
      if !state.Pending? { return Some(InvalidTransition(Kind(state))); }
      state := Removed;
      refusal := None;
    }
  }
}
