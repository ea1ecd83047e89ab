/** One mounted component: its epoch-fenced lifecycle, the provider selection and
    effect scope of its current activation, and the reconciliation of the two.

    The registry is an oracle here: every operation that resolves assignments
    receives the resolution it observed.  A component is uniquely owned by its
    slot, so its operations are transitions on values. */
module Components {
  import opened Common
  import opened EffectScopes
  import EffectScopeRuns
  import opened Lifecycles

  // ---------------------------------------------------------------------
  // Reconciled components
  // ---------------------------------------------------------------------

  type ServiceId = nat
  type ProviderId = nat
  type Assignments = map<ServiceId, ProviderId>

  /** What resolving an assignment against one registry inventory answered. */
  datatype Resolution = AllAvailable | Unavailable | RegistryRefused

  datatype DesiredReason = Disabled | DesiredRemoved | RevisionChanged(previous: nat, desired: nat)

  datatype StopReason =
    | AssignmentChanged
    | ProviderUnavailable
    | DesiredStop(reason: DesiredReason)
    | ActivationFailed(failure: Failure)

  /** Everything one activation owns.  `scopeEpoch` is the activation the effect scope was created for. */
  datatype Resources = Resources(
    epoch: Epoch, assignments: Assignments, scopeEpoch: Epoch, effects: Scope,
    stopReason: Option<StopReason>, closeReport: Option<Report>)

  datatype Component = Component(
    requirements: set<ServiceId>, instance: Instance, activation: Option<Resources>, lastReport: Option<Report>)

  datatype Outcome =
    | StillPending
    | StartBegun(epoch: Epoch)
    | AwaitingStart(epoch: Epoch)
    | IsActive(epoch: Epoch)
    | StopBegun(epoch: Epoch, target: StopTarget, reason: StopReason)
    | IsStopping(epoch: Epoch, target: StopTarget, reason: StopReason, cleanupBlocked: bool)
    | IsRemoved

  datatype Completion =
    | Completed(epoch: Epoch, target: StopTarget, reason: StopReason, report: Report)
    | Blocked(epoch: Epoch, target: StopTarget, reason: StopReason, report: Report)
    | Abandoned(epoch: Epoch, target: StopTarget, reason: StopReason, report: Report)

  datatype Error =
    | UndeclaredAssignment
    | NoCurrentSelection
    | StaleSelection(expected: Epoch)
    | InvalidState(state: StateKind)
    | CleanupNotBlocked
    | Lifecycle(lifecycle: LifecycleError)
    | ScopeRefused(scope: EffectScopeRuns.ScopeError)
    | Registry

  datatype Result<+T> = Ok(value: T) | Err(error: Error)

  function Mount(requirements: set<ServiceId>, incarnation: nat): Component {
    Component(requirements, Instance(incarnation, State.Pending, 0, None), None, None)
  }

  predicate KeysDeclared(c: Component, desired: Assignments) { desired.Keys <= c.requirements }

  function RequireEpoch(c: Component, received: Epoch): Option<Error> {
    if c.activation.None? then Some(NoCurrentSelection)
    else if c.activation.value.epoch != received then Some(StaleSelection(c.activation.value.epoch))
    else None
  }

  /** Enter controlled teardown and seal the effect scope at once. */
  function BeginTeardown(c: Component, reason: StopReason, target: StopTarget): (Component, Result<Outcome>)
    requires c.activation.Some?
  {
    var resources := c.activation.value;
    match BeginStop(c.instance, resources.epoch, target)
    case Rejected(error) => (c, Err(Lifecycle(error)))
    case Moved(instance) =>
      (c.(instance := instance,
          activation := Some(resources.(stopReason := Some(reason), effects := Begin(resources.effects)))),
       Ok(StopBegun(resources.epoch, target, reason)))
  }

  /** `minted` is the identity and drain of the effect scope a start would create, if one can be allocated. */
  function ReconcilePending(c: Component, desired: Assignments, seen: Resolution, minted: Option<(nat, nat)>)
    : (Component, Result<Outcome>)
  {
    match seen
    case RegistryRefused => (c, Err(Registry))
    case Unavailable => (c, Ok(StillPending))
    case AllAvailable =>
      match BeginStart(c.instance)
      case Rejected(error) => (c, Err(Lifecycle(error)))
      case Moved(started) =>
        if !started.state.Starting? then (c, Err(InvalidState(Kind(started.state))))
        else
          var epoch := started.state.activation;
          if minted.None? then
            (c.(instance := started.(state := State.Pending)), Err(ScopeRefused(EffectScopeRuns.ScopeIncarnationExhausted)))
          else
            var effects := Scope(minted.value.0, 1, minted.value.1, Open([]));
            (c.(instance := started, activation := Some(Resources(epoch, desired, epoch, effects, None, None))),
             Ok(StartBegun(epoch)))
  }

  function ReconcileLive(c: Component, desired: Assignments, seen: Resolution): (Component, Result<Outcome>)
    requires c.activation.Some? && (c.instance.state.Starting? || c.instance.state.Active?)
  {
    var resources := c.activation.value;
    if desired != resources.assignments then BeginTeardown(c, AssignmentChanged, ToPending)
    else match seen
         case RegistryRefused => (c, Err(Registry))
         case Unavailable => BeginTeardown(c, ProviderUnavailable, ToPending)
         case AllAvailable =>
           (c, Ok(if c.instance.state.Starting? then AwaitingStart(resources.epoch) else IsActive(resources.epoch)))
  }

  /** The answer of a component that is already stopping. */
  function StoppingOutcome(c: Component): Outcome
    requires c.instance.state.Stopping? && c.activation.Some? && c.activation.value.stopReason.Some?
  {
    var resources := c.activation.value;
    IsStopping(resources.epoch, c.instance.state.target, resources.stopReason.value,
               resources.closeReport.Some? && !IsClean(resources.closeReport.value))
  }

  function Reconcile(c: Component, desired: Assignments, seen: Resolution, minted: Option<(nat, nat)>)
    : (Component, Result<Outcome>)
    requires Coherent(c)
  {
    match c.instance.state
    case Pending =>
      if !KeysDeclared(c, desired) then (c, Err(UndeclaredAssignment)) else ReconcilePending(c, desired, seen, minted)
    case Starting(_) =>
      if !KeysDeclared(c, desired) then (c, Err(UndeclaredAssignment)) else ReconcileLive(c, desired, seen)
    case Active(_) =>
      if !KeysDeclared(c, desired) then (c, Err(UndeclaredAssignment)) else ReconcileLive(c, desired, seen)
    case FailedState(_, _) => (c, Err(InvalidState(KFailed)))
    case Stopping(_, _, _) => (c, Ok(StoppingOutcome(c)))
    case Removed => (c, Ok(IsRemoved))
  }

  /** Publish a starting activation if its frozen assignment is still wanted and available. */
  function FinishStart(c: Component, received: Epoch, desired: Assignments, seen: Resolution): (Component, Result<Outcome>)
    requires Coherent(c)
  {
    if !KeysDeclared(c, desired) then (c, Err(UndeclaredAssignment))
    else if !c.instance.state.Starting? then (c, Err(InvalidState(Kind(c.instance.state))))
    else
      var bad := RequireEpoch(c, received);
      if bad.Some? then (c, Err(bad.value))
      else if desired != c.activation.value.assignments then BeginTeardown(c, AssignmentChanged, ToPending)
      else match seen
           case RegistryRefused => (c, Err(Registry))
           case Unavailable => BeginTeardown(c, ProviderUnavailable, ToPending)
           case AllAvailable =>
             match CompleteStart(c.instance, received)
             case Rejected(error) => (c, Err(Lifecycle(error)))
             case Moved(instance) => (c.(instance := instance), Ok(IsActive(received)))
  }

  function FailActivation(c: Component, received: Epoch, summary: string): (Component, Result<Outcome>)
    requires Coherent(c)
  {
    var bad := RequireEpoch(c, received);
    if bad.Some? then (c, Err(bad.value))
    else match MarkFailed(c.instance, received, summary)
         case Rejected(error) => (c, Err(Lifecycle(error)))
         case Moved(instance) =>
           if instance.lastFailure.None? then (c, Err(InvalidState(Kind(instance.state))))
           else BeginTeardown(c.(instance := instance), ActivationFailed(instance.lastFailure.value), ToPending)
  }

  /** A poll of the stop reaches the effect scope: the component is stopping under this very epoch. */
  predicate StopAdmitted(c: Component, received: Epoch) {
    c.instance.state.Stopping? && c.activation.Some? && c.activation.value.epoch == received
  }

  /** One poll of the teardown; the scope after the poll and its answer come from the effect scope. */
  function FinishStop(c: Component, received: Epoch, effects: Scope, poll: Poll<Report>)
    : (Component, Result<Option<Completion>>)
    requires Coherent(c)
  {
    if !c.instance.state.Stopping? then (c, Err(InvalidState(Kind(c.instance.state))))
    else
      var bad := RequireEpoch(c, received);
      if bad.Some? then (c, Err(bad.value))
      else
        var target := c.instance.state.target;
        var resources := c.activation.value.(effects := effects);
        var reason := resources.stopReason.value;
        match poll
        case Pending => (c.(activation := Some(resources)), Ok(None))
        case Ready(report) =>
          var held := c.(lastReport := Some(report), activation := Some(resources.(closeReport := Some(report))));
          if !IsClean(report) then (held, Ok(Some(Blocked(received, target, reason, report))))
          else match CompleteStop(c.instance, received)
               case Rejected(error) => (held, Err(Lifecycle(error)))
               case Moved(instance) =>
                 (held.(instance := instance, activation := None), Ok(Some(Completed(received, target, reason, report))))
  }

  function RequestStop(c: Component, reason: DesiredReason, target: StopTarget): (Component, Result<Outcome>)
    requires Coherent(c)
  {
    match c.instance.state
    case Pending =>
      if target.ToPending? then (c, Err(InvalidState(KPending)))
      else (match RemovePending(c.instance)
            case Rejected(error) => (c, Err(Lifecycle(error)))
            case Moved(instance) => (c.(instance := instance), Ok(IsRemoved)))
    case Starting(_) => BeginTeardown(c, DesiredStop(reason), target)
    case Active(_) => BeginTeardown(c, DesiredStop(reason), target)
    case FailedState(_, _) =>
      if c.activation.Some? then BeginTeardown(c, DesiredStop(reason), target) else (c, Err(NoCurrentSelection))
    case Stopping(_, _, _) => (c, Ok(StoppingOutcome(c)))
    case Removed => (c, Ok(IsRemoved))
  }

  /** Let go of an activation whose teardown ended with failures; its callbacks have all run and stay run. */
  function Abandon(c: Component, received: Epoch): (Component, Result<Completion>)
    requires Coherent(c)
  {
    if !c.instance.state.Stopping? then (c, Err(InvalidState(Kind(c.instance.state))))
    else
      var bad := RequireEpoch(c, received);
      if bad.Some? then (c, Err(bad.value))
      else
        var resources := c.activation.value;
        if resources.closeReport.None? || IsClean(resources.closeReport.value) then (c, Err(CleanupNotBlocked))
        else match CompleteStop(c.instance, received)
             case Rejected(error) => (c, Err(Lifecycle(error)))
             case Moved(instance) =>
               (c.(instance := instance, activation := None),
                Ok(Abandoned(received, c.instance.state.target, resources.stopReason.value, resources.closeReport.value)))
  }

  /** Admit one cleanup into the current activation's scope. */
  function DeferCleanup(c: Component, received: Epoch, request: EffectScopeRuns.Request)
    : (Component, Result<RegistrationId>)
    requires Coherent(c)
  {
    if !c.instance.state.Starting? && !c.instance.state.Active? then (c, Err(InvalidState(Kind(c.instance.state))))
    else
      var bad := RequireEpoch(c, received);
      if bad.Some? then (c, Err(bad.value))
      else match EffectScopeRuns.Defer(c.activation.value.effects, request)
           case Err(error) => (c, Err(ScopeRefused(error)))
           case Ok((effects, id)) => (c.(activation := Some(c.activation.value.(effects := effects))), Ok(id))
  }

  // ---------------------------------------------------------------------
  // The invariant of every component between operations
  // ---------------------------------------------------------------------

  /** Resources exist exactly while an activation is live; selection, scope and
      state carry one epoch; the scope is open exactly in Starting or Active; a
      stop has a reason; only a blocked teardown holds a report, and that report
      is the scope's own; and `Failed` is never seen between operations. */
  ghost predicate Coherent(c: Component) {
    && !c.instance.state.FailedState?
    && (c.activation.Some? <==> ActivationOf(c.instance.state).Some?)
    && (c.activation.Some? ==>
          var r := c.activation.value;
          && ActivationOf(c.instance.state) == Some(r.epoch) && r.scopeEpoch == r.epoch
          && r.epoch == Epoch(c.instance.incarnation, c.instance.lastActivation)
          && r.assignments.Keys <= c.requirements
          && (r.effects.storage.Open? <==> !c.instance.state.Stopping?)
          && (r.stopReason.Some? <==> c.instance.state.Stopping?)
          && (r.closeReport.Some? ==> r.effects.storage == Closed(r.closeReport.value) && !IsClean(r.closeReport.value))
          && (r.effects.storage.Closed? ==> r.closeReport.Some?))
  }

  /** The activation whose resources are live, if any. */
  function Live(c: Component): Option<Epoch> {
    if c.activation.Some? then Some(c.activation.value.epoch) else None
  }

  /** What happens to the live activation: nothing; a new one begins, with the
      next epoch of this instance, only if none was live; or the live one ends. */
  ghost predicate Continues(c: Component, c': Component) {
    && c'.requirements == c.requirements && c'.instance.incarnation == c.instance.incarnation
    && c'.instance.lastActivation >= c.instance.lastActivation
    && Live(c') == Live(c)
  }

  /** The effect scope of the live activation, if any. */
  function EffectsOf(c: Component): Option<Scope> {
    if c.activation.Some? then Some(c.activation.value.effects) else None
  }

  /** The effect scope is left alone or sealed. */
  ghost predicate SealedAtMost(c: Component, c': Component) {
    EffectsOf(c).Some? ==>
      EffectsOf(c').Some? && (EffectsOf(c').value == EffectsOf(c).value || EffectsOf(c').value == Begin(EffectsOf(c).value))
  }

  /** Reconciling keeps the component coherent, never ends an activation, and
      begins one only from Pending, under an epoch never used before. */
  lemma ReconcileKeeps(c: Component, desired: Assignments, seen: Resolution, minted: Option<(nat, nat)>)
    requires Coherent(c)
    ensures var (c', r) := Reconcile(c, desired, seen, minted);
            && Coherent(c')
            && (if r.Ok? && r.value.StartBegun? then
                  && Live(c).None? && c.instance.state.Pending? && Live(c') == Some(r.value.epoch)
                  && r.value.epoch == Epoch(c.instance.incarnation, c.instance.lastActivation + 1)
                  && c'.requirements == c.requirements && c'.instance.incarnation == c.instance.incarnation
                  && (exists id, drain :: EffectsOf(c') == Some(Scope(id, 1, drain, Open([]))))
                else Continues(c, c') && SealedAtMost(c, c'))
  {
  }

  lemma FinishStartKeeps(c: Component, received: Epoch, desired: Assignments, seen: Resolution)
    requires Coherent(c)
    ensures var (c', r) := FinishStart(c, received, desired, seen);
            && Coherent(c') && Continues(c, c') && SealedAtMost(c, c')
            && (r.Ok? && r.value.IsActive? ==> c'.instance.state == Active(received))
  {
  }

  lemma FailActivationKeeps(c: Component, received: Epoch, summary: string)
    requires Coherent(c)
    ensures var (c', r) := FailActivation(c, received, summary);
            Coherent(c') && Continues(c, c') && SealedAtMost(c, c') && (r.Ok? ==> c'.instance.state.Stopping?)
  {
  }

  lemma RequestStopKeeps(c: Component, reason: DesiredReason, target: StopTarget)
    requires Coherent(c)
    ensures var (c', r) := RequestStop(c, reason, target);
            && Coherent(c') && Continues(c, c') && SealedAtMost(c, c')
            && (r.Ok? ==> r.value.StopBegun? || r.value.IsStopping? || r.value.IsRemoved?)
            && (r.Ok? && r.value.IsRemoved? ==> Live(c).None? && c'.instance.state.Removed?)
            && (target.ToRemoved? ==> r.Ok?)
  {
  }

  /** A poll of the teardown ends the activation only on a clean report, and the
      report is the one the effect scope promised. */
  lemma FinishStopKeeps(c: Component, received: Epoch, effects: Scope, poll: Poll<Report>, invoked: seq<RegistrationId>)
    requires Coherent(c)
    requires StopAdmitted(c, received) ==> PollResult(c.activation.value.effects, effects, poll, invoked)
    ensures var (c', r) := FinishStop(c, received, effects, poll);
            && Coherent(c')
            && (if r.Ok? && r.value.Some? && r.value.value.Completed? then
                  && Live(c) == Some(received) && Live(c').None? && r.value.value.epoch == received
                  && IsClean(r.value.value.report) && r.value.value.report == Promised(c.activation.value.effects)
                  && poll == Ready(r.value.value.report) && effects.storage == Closed(r.value.value.report)
                  && c'.requirements == c.requirements && c'.instance.incarnation == c.instance.incarnation
                  && c'.instance.lastActivation == c.instance.lastActivation
                  && r.value.value.target == c.instance.state.target
                else Continues(c, c') && EffectsOf(c') == (if r.Ok? then Some(effects) else EffectsOf(c)))
            && (r.Ok? && r.value.Some? ==> !r.value.value.Abandoned?)
            && (r.Ok? <==> StopAdmitted(c, received))
  {
  }

  lemma AbandonKeeps(c: Component, received: Epoch)
    requires Coherent(c)
    ensures var (c', r) := Abandon(c, received);
            && Coherent(c')
            && (if r.Ok? then
                  && r.value.Abandoned? && r.value.epoch == received
                  && Live(c) == Some(received) && Live(c').None? && !IsClean(r.value.report)
                  && c.activation.value.effects.storage == Closed(r.value.report)
                  && c'.requirements == c.requirements && c'.instance.incarnation == c.instance.incarnation
                  && c'.instance.lastActivation == c.instance.lastActivation
                else c' == c)
  {
  }

  lemma DeferCleanupKeeps(c: Component, received: Epoch, request: EffectScopeRuns.Request)
    requires Coherent(c)
    ensures var (c', r) := DeferCleanup(c, received, request);
            && Coherent(c') && Continues(c, c')
            && (if r.Ok? then
                  EffectsOf(c).Some? && EffectsOf(c').Some?
                  && EffectScopeRuns.Defer(EffectsOf(c).value, request) == EffectScopeRuns.Ok((EffectsOf(c').value, r.value))
                else c' == c)
  {
  }

  /** An operation carrying any epoch but the live one changes nothing and fails. */
  lemma StaleEpochChangesNothing(c: Component, received: Epoch, desired: Assignments, seen: Resolution, summary: string,
                                 effects: Scope, poll: Poll<Report>, request: EffectScopeRuns.Request)
    requires Coherent(c) && Live(c) != Some(received)
    ensures FinishStart(c, received, desired, seen).0 == c && FinishStart(c, received, desired, seen).1.Err?
    ensures FailActivation(c, received, summary).0 == c && FailActivation(c, received, summary).1.Err?
    ensures FinishStop(c, received, effects, poll).0 == c && FinishStop(c, received, effects, poll).1.Err?
    ensures Abandon(c, received).0 == c && Abandon(c, received).1.Err?
    ensures DeferCleanup(c, received, request).0 == c && DeferCleanup(c, received, request).1.Err?
  {
  }
}
