/** The reconciled component as an object: it owns its lifecycle instance and the
    resources of the current activation, and every operation goes through them. */
module ReconciledComponents {
  import opened Common
  import opened EffectScopes
  import EffectScopeRuns
  import opened Lifecycles
  import opened Components

  class ReconciledComponent {
    const requirements: set<ServiceId>
    const instance: ComponentInstance
    var activation: Option<Resources>
    var lastReport: Option<Report>

    ghost function View(): Component
      reads this, instance
    {
      Component(requirements, instance.View(), activation, lastReport)
    }

    ghost predicate Valid()
      reads this, instance
    {
      instance.Valid() && Coherent(View())
    }

    constructor (requirements: set<ServiceId>, incarnation: nat)
      ensures Valid() && fresh(instance) && View() == Mount(requirements, incarnation)
    {
      this.requirements := requirements;
      instance := new ComponentInstance(incarnation);
      activation, lastReport := None, None;
    }

    method CheckEpoch(received: Epoch) returns (refusal: Option<Error>)
      ensures refusal.None? <==> Live(View()) == Some(received)
      ensures refusal == RequireEpoch(View(), received)
    {
      if activation.None? { return Some(NoCurrentSelection); }
      if activation.value.epoch != received { return Some(StaleSelection(activation.value.epoch)); }
      refusal := None;
    }

    /** Enter controlled teardown: the lifecycle stops and the scope is sealed at once. */
    method BeginStop(reason: StopReason, target: StopTarget) returns (r: Result<Components.Outcome>)
      requires instance.Valid() && activation.Some?
      modifies this, instance
      ensures instance.Valid() && Fenced(old(instance.View()), instance.View())
      ensures (View(), r) == BeginTeardown(old(View()), reason, target)
      ensures r.Ok? ==> instance.state.Stopping? && !activation.value.effects.storage.Open?
    {
      var resources := activation.value;
      var refusal := instance.Stop(resources.epoch, target);
      if refusal.Some? { return Err(Lifecycle(refusal.value)); }
      activation := Some(resources.(stopReason := Some(reason), effects := Begin(resources.effects)));
      r := Ok(StopBegun(resources.epoch, target, reason));
    }

    method ReconcilePending(desired: Assignments, seen: Resolution, minted: Option<(nat, nat)>) returns (r: Result<Components.Outcome>)
      requires Valid() && instance.state.Pending?
      modifies this, instance
      ensures instance.Valid() && Fenced(old(instance.View()), instance.View())
      ensures (View(), r) == Components.ReconcilePending(old(View()), desired, seen, minted)
    {
      if seen.RegistryRefused? { return Err(Registry); }
      if seen.Unavailable? { return Ok(StillPending); }
      var refusal := instance.Start();
      if refusal.Some? { return Err(Lifecycle(refusal.value)); }
      var epoch := instance.state.activation;
      if minted.None? {
        var stopped := instance.Stop(epoch, ToPending);
        var settled := instance.Settle(epoch);
        return Err(ScopeRefused(EffectScopeRuns.ScopeIncarnationExhausted));
      }
      var effects := Scope(minted.value.0, 1, minted.value.1, Open([]));
      activation := Some(Resources(epoch, desired, epoch, effects, None, None));
      r := Ok(StartBegun(epoch));
    }

    method ReconcileLive(desired: Assignments, seen: Resolution) returns (r: Result<Components.Outcome>)
      requires Valid() && (instance.state.Starting? || instance.state.Active?)
      modifies this, instance
      ensures instance.Valid() && Fenced(old(instance.View()), instance.View())
      ensures (View(), r) == Components.ReconcileLive(old(View()), desired, seen)
    {
      var epoch := activation.value.epoch;
      if desired != activation.value.assignments {
        r := BeginStop(AssignmentChanged, ToPending);
        return;
      }
      match seen {
        case RegistryRefused => r := Err(Registry);
        case Unavailable => r := BeginStop(ProviderUnavailable, ToPending);
        case AllAvailable => r := Ok(if instance.state.Starting? then AwaitingStart(epoch) else IsActive(epoch));
      }
    }

    method Reconcile(desired: Assignments, seen: Resolution, minted: Option<(nat, nat)>) returns (r: Result<Components.Outcome>)
      requires Valid()
      modifies this, instance
      ensures Valid() && Fenced(old(instance.View()), instance.View())
      ensures (View(), r) == Components.Reconcile(old(View()), desired, seen, minted)
      ensures r.Ok? && r.value.StartBegun? ==> old(instance.state).Pending? && old(activation).None?
    {
      ReconcileKeeps(View(), desired, seen, minted);
      match instance.state {
        case Pending =>
          if !(desired.Keys <= requirements) { return Err(UndeclaredAssignment); }
          r := ReconcilePending(desired, seen, minted);
        case Starting(_) =>
          if !(desired.Keys <= requirements) { return Err(UndeclaredAssignment); }
          r := ReconcileLive(desired, seen);
        case Active(_) =>
          if !(desired.Keys <= requirements) { return Err(UndeclaredAssignment); }
          r := ReconcileLive(desired, seen);
        case FailedState(_, _) => r := Err(InvalidState(KFailed));
        case Stopping(_, _, _) => r := Ok(StoppingOutcome(Snapshot()));
        case Removed => r := Ok(IsRemoved);
      }
    }

    function Snapshot(): (c: Component)
      reads this, instance
      ensures c == View()
    {
      Component(
        requirements, Instance(instance.incarnation, instance.state, instance.lastActivation, instance.lastFailure),
        activation, lastReport)
    }

    /** Publish a starting activation, or tear it down when it is no longer wanted or available. */
    method CompleteStart(received: Epoch, desired: Assignments, seen: Resolution) returns (r: Result<Components.Outcome>)
      requires Valid()
      modifies this, instance
      ensures Valid() && Fenced(old(instance.View()), instance.View())
      ensures (View(), r) == FinishStart(old(View()), received, desired, seen)
      ensures Live(old(View())) != Some(received) ==> r.Err? && View() == old(View())
    {
      FinishStartKeeps(View(), received, desired, seen);
      if !(desired.Keys <= requirements) { return Err(UndeclaredAssignment); }
      if !instance.state.Starting? { return Err(InvalidState(Kind(instance.state))); }
      var refusal := CheckEpoch(received);
      if refusal.Some? { return Err(refusal.value); }
      if desired != activation.value.assignments {
        r := BeginStop(AssignmentChanged, ToPending);
        return;
      }
      match seen {
        case RegistryRefused => r := Err(Registry);
        case Unavailable => r := BeginStop(ProviderUnavailable, ToPending);
        case AllAvailable =>
          var rejected := instance.Activate(received);
          r := match rejected case Some(error) => Err(Lifecycle(error)) case None => Ok(IsActive(received));
      }
    }

    method FailActivation(received: Epoch, summary: string) returns (r: Result<Components.Outcome>)
      requires Valid()
      modifies this, instance
      ensures Valid() && Fenced(old(instance.View()), instance.View())
      ensures (View(), r) == Components.FailActivation(old(View()), received, summary)
      ensures Live(old(View())) != Some(received) ==> r.Err? && View() == old(View())
    {
      FailActivationKeeps(View(), received, summary);
      var refusal := CheckEpoch(received);
      if refusal.Some? { return Err(refusal.value); }
      var rejected := instance.Fail(received, summary);
      if rejected.Some? { return Err(Lifecycle(rejected.value)); }
      r := BeginStop(ActivationFailed(instance.lastFailure.value), ToPending);
    }

    /** One poll of the stop: once admitted, the effect scope is polled, and a clean
        report settles the lifecycle. A refused call polls nothing. */
    method PollStop(received: Epoch) returns (r: Result<Option<Completion>>, ghost polled: (Scope, Poll<Report>, seq<RegistrationId>))
      requires Valid()
      modifies this, instance
      ensures Valid() && Fenced(old(instance.View()), instance.View())
      ensures r.Ok? <==> old(StopAdmitted(View(), received))
      ensures r.Ok? ==> PollResult(old(activation).value.effects, polled.0, polled.1, polled.2)
      ensures r.Err? ==> polled.2 == [] && View() == old(View())
      ensures (View(), r) == FinishStop(old(View()), received, polled.0, polled.1)
    {
      polled := (Scope(0, 1, 0, Open([])), Poll<Report>.Pending, []);
      if !instance.state.Stopping? { return Err(InvalidState(Kind(instance.state))), polled; }
      var refusal := CheckEpoch(received);
      if refusal.Some? { return Err(refusal.value), polled; }
      var effects, poll, invoked := PollClose(activation.value.effects);
      polled := (effects, poll, invoked);
      FinishStopKeeps(View(), received, effects, poll, invoked);
      r := Absorb(received, effects, poll);
    }

    /** What a poll of the effect scope means for a stopping component. */
    method Absorb(received: Epoch, effects: Scope, poll: Poll<Report>) returns (r: Result<Option<Completion>>)
      requires Valid() && StopAdmitted(View(), received)
      modifies this, instance
      ensures instance.Valid() && Fenced(old(instance.View()), instance.View())
      ensures (View(), r) == FinishStop(old(View()), received, effects, poll)
    {
      var target, reason := instance.state.target, activation.value.stopReason.value;
      activation := Some(activation.value.(effects := effects));
      if poll.Pending? { return Ok(None); }
      var report := poll.value;
      lastReport := Some(report);
      activation := Some(activation.value.(closeReport := Some(report)));
      if !IsClean(report) { return Ok(Some(Blocked(received, target, reason, report))); }
      var rejected := instance.Settle(received);
      match rejected {
        case Some(error) => r := Err(Lifecycle(error));
        case None =>
          activation := None;
          r := Ok(Some(Completed(received, target, reason, report)));
      }
    }

    method RequestStop(reason: DesiredReason, target: StopTarget) returns (r: Result<Components.Outcome>)
      requires Valid()
      modifies this, instance
      ensures Valid() && Fenced(old(instance.View()), instance.View())
      ensures (View(), r) == Components.RequestStop(old(View()), reason, target)
    {
      RequestStopKeeps(View(), reason, target);
      if instance.state.Pending? {
        if target.ToPending? { return Err(InvalidState(KPending)); }
        var refusal := instance.Remove();
        r := match refusal case Some(error) => Err(Lifecycle(error)) case None => Ok(IsRemoved);
      } else if instance.state.Stopping? {
        r := Ok(StoppingOutcome(Snapshot()));
      } else if instance.state.Removed? {
        r := Ok(IsRemoved);
      } else {
        r := BeginStop(DesiredStop(reason), target);
      }
    }

    method AbandonFailedCleanup(received: Epoch) returns (r: Result<Completion>)
      requires Valid()
      modifies this, instance
      ensures Valid() && Fenced(old(instance.View()), instance.View())
      ensures (View(), r) == Abandon(old(View()), received)
      ensures r.Ok? ==> !IsClean(r.value.report) && activation.None?
      ensures r.Err? ==> View() == old(View())
    {
      AbandonKeeps(View(), received);
      if !instance.state.Stopping? { return Err(InvalidState(Kind(instance.state))); }
      var refusal := CheckEpoch(received);
      if refusal.Some? { return Err(refusal.value); }
      var target, resources := instance.state.target, activation.value;
      if resources.closeReport.None? || IsClean(resources.closeReport.value) { return Err(CleanupNotBlocked); }
      var rejected := instance.Settle(received);
      match rejected {
        case Some(error) => r := Err(Lifecycle(error));
        case None =>
          activation := None;
          r := Ok(Abandoned(received, target, resources.stopReason.value, resources.closeReport.value));
      }
    }

    method DeferCleanup(received: Epoch, request: EffectScopeRuns.Request) returns (r: Result<RegistrationId>)
      requires Valid()
      modifies this
      ensures Valid()
      ensures (View(), r) == Components.DeferCleanup(old(View()), received, request)
    {
      DeferCleanupKeeps(View(), received, request);
      if !instance.state.Starting? && !instance.state.Active? { return Err(InvalidState(Kind(instance.state))); }
      var refusal := CheckEpoch(received);
      if refusal.Some? { return Err(refusal.value); }
      match EffectScopeRuns.Defer(activation.value.effects, request) {
        case Err(error) => r := Err(ScopeRefused(error));
        case Ok((effects, id)) =>
          activation := Some(activation.value.(effects := effects));
          r := Ok(id);
      }
    }
  }
}
