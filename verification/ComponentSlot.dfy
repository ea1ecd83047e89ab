/** The stable desired-state owner of at most one mounted component revision. */
module ComponentSlots {
  import opened Common
  import opened EffectScopes
  import EffectScopeRuns
  import opened Lifecycles
  import opened Components
  import opened ReconciledComponents

  datatype Generation = Generation(slot: nat, sequence: nat)

  /** A revision identity with the definition and scope it stands for. */
  datatype Revision = Revision(id: nat, requirements: set<ServiceId>, scope: nat)

  datatype Desired =
    | Enabled(generation: Generation, revision: Revision, assignments: Assignments)
    | DesiredDisabled(generation: Generation, revision: Revision)
    | DesiredGone(generation: Generation)

  function RevisionOf(d: Desired): Option<Revision> { if d.DesiredGone? then None else Some(d.revision) }

  datatype Mounted = Mounted(revision: nat, component: Component)

  datatype Disposition = WasCompleted | WasBlocked | WasAbandoned

  datatype StopRecord = StopRecord(
    revision: nat, epoch: Epoch, target: StopTarget, reason: StopReason, disposition: Disposition, report: Report)

  datatype Slot = Slot(
    incarnation: nat, desired: Option<Desired>, known: map<nat, Revision>,
    mounted: Option<Mounted>, lastStop: Option<StopRecord>)

  datatype SlotError =
    | ForeignGeneration
    | StaleDesired
    | GenerationConflict
    | RevisionConflict
    | NoMountedComponent
    | MountedRevisionNotEnabled
    | ReconcileFailed(error: Error)

  datatype SlotResult<+T> = Done(value: T) | Refused(error: SlotError)

  datatype SlotOutcome =
    | SlotRemoved(generation: Generation)
    | SlotDisabled(generation: Generation, revision: nat)
    | SlotMounted(generation: Generation, revision: nat, component: Components.Outcome)
    | SlotReconciled(generation: Generation, revision: nat, component: Components.Outcome)
    | SlotUnmounted(generation: Generation, revision: nat, reason: DesiredReason)
    | SlotStopBegun(generation: Generation, revision: nat, component: Components.Outcome)
    | SlotStopping(generation: Generation, revision: nat, component: Components.Outcome)
    | ConvergenceBlocked(generation: Generation, error: Error)

  function Empty(incarnation: nat): Slot { Slot(incarnation, None, map[], None, None) }

  // ---------------------------------------------------------------------
  // Accepting a desired snapshot
  // ---------------------------------------------------------------------

  predicate NamesMounted(s: Slot, revision: nat) { s.mounted.None? || s.mounted.value.revision == revision }

  /** Whether a snapshot would change the stored one, or why it is refused outright. */
  function Admission(s: Slot, d: Desired): SlotResult<bool> {
    if d.generation.slot != s.incarnation then Refused(ForeignGeneration)
    else if s.desired.None? then Done(true)
    else
      var current := s.desired.value;
      if d.generation.sequence < current.generation.sequence then Refused(StaleDesired)
      else if d.generation == current.generation then
        if d == current then Done(false) else Refused(GenerationConflict)
      else Done(true)
  }

  function AcceptDesired(s: Slot, d: Desired): SlotResult<Slot> {
    match Admission(s, d)
    case Refused(error) => Refused(error)
    case Done(changed) =>
      var revision := RevisionOf(d);
      if revision.Some? && revision.value.id in s.known && s.known[revision.value.id] != revision.value then
        Refused(RevisionConflict)
      else if changed && d.Enabled? && NamesMounted(s, d.revision.id) && !(d.assignments.Keys <= d.revision.requirements) then
        Refused(ReconcileFailed(UndeclaredAssignment))
      else if !changed then Done(s)
      else
        var known := if revision.Some? && revision.value.id !in s.known
                     then s.known[revision.value.id := revision.value] else s.known;
        Done(s.(known := known, desired := Some(d)))
  }

  // ---------------------------------------------------------------------
  // Reconciling toward it
  // ---------------------------------------------------------------------

  /** What the surroundings supply to one reconciliation: the registry's answer,
      the next effect scope (identity and drain), and the next instance incarnation. */
  datatype Surroundings = Surroundings(seen: Resolution, scope: Option<(nat, nat)>, instance: Option<nat>)

  function MapCurrent(generation: Generation, revision: nat, component: Components.Outcome): SlotOutcome {
    match component
    case StopBegun(_, _, _) => SlotStopBegun(generation, revision, component)
    case IsStopping(_, _, _, _) => SlotStopping(generation, revision, component)
    case _ => SlotReconciled(generation, revision, component)
  }

  function Reenter(s: Slot, component: Component): Slot
    requires s.mounted.Some?
  {
    s.(mounted := Some(s.mounted.value.(component := component)))
  }

  /** Ask the mounted component to go away, and unmount it if it already has. */
  function Retire(s: Slot, generation: Generation, reason: DesiredReason): (Slot, Result<SlotOutcome>)
    requires s.mounted.Some? && Coherent(s.mounted.value.component)
  {
    var mounted := s.mounted.value;
    var (component, r) := RequestStop(mounted.component, reason, ToRemoved);
    match r
    case Err(error) => (Reenter(s, component), Err(error))
    case Ok(outcome) =>
      if outcome.IsRemoved? then
        (s.(mounted := None), Ok(SlotUnmounted(generation, mounted.revision, reason)))
      else
        (Reenter(s, component), Ok(MapCurrent(generation, mounted.revision, outcome)))
  }

  function ReconcileEnabled(s: Slot, d: Desired, around: Surroundings): (Slot, Result<SlotOutcome>)
    requires d.Enabled? && (s.mounted.Some? ==> Coherent(s.mounted.value.component))
  {
    if s.mounted.None? then
      if !(d.assignments.Keys <= d.revision.requirements) then (s, Err(UndeclaredAssignment))
      else if around.instance.None? then (s, Err(Lifecycle(InstanceIncarnationExhausted)))
      else
        var mounted := Mount(d.revision.requirements, around.instance.value);
        var (component, r) := Reconcile(mounted, d.assignments, around.seen, around.scope);
        var s' := s.(mounted := Some(Mounted(d.revision.id, component)));
        (match r
         case Err(error) => (s', Err(error))
         case Ok(outcome) => (s', Ok(SlotMounted(d.generation, d.revision.id, outcome))))
    else if s.mounted.value.revision == d.revision.id then
      var (component, r) := Reconcile(s.mounted.value.component, d.assignments, around.seen, around.scope);
      (match r
       case Err(error) => (Reenter(s, component), Err(error))
       case Ok(outcome) => (Reenter(s, component), Ok(MapCurrent(d.generation, d.revision.id, outcome))))
    else
      Retire(s, d.generation, RevisionChanged(s.mounted.value.revision, d.revision.id))
  }

  /** One synchronous pass: accept the snapshot, then move toward it. */
  function ReconcileSlot(s: Slot, d: Desired, around: Surroundings): (Slot, SlotResult<SlotOutcome>)
    requires s.mounted.Some? ==> Coherent(s.mounted.value.component)
  {
    match AcceptDesired(s, d)
    case Refused(error) => (s, Refused(error))
    case Done(accepted) =>
      var (s', r) :=
        match d
        case Enabled(_, _, _) => ReconcileEnabled(accepted, d, around)
        case DesiredDisabled(generation, revision) =>
          if accepted.mounted.None? then (accepted, Ok(SlotDisabled(generation, revision.id)))
          else Retire(accepted, generation, Disabled)
        case DesiredGone(generation) =>
          if accepted.mounted.None? then (accepted, Ok(SlotRemoved(generation)))
          else Retire(accepted, generation, DesiredRemoved);
      (s', match r case Ok(outcome) => Done(outcome) case Err(error) => Done(ConvergenceBlocked(d.generation, error)))
  }

  /** Record a terminal observation, and unmount when the frozen target says so. */
  function RecordCompletion(s: Slot, revision: nat, completion: Completion): (Slot, StopRecord) {
    var disposition := match completion
                       case Completed(_, _, _, _) => WasCompleted
                       case Blocked(_, _, _, _) => WasBlocked
                       case Abandoned(_, _, _, _) => WasAbandoned;
    var record := StopRecord(revision, completion.epoch, completion.target, completion.reason, disposition, completion.report);
    var s' := s.(lastStop := Some(record));
    (if completion.target.ToRemoved? && !disposition.WasBlocked? then s'.(mounted := None) else s', record)
  }

  /** Operations on the live activation are admitted only while the mounted revision is the enabled one. */
  function ActiveAssignments(s: Slot): SlotResult<Assignments> {
    if s.mounted.None? then Refused(NoMountedComponent)
    else if s.desired.Some? && s.desired.value.Enabled? && s.desired.value.revision.id == s.mounted.value.revision
    then Done(s.desired.value.assignments)
    else Refused(MountedRevisionNotEnabled)
  }

  // ---------------------------------------------------------------------
  // Steps of a slot's life
  // ---------------------------------------------------------------------

  datatype Step =
    | DoReconcile(desired: Desired, around: Surroundings)
    | DoCompleteStart(epoch: Epoch, seen: Resolution)
    | DoFail(epoch: Epoch, summary: string)
    | DoPollStop(epoch: Epoch, effects: Scope, poll: Poll<Report>, invoked: seq<RegistrationId>)
    | DoAbandon(epoch: Epoch)
    | DoDefer(epoch: Epoch, request: EffectScopeRuns.Request)

  /** What an observer learns about activations from the answer of one step. */
  datatype Mark =
    | Nothing
    | Began(epoch: Epoch)
    | Ended(epoch: Epoch, report: Report, abandoned: bool)

  function MarkOf(r: SlotResult<SlotOutcome>): Mark {
    if r.Done? && (r.value.SlotMounted? || r.value.SlotReconciled?) && r.value.component.StartBegun?
    then Began(r.value.component.epoch)
    else Nothing
  }

  function MarkOfRecord(record: StopRecord): Mark {
    if record.disposition.WasBlocked? then Nothing
    else Ended(record.epoch, record.report, record.disposition.WasAbandoned?)
  }

  ghost predicate SlotOk(s: Slot) {
    && (s.mounted.Some? ==> Coherent(s.mounted.value.component))
    && (s.desired.Some? ==> s.desired.value.generation.slot == s.incarnation)
    && (s.desired.Some? && RevisionOf(s.desired.value).Some? ==>
          var rev := RevisionOf(s.desired.value).value; rev.id in s.known && s.known[rev.id] == rev)
    && (s.mounted.Some? ==>
          && s.mounted.value.revision in s.known
          && s.mounted.value.component.requirements == s.known[s.mounted.value.revision].requirements)
  }

  /** A poll step that is admitted carries what polling the live effect scope really answers. */
  ghost predicate HonestPoll(s: Slot, step: Step) {
    step.DoPollStop? && s.mounted.Some? && StopAdmitted(s.mounted.value.component, step.epoch) ==>
      PollResult(s.mounted.value.component.activation.value.effects, step.effects, step.poll, step.invoked)
  }

  ghost predicate CanStep(s: Slot, step: Step) { SlotOk(s) && HonestPoll(s, step) }

  /** The slot after a step, what it tells an observer, and whether it was refused. */
  ghost function Take(s: Slot, step: Step): (Slot, Mark, Option<SlotError>)
    requires CanStep(s, step)
  {
    match step
    case DoReconcile(d, around) =>
      var (s', r) := ReconcileSlot(s, d, around);
      (s', MarkOf(r), if r.Refused? then Some(r.error) else None)
    case DoCompleteStart(epoch, seen) =>
      (match ActiveAssignments(s)
       case Refused(error) => (s, Nothing, Some(error))
       case Done(assignments) =>
         var (component, r) := FinishStart(s.mounted.value.component, epoch, assignments, seen);
         (Reenter(s, component), Nothing, if r.Err? then Some(ReconcileFailed(r.error)) else None))
    case DoFail(epoch, summary) =>
      (match ActiveAssignments(s)
       case Refused(error) => (s, Nothing, Some(error))
       case Done(_) =>
         var (component, r) := FailActivation(s.mounted.value.component, epoch, summary);
         (Reenter(s, component), Nothing, if r.Err? then Some(ReconcileFailed(r.error)) else None))
    case DoPollStop(epoch, effects, poll, _) =>
      if s.mounted.None? then (s, Nothing, Some(NoMountedComponent))
      else
        var (component, r) := FinishStop(s.mounted.value.component, epoch, effects, poll);
        (match r
         case Err(error) => (Reenter(s, component), Nothing, Some(ReconcileFailed(error)))
         case Ok(None) => (Reenter(s, component), Nothing, None)
         case Ok(Some(completion)) =>
           var (s', record) := RecordCompletion(Reenter(s, component), s.mounted.value.revision, completion);
           (s', MarkOfRecord(record), None))
    case DoAbandon(epoch) =>
      if s.mounted.None? then (s, Nothing, Some(NoMountedComponent))
      else
        var (component, r) := Abandon(s.mounted.value.component, epoch);
        (match r
         case Err(error) => (Reenter(s, component), Nothing, Some(ReconcileFailed(error)))
         case Ok(completion) =>
           var (s', record) := RecordCompletion(Reenter(s, component), s.mounted.value.revision, completion);
           (s', MarkOfRecord(record), None))
    case DoDefer(epoch, request) =>
      (match ActiveAssignments(s)
       case Refused(error) => (s, Nothing, Some(error))
       case Done(_) =>
         var (component, r) := DeferCleanup(s.mounted.value.component, epoch, request);
         (Reenter(s, component), Nothing, if r.Err? then Some(ReconcileFailed(r.error)) else None))
  }

  function LiveEpoch(s: Slot): Option<Epoch> { if s.mounted.None? then None else Live(s.mounted.value.component) }

  // ---------------------------------------------------------------------
  // Whole lives
  // ---------------------------------------------------------------------

  /** The effect scope of the live activation, if any. */
  function LiveEffects(s: Slot): Option<Scope> { if s.mounted.None? then None else EffectsOf(s.mounted.value.component) }

  /** What was registered under one activation, in order and with its outcomes,
      and what its teardown has invoked. */
  datatype Tally = Tally(
    registered: seq<RegistrationId>, invoked: seq<RegistrationId>, plan: EffectScopeRuns.Plan)

  datatype Ending = Ending(report: Report, abandoned: bool, tally: Tally)

  /** A slot, every activation an observer saw begin (in order) and end, the
      process-wide incarnation counter, and the tally of the live activation. */
  datatype World = World(slot: Slot, begun: seq<Epoch>, ended: map<Epoch, Ending>, counter: nat, tally: Tally)

  /** Instance incarnations come from a process-wide counter other slots use too. */
  predicate IncarnationFresh(w: World, step: Step) {
    step.DoReconcile? && step.around.instance.Some? ==> step.around.instance.value >= w.counter
  }

  /** The tally after a step that was not refused. */
  function Tallied(t: Tally, effects: Option<Scope>, step: Step, effects': Option<Scope>, began: bool): Tally {
    if began && effects'.Some? then Tally([], [], EffectScopeRuns.Plan(effects'.value.id, []))
    else
      match step
      case DoDefer(_, request) =>
        if effects.Some? && EffectScopeRuns.Defer(effects.value, request).Ok? then
          var id := EffectScopeRuns.Defer(effects.value, request).value.1;
          var plan := EffectScopeRuns.Note(t.plan, [], EffectScopeRuns.Registered(id, request));
          t.(registered := t.registered + [id], plan := plan)
        else t
      case DoPollStop(_, _, _, invoked) => t.(invoked := t.invoked + invoked)
      case _ => t
  }

  ghost predicate WorldStep(w: World, w': World, step: Step) {
    && CanStep(w.slot, step) && IncarnationFresh(w, step)
    && var (slot, mark, refusal) := Take(w.slot, step);
       && w'.slot == slot
       && w'.tally == (if refusal.Some? then w.tally
                       else Tallied(w.tally, LiveEffects(w.slot), step, LiveEffects(slot), mark.Began?))
       && w'.begun == (if mark.Began? then w.begun + [mark.epoch] else w.begun)
       && w'.ended == (if mark.Ended? then w.ended[mark.epoch := Ending(mark.report, mark.abandoned, w'.tally)] else w.ended)
       && w'.counter == (if step.DoReconcile? && step.around.instance.Some? then step.around.instance.value + 1
                         else w.counter)
  }

  ghost predicate IsLife(worlds: seq<World>, steps: seq<Step>) {
    && |worlds| == |steps| + 1
    && worlds[0].slot == Empty(worlds[0].slot.incarnation) && worlds[0].begun == [] && worlds[0].ended == map[]
    && forall i :: 0 <= i < |steps| ==> WorldStep(worlds[i], worlds[i + 1], steps[i])
  }

  /** The identities of a plan without children, in registration order. */
  ghost predicate Lists(plan: EffectScopeRuns.Plan, ids: seq<RegistrationId>) {
    && |plan.items| == |ids|
    && forall i :: 0 <= i < |ids| ==> plan.items[i].Task? && plan.items[i].id == ids[i]
  }

  /** The tally is the true history of this effect scope. */
  ghost predicate TallyOk(t: Tally, effects: Scope) {
    EffectScopeRuns.HistoryOk(effects, t.registered, t.invoked, t.plan) && Lists(t.plan, t.registered)
  }

  /** An activation that is over: everything registered under it was invoked
      exactly once, the report lists exactly that in reverse order with its
      outcomes, and it is clean unless it was explicitly abandoned. */
  ghost predicate EndingOk(e: Ending) {
    && (e.abandoned <==> !IsClean(e.report))
    && EffectScopeRuns.NoRepeats(e.tally.registered) && EffectScopeRuns.NoRepeats(e.tally.invoked)
    && (forall r :: r in e.tally.registered <==> r in e.tally.invoked)
    && EffectScopeRuns.Erase(e.report) == EffectScopeRuns.Mirror(e.tally.plan)
    && Lists(e.tally.plan, e.tally.registered)
  }

  ghost predicate ActivationsOk(w: World) {
    && (forall e :: e in w.begun ==> e in w.ended || LiveEpoch(w.slot) == Some(e))
    && (forall e :: e in w.ended ==> e in w.begun && LiveEpoch(w.slot) != Some(e))
    && (LiveEpoch(w.slot).Some? ==> LiveEpoch(w.slot).value in w.begun)
    && (forall e :: e in w.begun ==> e.incarnation < w.counter)
    && (forall i, j :: 0 <= i < j < |w.begun| ==> w.begun[i] != w.begun[j])
    && (w.slot.mounted.Some? ==>
          var i := w.slot.mounted.value.component.instance;
          i.incarnation < w.counter && forall e :: e in w.begun && e.incarnation == i.incarnation ==> e.sequence <= i.lastActivation)
  }

  ghost predicate WorldOk(w: World) {
    && SlotOk(w.slot) && ActivationsOk(w)
    && (LiveEffects(w.slot).Some? ==> TallyOk(w.tally, LiveEffects(w.slot).value))
    && (forall e :: e in w.ended ==> EndingOk(w.ended[e]))
  }

  /** How a step that neither begins nor ends an activation moves its effect scope. */
  ghost predicate EffectsMove(effects: Scope, step: Step, effects': Scope, refused: bool) {
    if refused then effects' == effects
    else match step
         case DoDefer(_, request) =>
           && EffectScopeRuns.Defer(effects, request).Ok?
           && effects' == EffectScopeRuns.Defer(effects, request).value.0
         case DoPollStop(_, polled, _, _) => effects' == polled
         case _ => effects' == effects || effects' == Begin(effects)
  }

  /** How a single step relates the slot before and after it. */
  ghost predicate Related(s: Slot, step: Step, s': Slot, mark: Mark, refused: bool) {
    && SlotOk(s') && s'.incarnation == s.incarnation
    && (s.mounted.Some? && s'.mounted.Some? ==>
          && s'.mounted.value.revision == s.mounted.value.revision
          && s'.mounted.value.component.instance.incarnation == s.mounted.value.component.instance.incarnation
          && s'.mounted.value.component.instance.lastActivation >= s.mounted.value.component.instance.lastActivation)
    && (s.mounted.None? && s'.mounted.Some? ==>
          step.DoReconcile? && step.around.instance == Some(s'.mounted.value.component.instance.incarnation))
    && match mark
       case Nothing =>
         && LiveEpoch(s') == LiveEpoch(s)
         && (LiveEffects(s).Some? ==>
               LiveEffects(s').Some? && EffectsMove(LiveEffects(s).value, step, LiveEffects(s').value, refused))
       case Began(e) =>
         && !refused && LiveEpoch(s).None? && LiveEpoch(s') == Some(e) && s'.mounted.Some?
         && e.incarnation == s'.mounted.value.component.instance.incarnation
         && e.sequence == s'.mounted.value.component.instance.lastActivation
         && (s.mounted.Some? ==> e.sequence > s.mounted.value.component.instance.lastActivation)
         && (exists id, drain :: LiveEffects(s') == Some(Scope(id, 1, drain, Open([]))))
       case Ended(e, report, abandoned) =>
         && !refused && LiveEpoch(s) == Some(e) && LiveEpoch(s').None? && (abandoned <==> !IsClean(report))
         && LiveEffects(s).Some? && report == Promised(LiveEffects(s).value)
         && (if step.DoPollStop? then step.poll == Ready(report) && step.effects.storage == Closed(report)
             else step.DoAbandon? && LiveEffects(s).value.storage == Closed(report))
  }

  lemma RetireRelated(s: Slot, generation: Generation, reason: DesiredReason)
    requires SlotOk(s) && s.mounted.Some?
    ensures var (s', r) := Retire(s, generation, reason);
            && SlotOk(s') && LiveEpoch(s') == LiveEpoch(s)
            && s'.(mounted := s.mounted) == s
            && (s'.mounted.Some? ==>
                  && s'.mounted.value.revision == s.mounted.value.revision
                  && s'.mounted.value.component.instance.incarnation == s.mounted.value.component.instance.incarnation
                  && s'.mounted.value.component.instance.lastActivation >= s.mounted.value.component.instance.lastActivation)
            && (LiveEffects(s).Some? ==>
                  && LiveEffects(s').Some?
                  && (LiveEffects(s').value == LiveEffects(s).value || LiveEffects(s').value == Begin(LiveEffects(s).value)))
            && (r.Ok? ==> r.value.SlotUnmounted? || r.value.SlotStopBegun? || r.value.SlotStopping?)
  {
    RequestStopKeeps(s.mounted.value.component, reason, ToRemoved);
  }

  lemma MountRelated(s: Slot, a: Slot, d: Desired, around: Surroundings)
    requires SlotOk(s) && AcceptDesired(s, d) == Done(a) && d.Enabled? && a.mounted.None?
    ensures var (s', r) := ReconcileSlot(s, d, around);
            Related(s, DoReconcile(d, around), s', MarkOf(r), r.Refused?)
  {
    if around.instance.Some? {
      ReconcileKeeps(Mount(d.revision.requirements, around.instance.value), d.assignments, around.seen, around.scope);
    }
  }

  lemma ConvergeRelated(s: Slot, a: Slot, d: Desired, around: Surroundings)
    requires SlotOk(s) && AcceptDesired(s, d) == Done(a) && d.Enabled?
    requires a.mounted.Some? && a.mounted.value.revision == d.revision.id
    ensures var (s', r) := ReconcileSlot(s, d, around);
            Related(s, DoReconcile(d, around), s', MarkOf(r), r.Refused?)
  {
    ReconcileKeeps(a.mounted.value.component, d.assignments, around.seen, around.scope);
  }

  lemma LeaveRelated(s: Slot, a: Slot, d: Desired, around: Surroundings)
    requires SlotOk(s) && AcceptDesired(s, d) == Done(a)
    requires a.mounted.Some? && (d.Enabled? ==> a.mounted.value.revision != d.revision.id)
    ensures var (s', r) := ReconcileSlot(s, d, around);
            Related(s, DoReconcile(d, around), s', MarkOf(r), r.Refused?)
  {
    var reason := match d
                  case Enabled(_, revision, _) => RevisionChanged(a.mounted.value.revision, revision.id)
                  case DesiredDisabled(_, _) => Disabled
                  case DesiredGone(_) => DesiredRemoved;
    RetireRelated(a, d.generation, reason);
  }

  lemma ReconcileRelated(s: Slot, d: Desired, around: Surroundings)
    requires SlotOk(s)
    ensures var (s', r) := ReconcileSlot(s, d, around);
            Related(s, DoReconcile(d, around), s', MarkOf(r), r.Refused?)
  {
    var accept := AcceptDesired(s, d);
    if accept.Done? {
      var a := accept.value;
      if a.mounted.Some? && (d.Enabled? ==> a.mounted.value.revision != d.revision.id) {
        LeaveRelated(s, a, d, around);
      } else if a.mounted.Some? {
        ConvergeRelated(s, a, d, around);
      } else if d.Enabled? {
        MountRelated(s, a, d, around);
      }
    }
  }

  lemma CompleteStartRelated(s: Slot, step: Step)
    requires CanStep(s, step) && step.DoCompleteStart?
    ensures Related(s, step, Take(s, step).0, Take(s, step).1, Take(s, step).2.Some?)
  {
    if ActiveAssignments(s).Done? {
      FinishStartKeeps(s.mounted.value.component, step.epoch, ActiveAssignments(s).value, step.seen);
    }
  }

  lemma FailRelated(s: Slot, step: Step)
    requires CanStep(s, step) && step.DoFail?
    ensures Related(s, step, Take(s, step).0, Take(s, step).1, Take(s, step).2.Some?)
  {
    if s.mounted.Some? {
      FailActivationKeeps(s.mounted.value.component, step.epoch, step.summary);
    }
  }

  lemma PollStopRelated(s: Slot, step: Step)
    requires CanStep(s, step) && step.DoPollStop?
    ensures Related(s, step, Take(s, step).0, Take(s, step).1, Take(s, step).2.Some?)
  {
    if s.mounted.Some? {
      FinishStopKeeps(s.mounted.value.component, step.epoch, step.effects, step.poll, step.invoked);
    }
  }

  lemma AbandonRelated(s: Slot, step: Step)
    requires CanStep(s, step) && step.DoAbandon?
    ensures Related(s, step, Take(s, step).0, Take(s, step).1, Take(s, step).2.Some?)
  {
    if s.mounted.Some? {
      AbandonKeeps(s.mounted.value.component, step.epoch);
    }
  }

  lemma DeferRelated(s: Slot, step: Step)
    requires CanStep(s, step) && step.DoDefer?
    ensures Related(s, step, Take(s, step).0, Take(s, step).1, Take(s, step).2.Some?)
  {
    if s.mounted.Some? {
      DeferCleanupKeeps(s.mounted.value.component, step.epoch, step.request);
    }
  }

  lemma StepRelated(s: Slot, step: Step)
    requires CanStep(s, step)
    ensures Related(s, step, Take(s, step).0, Take(s, step).1, Take(s, step).2.Some?)
  {
    match step
    case DoReconcile(d, around) => ReconcileRelated(s, d, around);
    case DoCompleteStart(_, _) => CompleteStartRelated(s, step);
    case DoFail(_, _) => FailRelated(s, step);
    case DoPollStop(_, _, _, _) => PollStopRelated(s, step);
    case DoAbandon(_) => AbandonRelated(s, step);
    case DoDefer(_, _) => DeferRelated(s, step);
  }

  lemma ActivationsKeep(w: World, w': World, step: Step)
    requires WorldOk(w) && WorldStep(w, w', step)
    ensures ActivationsOk(w')
    ensures Take(w.slot, step).1.Began? ==> Take(w.slot, step).1.epoch !in w.begun
  {
    StepRelated(w.slot, step);
  }

  // What the history of an effect scope keeps, event by event.

  lemma TallyStarts(effects: Scope)
    requires effects == Scope(effects.id, 1, effects.drain, Open([]))
    ensures TallyOk(Tally([], [], EffectScopeRuns.Plan(effects.id, [])), effects)
  {
    EffectScopeRuns.LifeInvStart(EffectScopeRuns.World(effects, effects.id + 1, [], []));
  }

  lemma DeferHistory(t: Tally, effects: Scope, effects': Scope, id: RegistrationId, request: EffectScopeRuns.Request)
    requires EffectScopeRuns.HistoryOk(effects, t.registered, t.invoked, t.plan)
    requires EffectScopeRuns.Defer(effects, request) == EffectScopeRuns.Ok((effects', id))
    ensures EffectScopeRuns.HistoryOk(
              effects', t.registered + [id], t.invoked, EffectScopeRuns.Note(t.plan, [], EffectScopeRuns.Registered(id, request)))
  {
    EffectScopeRuns.HistoryStep(effects, effects', EffectScopeRuns.Registered(id, request), t.registered, t.invoked, t.plan);
    assert t.invoked + [] == t.invoked;
  }

  lemma TallyDefers(t: Tally, effects: Scope, epoch: Epoch, request: EffectScopeRuns.Request)
    requires TallyOk(t, effects) && EffectScopeRuns.Defer(effects, request).Ok?
    ensures var effects' := EffectScopeRuns.Defer(effects, request).value.0;
            TallyOk(Tallied(t, Some(effects), DoDefer(epoch, request), Some(effects'), false), effects')
  {
    var (effects', id) := EffectScopeRuns.Defer(effects, request).value;
    var plan := EffectScopeRuns.Note(t.plan, [], EffectScopeRuns.Registered(id, request));
    assert TallyOk(Tally(t.registered + [id], t.invoked, plan), effects') by {
      DeferHistory(t, effects, effects', id, request);
    }
  }

  lemma TallySeals(t: Tally, effects: Scope)
    requires TallyOk(t, effects)
    ensures TallyOk(t, Begin(effects))
  {
    EffectScopeRuns.HistoryStep(effects, Begin(effects), EffectScopeRuns.Sealed, t.registered, t.invoked, t.plan);
    assert t.registered + [] == t.registered && t.invoked + [] == t.invoked;
  }

  lemma TallyPolls(t: Tally, effects: Scope, effects': Scope, poll: Poll<Report>, invoked: seq<RegistrationId>)
    requires TallyOk(t, effects) && PollResult(effects, effects', poll, invoked)
    ensures TallyOk(t.(invoked := t.invoked + invoked), effects')
  {
    EffectScopeRuns.HistoryStep(effects, effects', EffectScopeRuns.Polled(poll, invoked), t.registered, t.invoked, t.plan);
    assert t.registered + [] == t.registered;
  }

  lemma TallyEnds(t: Tally, effects: Scope, abandoned: bool)
    requires TallyOk(t, effects) && effects.storage.Closed? && (abandoned <==> !IsClean(effects.storage.report))
    ensures EndingOk(Ending(effects.storage.report, abandoned, t))
  {
    EffectScopeRuns.InvokedOnce(EffectScopeRuns.World(effects, effects.id + 1, t.registered, t.invoked));
  }

  lemma TallyMoves(t: Tally, effects: Scope, step: Step, effects': Scope, refused: bool)
    requires TallyOk(t, effects) && EffectsMove(effects, step, effects', refused)
    requires step.DoPollStop? && !refused ==> PollResult(effects, step.effects, step.poll, step.invoked)
    ensures TallyOk(if refused then t else Tallied(t, Some(effects), step, Some(effects'), false), effects')
  {
    if !refused {
      match step
      case DoDefer(epoch, request) => TallyDefers(t, effects, epoch, request);
      case DoPollStop(_, polled, poll, invoked) => TallyPolls(t, effects, polled, poll, invoked);
      case _ => TallySeals(t, effects);
    }
  }

  lemma LiveTallyKeeps(w: World, w': World, step: Step)
    requires WorldOk(w) && WorldStep(w, w', step) && !Take(w.slot, step).1.Ended?
    ensures LiveEffects(w'.slot).Some? ==> TallyOk(w'.tally, LiveEffects(w'.slot).value)
  {
    StepRelated(w.slot, step);
    var (slot, mark, refusal) := Take(w.slot, step);
    if mark.Began? {
      TallyStarts(LiveEffects(slot).value);
    } else if LiveEffects(w.slot).Some? {
      TallyMoves(w.tally, LiveEffects(w.slot).value, step, LiveEffects(slot).value, refusal.Some?);
    }
  }

  lemma LastTallyOk(w: World, w': World, step: Step)
    requires WorldOk(w) && WorldStep(w, w', step) && Take(w.slot, step).1.Ended?
    ensures var mark := Take(w.slot, step).1; EndingOk(Ending(mark.report, mark.abandoned, w'.tally))
  {
    StepRelated(w.slot, step);
    var mark, effects := Take(w.slot, step).1, LiveEffects(w.slot).value;
    if step.DoPollStop? {
      TallyPolls(w.tally, effects, step.effects, step.poll, step.invoked);
      TallyEnds(w'.tally, step.effects, mark.abandoned);
    } else {
      TallyEnds(w.tally, effects, mark.abandoned);
    }
  }

  lemma TallyKeeps(w: World, w': World, step: Step)
    requires WorldOk(w) && WorldStep(w, w', step)
    ensures LiveEffects(w'.slot).Some? ==> TallyOk(w'.tally, LiveEffects(w'.slot).value)
    ensures forall e :: e in w'.ended ==> EndingOk(w'.ended[e])
  {
    StepRelated(w.slot, step);
    if Take(w.slot, step).1.Ended? {
      LastTallyOk(w, w', step);
    } else {
      LiveTallyKeeps(w, w', step);
    }
  }

  lemma WorldKeeps(w: World, w': World, step: Step)
    requires WorldOk(w) && WorldStep(w, w', step)
    ensures WorldOk(w')
    ensures Take(w.slot, step).1.Began? ==> Take(w.slot, step).1.epoch !in w.begun
  {
    StepRelated(w.slot, step);
    ActivationsKeep(w, w', step);
    TallyKeeps(w, w', step);
  }

  lemma {:induction false} LifeOk(worlds: seq<World>, steps: seq<Step>, k: nat)
    requires IsLife(worlds, steps) && k <= |steps|
    ensures WorldOk(worlds[k])
  {
    if k > 0 {
      LifeOk(worlds, steps, k - 1);
      WorldKeeps(worlds[k - 1], worlds[k], steps[k - 1]);
    }
  }

  /** No life ever reaches a slot on which an operation would be undefined. */
  lemma NeverStuck(worlds: seq<World>, steps: seq<Step>, step: Step)
    requires IsLife(worlds, steps) && HonestPoll(worlds[|steps|].slot, step)
    ensures CanStep(worlds[|steps|].slot, step)
  {
    LifeOk(worlds, steps, |steps|);
  }

  /** Over every life of a slot, an activation begins only when each activation
      seen before is over: its effect scope reached the report it had promised,
      everything registered under it was invoked exactly once, and the report was
      clean or explicitly abandoned; and no activation epoch is ever used twice. */
  lemma StartsOnlyAfterTeardown(worlds: seq<World>, steps: seq<Step>, k: nat)
    requires IsLife(worlds, steps) && k < |steps|
    ensures CanStep(worlds[k].slot, steps[k])
    ensures Take(worlds[k].slot, steps[k]).1.Began? ==>
              && Take(worlds[k].slot, steps[k]).1.epoch !in worlds[k].begun
              && forall e :: e in worlds[k].begun ==> e in worlds[k].ended && EndingOk(worlds[k].ended[e])
  {
    LifeOk(worlds, steps, k);
    WorldKeeps(worlds[k], worlds[k + 1], steps[k]);
    StepRelated(worlds[k].slot, steps[k]);
  }

  /** The report an activation ends with is the one its effect scope promised all along. */
  lemma EndsWithPromisedReport(worlds: seq<World>, steps: seq<Step>, k: nat)
    requires IsLife(worlds, steps) && k < |steps| && CanStep(worlds[k].slot, steps[k])
    requires Take(worlds[k].slot, steps[k]).1.Ended?
    ensures var mark := Take(worlds[k].slot, steps[k]).1;
            && LiveEpoch(worlds[k].slot) == Some(mark.epoch) && LiveEffects(worlds[k].slot).Some?
            && mark.report == Promised(LiveEffects(worlds[k].slot).value)
            && mark.epoch in worlds[k + 1].ended && worlds[k + 1].ended[mark.epoch].report == mark.report
            && EndingOk(worlds[k + 1].ended[mark.epoch])
  {
    LifeOk(worlds, steps, k);
    StepRelated(worlds[k].slot, steps[k]);
    WorldKeeps(worlds[k], worlds[k + 1], steps[k]);
  }

  /** Between any two moments of a life: a revision identity keeps one definition
      and scope, and stored desired content moved only to larger generations. */
  lemma {:induction false} DesiredHistory(worlds: seq<World>, steps: seq<Step>, i: nat, j: nat)
    requires IsLife(worlds, steps) && i <= j <= |steps|
    ensures forall id :: id in worlds[i].slot.known ==>
              id in worlds[j].slot.known && worlds[j].slot.known[id] == worlds[i].slot.known[id]
    ensures worlds[i].slot.desired.Some? ==>
              && worlds[j].slot.desired.Some?
              && (worlds[j].slot.desired == worlds[i].slot.desired
                  || worlds[j].slot.desired.value.generation.sequence > worlds[i].slot.desired.value.generation.sequence)
    decreases j
  {
    if i < j {
      DesiredHistory(worlds, steps, i, j - 1);
      assert WorldStep(worlds[j - 1], worlds[j], steps[j - 1]);
      DesiredStep(worlds[j - 1].slot, steps[j - 1]);
    }
  }

  ghost predicate DesiredGrows(s: Slot, s': Slot) {
    && (forall id :: id in s.known ==> id in s'.known && s'.known[id] == s.known[id])
    && (s.desired.Some? ==> s'.desired.Some?)
    && (s.desired.Some? && s'.desired != s.desired ==>
          s'.desired.value.generation.sequence > s.desired.value.generation.sequence)
  }

  lemma ConvergeKeepsDesired(s: Slot, d: Desired, around: Surroundings)
    requires SlotOk(s)
    ensures match AcceptDesired(s, d)
            case Refused(_) => ReconcileSlot(s, d, around).0 == s
            case Done(a) => ReconcileSlot(s, d, around).0.desired == a.desired && ReconcileSlot(s, d, around).0.known == a.known
  {
  }

  lemma DesiredStep(s: Slot, step: Step)
    requires CanStep(s, step)
    ensures DesiredGrows(s, Take(s, step).0)
  {
    if step.DoReconcile? {
      ConvergeKeepsDesired(s, step.desired, step.around);
    } else {
      assert Take(s, step).0.desired == s.desired && Take(s, step).0.known == s.known;
    }
  }

  /** If the mounted revision differs between two moments, the slot was unmounted in between. */
  lemma {:induction false} NoDirectSwap(worlds: seq<World>, steps: seq<Step>, i: nat, j: nat)
    requires IsLife(worlds, steps) && i <= j <= |steps|
    requires worlds[i].slot.mounted.Some? && worlds[j].slot.mounted.Some?
    requires worlds[i].slot.mounted.value.revision != worlds[j].slot.mounted.value.revision
    ensures exists k :: i < k < j && worlds[k].slot.mounted.None?
    decreases j
  {
    StepRelated(worlds[j - 1].slot, steps[j - 1]);
    if worlds[j - 1].slot.mounted.Some? {
      NoDirectSwap(worlds, steps, i, j - 1);
    } else {
      assert i < j - 1;
    }
  }

  /** A refused operation leaves the whole slot as it was. */
  lemma RefusalChangesNothing(s: Slot, step: Step)
    requires CanStep(s, step) && Take(s, step).2.Some?
    ensures Take(s, step).0 == s
  {
  }

  // ---------------------------------------------------------------------
  // The slot object
  // ---------------------------------------------------------------------

  /** The mounted revision and the component object it owns. */
  datatype Occupant = Occupant(revision: nat, component: ReconciledComponent)

  class ComponentSlot {
    const incarnation: nat
    var desired: Option<Desired>
    var known: map<nat, Revision>
    var mounted: Option<Occupant>
    var lastStop: Option<StopRecord>

    /** The objects a slot owns. */
    ghost function Owned(): set<object>
      reads this
    {
      if mounted.Some? then {mounted.value.component, mounted.value.component.instance} else {}
    }

    ghost function State(): Slot
      reads this, Owned()
    {
      Slot(
        incarnation, desired, known,
        if mounted.Some? then Some(Mounted(mounted.value.revision, mounted.value.component.View())) else None, lastStop)
    }

    ghost predicate ComponentValid()
      reads this, Owned()
    {
      mounted.Some? ==> mounted.value.component.Valid()
    }

    ghost predicate Valid()
      reads this, Owned()
    {
      ComponentValid() && SlotOk(State())
    }

    constructor (incarnation: nat)
      ensures Valid() && State() == Empty(incarnation) && Owned() == {}
    {
      this.incarnation := incarnation;
      desired, known, mounted, lastStop := None, map[], None, None;
    }

    method Accept(d: Desired) returns (refusal: Option<SlotError>)
      requires Valid()
      modifies this
      ensures ComponentValid() && mounted == old(mounted)
      ensures match AcceptDesired(old(State()), d)
              case Refused(error) => State() == old(State()) && refusal == Some(error)
              case Done(s) => State() == s && refusal.None?
    {
      if d.generation.slot != incarnation { return Some(ForeignGeneration); }
      var changed := true;
      if desired.Some? {
        if d.generation.sequence < desired.value.generation.sequence { return Some(StaleDesired); }
        if d.generation == desired.value.generation {
          if d != desired.value { return Some(GenerationConflict); }
          changed := false;
        }
      }
      var revision := RevisionOf(d);
      if revision.Some? && revision.value.id in known && known[revision.value.id] != revision.value {
        return Some(RevisionConflict);
      }
      if changed && d.Enabled? && (mounted.None? || mounted.value.revision == d.revision.id) {
        if !(d.assignments.Keys <= d.revision.requirements) { return Some(ReconcileFailed(UndeclaredAssignment)); }
      }
      if !changed { return None; }
      if revision.Some? && revision.value.id !in known {
        known := known[revision.value.id := revision.value];
      }
      desired := Some(d);
      return None;
    }

    /** Ask the mounted component to go away, and unmount it if it already has. */
    method Dismiss(generation: Generation, reason: DesiredReason) returns (r: Result<SlotOutcome>)
      requires ComponentValid() && mounted.Some?
      modifies this, Owned()
      ensures ComponentValid() && Owned() <= old(Owned())
      ensures (State(), r) == Retire(old(State()), generation, reason)
    {
      var revision := mounted.value.revision;
      var answer := mounted.value.component.RequestStop(reason, ToRemoved);
      if answer.Err? { return Err(answer.error); }
      if answer.value.IsRemoved? {
        mounted := None;
        return Ok(SlotUnmounted(generation, revision, reason));
      }
      return Ok(MapCurrent(generation, revision, answer.value));
    }

    /** Mount when empty, reconcile the mounted revision, or retire another one. */
    method Converge(d: Desired, seen: Resolution, scope: Option<(nat, nat)>, incarnations: Incarnations)
      returns (r: Result<SlotOutcome>, ghost around: Surroundings)
      requires ComponentValid() && incarnations.Valid() && d.Enabled?
      modifies this, Owned(), incarnations
      ensures ComponentValid() && incarnations.Valid() && fresh(Owned() - old(Owned()))
      ensures Supplied(around, seen, scope, old(incarnations.next))
      ensures (State(), r) == ReconcileEnabled(old(State()), d, around)
    {
      around := Surroundings(seen, scope, None);
      if mounted.None? {
        if !(d.assignments.Keys <= d.revision.requirements) { return Err(UndeclaredAssignment), around; }
        var minted := incarnations.Mint();
        if minted.None? { return Err(Lifecycle(InstanceIncarnationExhausted)), around; }
        around := Surroundings(seen, scope, minted);
        var component := new ReconciledComponent(d.revision.requirements, minted.value);
        var answer := component.Reconcile(d.assignments, seen, scope);
        mounted := Some(Occupant(d.revision.id, component));
        if answer.Err? { return Err(answer.error), around; }
        return Ok(SlotMounted(d.generation, d.revision.id, answer.value)), around;
      }
      var revision := mounted.value.revision;
      if revision == d.revision.id {
        var answer := mounted.value.component.Reconcile(d.assignments, seen, scope);
        if answer.Err? { return Err(answer.error), around; }
        return Ok(MapCurrent(d.generation, revision, answer.value)), around;
      }
      r := Dismiss(d.generation, RevisionChanged(revision, d.revision.id));
    }

    /** One synchronous pass. A refusal leaves no trace; any other error means the
        snapshot was accepted and convergence is blocked. */
    method Reconcile(d: Desired, seen: Resolution, scope: Option<(nat, nat)>, incarnations: Incarnations)
      returns (r: SlotResult<SlotOutcome>, ghost around: Surroundings)
      requires Valid() && incarnations.Valid()
      modifies this, Owned(), incarnations
      ensures Valid() && incarnations.Valid() && fresh(Owned() - old(Owned()))
      ensures Supplied(around, seen, scope, old(incarnations.next))
      ensures (State(), r) == ReconcileSlot(old(State()), d, around)
      ensures r.Refused? ==> State() == old(State())
    {
      around := Surroundings(seen, scope, None);
      ghost var before := State();
      var refusal := Accept(d);
      if refusal.Some? { return Refused(refusal.value), around; }
      var answer: Result<SlotOutcome>;
      match d {
        case Enabled(_, _, _) => answer, around := Converge(d, seen, scope, incarnations);
        case DesiredDisabled(generation, revision) =>
          if mounted.None? { answer := Ok(SlotDisabled(generation, revision.id)); }
          else { answer := Dismiss(generation, Disabled); }
        case DesiredGone(generation) =>
          if mounted.None? { answer := Ok(SlotRemoved(generation)); }
          else { answer := Dismiss(generation, DesiredRemoved); }
      }
      r := if answer.Ok? then Done(answer.value) else Done(ConvergenceBlocked(d.generation, answer.error));
      ReconcileRelated(before, d, around);
    }

    /** Publish a start; the assignments it is held to are those of the desired snapshot now stored. */
    method CompleteStart(epoch: Epoch, seen: Resolution) returns (r: SlotResult<Components.Outcome>)
      requires Valid()
      modifies this, Owned()
      ensures Valid() && Owned() == old(Owned())
      ensures State() == Take(old(State()), DoCompleteStart(epoch, seen)).0
      ensures r.Refused? <==> Take(old(State()), DoCompleteStart(epoch, seen)).2.Some?
      ensures r.Done? ==> LiveEpoch(State()) == Some(epoch)
    {
      StepRelated(State(), DoCompleteStart(epoch, seen));
      if mounted.None? { return Refused(NoMountedComponent); }
      if desired.None? || !desired.value.Enabled? || desired.value.revision.id != mounted.value.revision {
        return Refused(MountedRevisionNotEnabled);
      }
      var answer := mounted.value.component.CompleteStart(epoch, desired.value.assignments, seen);
      r := if answer.Ok? then Done(answer.value) else Refused(ReconcileFailed(answer.error));
    }

    method FailActivation(epoch: Epoch, summary: string) returns (r: SlotResult<Components.Outcome>)
      requires Valid()
      modifies this, Owned()
      ensures Valid() && Owned() == old(Owned())
      ensures State() == Take(old(State()), DoFail(epoch, summary)).0
      ensures r.Refused? <==> Take(old(State()), DoFail(epoch, summary)).2.Some?
      ensures r.Done? ==> LiveEpoch(State()) == Some(epoch) && mounted.Some? && mounted.value.component.instance.state.Stopping?
    {
      StepRelated(State(), DoFail(epoch, summary));
      if mounted.None? { return Refused(NoMountedComponent); }
      if desired.None? || !desired.value.Enabled? || desired.value.revision.id != mounted.value.revision {
        return Refused(MountedRevisionNotEnabled);
      }
      var answer := mounted.value.component.FailActivation(epoch, summary);
      r := if answer.Ok? then Done(answer.value) else Refused(ReconcileFailed(answer.error));
    }

    method DeferCleanup(epoch: Epoch, request: EffectScopeRuns.Request) returns (r: SlotResult<RegistrationId>)
      requires Valid()
      modifies this, Owned()
      ensures Valid() && Owned() == old(Owned())
      ensures State() == Take(old(State()), DoDefer(epoch, request)).0
      ensures r.Refused? <==> Take(old(State()), DoDefer(epoch, request)).2.Some?
      ensures r.Done? ==> LiveEpoch(State()) == Some(epoch)
    {
      StepRelated(State(), DoDefer(epoch, request));
      if mounted.None? { return Refused(NoMountedComponent); }
      if desired.None? || !desired.value.Enabled? || desired.value.revision.id != mounted.value.revision {
        return Refused(MountedRevisionNotEnabled);
      }
      var answer := mounted.value.component.DeferCleanup(epoch, request);
      r := if answer.Ok? then Done(answer.value) else Refused(ReconcileFailed(answer.error));
    }

    /** One poll of the teardown future; dropping the future leaves everything in place. */
    method PollStop(epoch: Epoch) returns (r: SlotResult<Option<StopRecord>>, ghost step: Step)
      requires Valid()
      modifies this, Owned()
      ensures Valid() && Owned() <= old(Owned())
      ensures step.DoPollStop? && step.epoch == epoch && CanStep(old(State()), step)
      ensures State() == Take(old(State()), step).0
      ensures r.Refused? <==> Take(old(State()), step).2.Some?
      ensures r.Done? && r.value.Some? ==> lastStop == r.value && r.value.value.epoch == epoch
    {
      step := DoPollStop(epoch, Scope(0, 1, 0, Open([])), Poll.Pending, []);
      if mounted.None? { return Refused(NoMountedComponent), step; }
      ghost var before := State();
      var revision := mounted.value.revision;
      var answer;
      ghost var polled;
      answer, polled := mounted.value.component.PollStop(epoch);
      step := DoPollStop(epoch, polled.0, polled.1, polled.2);
      StepRelated(before, step);
      match answer
      case Err(error) => r := Refused(ReconcileFailed(error));
      case Ok(None) => r := Done(None);
      case Ok(Some(completion)) =>
        var record := Record(revision, completion);
        r := Done(Some(record));
    }

    method AbandonFailedCleanup(epoch: Epoch) returns (r: SlotResult<StopRecord>)
      requires Valid()
      modifies this, Owned()
      ensures Valid() && Owned() <= old(Owned())
      ensures State() == Take(old(State()), DoAbandon(epoch)).0
      ensures r.Refused? <==> Take(old(State()), DoAbandon(epoch)).2.Some?
      ensures r.Done? ==> lastStop == Some(r.value) && r.value.epoch == epoch && !IsClean(r.value.report)
    {
      if mounted.None? { return Refused(NoMountedComponent); }
      StepRelated(State(), DoAbandon(epoch));
      AbandonKeeps(mounted.value.component.View(), epoch);
      var revision := mounted.value.revision;
      var answer := mounted.value.component.AbandonFailedCleanup(epoch);
      if answer.Err? { return Refused(ReconcileFailed(answer.error)); }
      var record := Record(revision, answer.value);
      return Done(record);
    }

    /** Keep the record of a stop, and unmount exactly when it was for removal and not blocked. */
    method Record(revision: nat, completion: Completion) returns (record: StopRecord)
      requires ComponentValid()
      modifies this
      ensures ComponentValid() && Owned() <= old(Owned())
      ensures (State(), record) == RecordCompletion(old(State()), revision, completion)
      ensures record.report == completion.report && record.epoch == completion.epoch && lastStop == Some(record)
    {
      var disposition := match completion
                         case Completed(_, _, _, _) => WasCompleted
                         case Blocked(_, _, _, _) => WasBlocked
                         case Abandoned(_, _, _, _) => WasAbandoned;
      record := StopRecord(revision, completion.epoch, completion.target, completion.reason, disposition, completion.report);
      lastStop := Some(record);
      if completion.target.ToRemoved? && disposition != WasBlocked { mounted := None; }
    }
  }

  /** What a pass was given: the registry's answer, the next scope, and the incarnation minted if any. */
  predicate Supplied(around: Surroundings, seen: Resolution, scope: Option<(nat, nat)>, next: nat) {
    around.seen == seen && around.scope == scope && (around.instance.Some? ==> around.instance.value == next)
  }
}
