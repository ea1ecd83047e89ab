/** Any number of writers over one store and one pool, interleaved in any order:
    claim a slot, submit the command, confirm it, release the slot. */
module FunnelRuns {
  import opened Common
  import opened Decimals
  import opened FunnelStore
  import opened Stores
  import opened Audits
  import opened FunnelLogs
  import opened Workloads

  datatype Stage = Holding | Committed | Logged | Refused | Panicked

  datatype Writer = Idle(n: nat) | Busy(n: nat, choice: Choice, spec: CommitSpec, stage: Stage)

  /** `log` is every submitted command in commit order; `confirmed` is the sidecar. */
  datatype World = World(
    pool: Pool, tables: Tables, log: seq<CommitSpec>, writers: seq<Writer>, confirmed: seq<Confirmed>)

  datatype Action = Claim(w: nat, choice: Choice) | Submit(w: nat) | Confirm(w: nat) | Release(w: nat)

  /** Writers stop after this many commands each. */
  const MAX_STEPS: nat := 0xFFFF_FFFF

  function Start(writers: nat, size: nat): World {
    World(NewPool(size), NO_ROWS, [], seq(writers, i => Idle(0)), [])
  }

  /** The rejection the generator planned for, or none. */
  predicate PlannedFor(planned: Option<Planned>, why: Rejection) {
    || (planned == Some(PlannedStaleLease) && why.StaleLease?)
    || (planned == Some(PlannedStaleHolder) && why.StaleHolder?)
  }

  function StageAfter(spec: CommitSpec, outcome: Outcome): Stage {
    match outcome
    case Applied => Committed
    case Rejected(why) => if PlannedFor(spec.planned, why) then Refused else Panicked
    case _ => Panicked
  }

  predicate Enabled(world: World, a: Action) {
    && a.w < |world.writers|
    && var writer := world.writers[a.w];
    match a
    case Claim(_, choice) =>
      && writer.Idle? && writer.n < MAX_STEPS
      && choice.slot < |world.pool.slots| && Free(world.pool.slots[choice.slot])
    case Submit(_) => writer.Busy? && writer.stage.Holding?
    case Confirm(_) => writer.Busy? && writer.stage.Committed?
    case Release(_) => writer.Busy? && (writer.stage.Logged? || writer.stage.Refused?) && writer.choice.slot < |world.pool.slots|
  }

  function After(world: World, a: Action): World
    requires Enabled(world, a)
  {
    var writer := world.writers[a.w];
    match a
    case Claim(w, choice) =>
      var slots := world.pool.slots;
      var s := slots[choice.slot];
      world.(
      pool := world.pool.(slots := slots[choice.slot := s.(claimed := true)]),
      writers := world.writers[w := Busy(writer.n + 1, choice, SpecFor(w, writer.n + 1, s, choice), Holding)])
    case Submit(w) =>
      world.(
      tables := Next(world.tables, writer.spec),
      log := world.log + [writer.spec],
      writers := world.writers[w := writer.(stage := StageAfter(writer.spec, Decide(world.tables, writer.spec)))])
    case Confirm(w) =>
      world.(
      confirmed := world.confirmed + [Confirmed(writer.spec, writer.spec.planned.Some?)],
      writers := world.writers[w := writer.(stage := Logged)])
    case Release(w) =>
      world.(
      pool := Released(world.pool, writer.choice.slot, writer.spec, writer.stage.Logged?),
      writers := world.writers[w := Idle(writer.n)])
  }

  ghost predicate IsRun(worlds: seq<World>, actions: seq<Action>) {
    && |worlds| == |actions| + 1
    && (exists n: nat, size: nat :: n <= WRITERS && worlds[0] == Start(n, size))
    && forall i :: 0 <= i < |actions| ==> Enabled(worlds[i], actions[i]) && worlds[i + 1] == After(worlds[i], actions[i])
  }

  // ---------------------------------------------------------------------
  // The invariant
  // ---------------------------------------------------------------------

  /** The slot and the store agree on the unit's version, epoch, holder and phase. */
  predicate Agree(s: Slot, t: Tables) {
    if s.version == 0 then s.unit !in t.units && s.phase.Ready? && s.epoch == 0
    else
      && s.unit in t.units
      && var row := t.units[s.unit];
      row.version == s.version && row.epoch == s.epoch && row.holder == s.holder && row.phase == s.phase
  }

  ghost predicate SlotsDistinct(world: World) {
    && (forall i, j :: 0 <= i < j < |world.pool.slots| ==> world.pool.slots[i].unit != world.pool.slots[j].unit)
    && (forall i :: 0 <= i < |world.pool.slots| ==> world.pool.slots[i].unit <= world.pool.nextUnit)
    && (forall u :: u in world.tables.units ==> u <= world.pool.nextUnit)
  }

  ghost predicate Unclaimed(world: World) {
    forall i :: 0 <= i < |world.pool.slots| && !world.pool.slots[i].claimed ==> Agree(world.pool.slots[i], world.tables)
  }

  /** A busy writer owns its slot and holds the command that slot asked for. */
  predicate Owns(world: World, w: nat)
    requires w < |world.writers|
  {
    var writer := world.writers[w];
    writer.Busy? ==>
      && 1 <= writer.n <= MAX_STEPS
      && writer.choice.slot < |world.pool.slots|
      && world.pool.slots[writer.choice.slot].claimed
      && !world.pool.slots[writer.choice.slot].phase.Terminal?
      && writer.spec == SpecFor(w, writer.n, world.pool.slots[writer.choice.slot].(claimed := false), writer.choice)
  }

  ghost predicate Ownership(world: World) {
    && (forall w :: 0 <= w < |world.writers| ==> Owns(world, w) && world.writers[w].n <= MAX_STEPS)
    && forall v, w :: 0 <= v < w < |world.writers| && world.writers[v].Busy? && world.writers[w].Busy? ==>
                        world.writers[v].choice.slot != world.writers[w].choice.slot
  }

  /** Every claimed slot has a writer at work on it. */
  ghost predicate HasOwner(world: World, i: nat) {
    exists w :: 0 <= w < |world.writers| && world.writers[w].Busy? && world.writers[w].choice.slot == i
  }

  ghost predicate ClaimsOwned(world: World) {
    forall i :: 0 <= i < |world.pool.slots| && world.pool.slots[i].claimed ==> HasOwner(world, i)
  }

  /** Where a writer stands with the store. */
  ghost predicate Placed(world: World, w: nat)
    requires w < |world.writers|
  {
    var writer := world.writers[w];
    writer.Busy? && writer.choice.slot < |world.pool.slots| ==>
      match writer.stage
      case Panicked => false
      case Committed => Landed(world, writer.spec, world.pool.slots[writer.choice.slot])
      case Logged => Landed(world, writer.spec, world.pool.slots[writer.choice.slot])
      case _ => Agree(world.pool.slots[writer.choice.slot], world.tables)
  }

  /** The command is in the store: the slot it came from, moved on, would agree. */
  ghost predicate Landed(world: World, spec: CommitSpec, s: Slot) {
    spec.planned.None? && Agree(Moved(s, spec), world.tables) && AcceptedIn(world.log, |world.log|, spec)
  }

  ghost predicate Placement(world: World) { forall w :: 0 <= w < |world.writers| ==> Placed(world, w) }

  /** Identifiers and effect rows have the generator's shape. */
  predicate Generated(spec: CommitSpec) {
    && spec.step < SEQUENCES
    && spec.command == CommandId(spec.writer, spec.step)
    && spec.event.id == EventId(spec.command)
    && (spec.effect.Some? ==> spec.effect.value.id == IntentId(spec.command))
    && (spec.artifact.Some? ==> spec.artifact.value.of.writer == spec.writer && spec.artifact.value.of.step == spec.step)
    && (spec.effect.Some? <==> spec.kind.Dispatch? || spec.kind.ToolCompletion?)
    && (spec.kind.Dispatch? ==> spec.effect.value.state.Prepared? && spec.effect.value.operation == Operation(spec.unit, spec.command))
    && (spec.kind.ToolCompletion? ==> spec.effect.value.state.Succeeded?)
  }

  /** A submitted command is its writer's, and earlier than what that writer now holds. */
  predicate Stamped(writers: seq<Writer>, spec: CommitSpec) {
    && WellFormed(spec) && Generated(spec) && spec.writer < |writers|
    && spec.step <= writers[spec.writer].n
    && (writers[spec.writer].Busy? && writers[spec.writer].stage.Holding? ==> spec.step < writers[spec.writer].n)
  }

  ghost predicate LogOk(world: World) {
    && world.tables == Replay(world.log)
    && forall i :: 0 <= i < |world.log| ==> Stamped(world.writers, world.log[i])
  }

  ghost predicate OpenedBy(log: seq<CommitSpec>, i: int, unit: nat, epoch: nat, operation: string) {
    && FromAccepted(log, i) && log[i].kind.Dispatch? && log[i].unit == unit && log[i].epoch == epoch
    && log[i].effect.Some? && log[i].effect.value.operation == operation
  }

  /** A working slot carries the key its latest dispatch opened. */
  ghost predicate IntentOpen(log: seq<CommitSpec>, s: Slot) {
    s.openOp.Some? && exists i :: OpenedBy(log, i, s.unit, s.epoch, s.openOp.value)
  }

  ghost predicate IntentsOpen(world: World) {
    forall i :: 0 <= i < |world.pool.slots| && world.pool.slots[i].phase.Working? ==> IntentOpen(world.log, world.pool.slots[i])
  }

  /** Every accepted tool completion closes the intent of an earlier dispatch in its own unit and epoch. */
  ghost predicate CompletionsMatched(log: seq<CommitSpec>) {
    forall j :: FromAccepted(log, j) && log[j].kind.ToolCompletion? && log[j].effect.Some? ==>
                  exists i :: i < j && OpenedBy(log, i, log[j].unit, log[j].epoch, log[j].effect.value.operation)
  }

  ghost predicate SidecarOk(world: World) {
    forall i :: 0 <= i < |world.confirmed| ==>
                  !world.confirmed[i].staleAccepted && AcceptedIn(world.log, |world.log|, world.confirmed[i].spec)
  }

  ghost predicate Inv(world: World) {
    && |world.writers| <= WRITERS
    && SlotsDistinct(world) && Unclaimed(world) && Ownership(world) && ClaimsOwned(world) && Placement(world)
    && LogOk(world) && IntentsOpen(world) && CompletionsMatched(world.log) && SidecarOk(world)
  }

  // ---------------------------------------------------------------------
  // What the store answers
  // ---------------------------------------------------------------------

  /** Against an agreeing store, a command is current unless it was planned to be
      stale, and then it is stale in the planned way. */
  lemma VerdictAsPlanned(t: Tables, w: nat, n: nat, s: Slot, c: Choice)
    requires n < SEQUENCES && Agree(s, t) && !s.phase.Terminal?
    ensures var spec := SpecFor(w, n, s, c);
            match spec.planned
            case None => Verdict(t, spec).None?
            case Some(planned) => Verdict(t, spec).Some? && PlannedFor(spec.planned, Verdict(t, spec).value)
  {
    XorDiffers(s.holder, HOLDER_MASK);
  }

  /** No earlier command came from this writer with this sequence number. */
  ghost predicate Newest(log: seq<CommitSpec>, spec: CommitSpec) {
    && Generated(spec) && spec.writer < WRITERS
    && forall i :: 0 <= i < |log| ==>
                     Generated(log[i]) && log[i].writer < WRITERS && (log[i].writer != spec.writer || log[i].step != spec.step)
  }

  lemma IdsTellApart(a: CommitSpec, b: CommitSpec)
    requires Generated(a) && Generated(b) && a.writer < WRITERS && b.writer < WRITERS
    requires a.writer != b.writer || a.step != b.step
    ensures a.event.id != b.event.id && a.command != b.command
    ensures a.effect.Some? && b.effect.Some? ==> a.effect.value.id != b.effect.value.id
  {
    EventIdsEqualIff(a.writer, a.step, b.writer, b.step);
  }

  lemma NewestTellsApart(log: seq<CommitSpec>, spec: CommitSpec, i: int)
    requires Newest(log, spec) && FromAccepted(log, i)
    ensures log[i].event.id != spec.event.id && log[i].command != spec.command
    ensures log[i].effect.Some? && spec.effect.Some? ==> log[i].effect.value.id != spec.effect.value.id
  {
    IdsTellApart(log[i], spec);
  }

  lemma EventIdFresh(log: seq<CommitSpec>, spec: CommitSpec)
    requires Newest(log, spec)
    ensures spec.event.id !in Replay(log).events
  {
    forall i | FromAccepted(log, i) ensures log[i].event.id != spec.event.id { NewestTellsApart(log, spec, i); }
    if spec.event.id in Replay(log).events { EventOrigin(log, spec.event.id); }
  }

  lemma IntentIdFresh(log: seq<CommitSpec>, spec: CommitSpec)
    requires Newest(log, spec) && spec.effect.Some?
    ensures spec.effect.value.id !in Replay(log).effects
  {
    var id := spec.effect.value.id;
    forall i | FromAccepted(log, i) && log[i].effect.Some? ensures log[i].effect.value.id != id { NewestTellsApart(log, spec, i); }
    if id in Replay(log).effects { EffectOrigin(log, id); }
  }

  lemma ReceiptKeyFresh(log: seq<CommitSpec>, spec: CommitSpec)
    requires Newest(log, spec)
    ensures ReceiptKey(spec) !in Replay(log).receipts
  {
    if ReceiptKey(spec) in Replay(log).receipts {
      ReceiptOrigin(log, ReceiptKey(spec));
      var i :| FromAccepted(log, i) && ReceiptKey(log[i]) == ReceiptKey(spec);
      PairRoundTrip(spec.unit, spec.command);
      PairRoundTrip(log[i].unit, log[i].command);
      NewestTellsApart(log, spec, i);
    }
  }

  lemma ArtifactFresh(log: seq<CommitSpec>, spec: CommitSpec)
    requires Newest(log, spec) && spec.artifact.Some?
    ensures spec.artifact.value !in Replay(log).artifacts
  {
    if spec.artifact.value in Replay(log).artifacts { ArtifactOrigin(log, spec.artifact.value); }
  }

  lemma TripleFresh(t: Tables, s: Slot, spec: CommitSpec, other: nat)
    requires Consistent(SnapshotOf(t)) && Agree(s, t) && spec.unit == s.unit && spec.expected == s.version && WellFormed(spec)
    requires other in t.events
    ensures t.events[other].aggregate != spec.event.aggregate || t.events[other].version != spec.event.version
  {
    if spec.unit in t.units {
      assert JournalExact(SnapshotOf(t), spec.unit);
      assert EventsAt(t.events, spec.unit, s.version + 1) == {};
      assert other !in EventsAt(t.events, spec.unit, s.version + 1);
    }
  }

  lemma FreshAt(t: Tables, s: Slot, spec: CommitSpec, log: seq<CommitSpec>)
    requires t == Replay(log) && Consistent(SnapshotOf(t)) && Newest(log, spec) && Agree(s, t)
    requires spec.unit == s.unit && spec.expected == s.version && WellFormed(spec)
    requires spec.kind.Dispatch? ==> spec.epoch == s.epoch + 1
    ensures Fresh(t, spec)
  {
    EventIdFresh(log, spec);
    ReceiptKeyFresh(log, spec);
    if spec.effect.Some? { IntentIdFresh(log, spec); }
    if spec.artifact.Some? { ArtifactFresh(log, spec); }
    forall other | other in t.events
      ensures t.events[other].aggregate != spec.event.aggregate || t.events[other].version != spec.event.version
    {
      TripleFresh(t, s, spec, other);
    }
    HistoryBounded(log);
  }

  /** In every reachable world a held command is accepted unless planned stale,
      refused in exactly the planned way otherwise, and never meets a duplicate key. */
  lemma OutcomeAsPlanned(world: World, w: nat)
    requires Inv(world) && w < |world.writers| && world.writers[w].Busy? && world.writers[w].stage.Holding?
    ensures var spec, outcome := world.writers[w].spec, Decide(world.tables, world.writers[w].spec);
            if spec.planned.None? then outcome.Applied? else outcome.Rejected? && PlannedFor(spec.planned, outcome.why)
  {
    var writer := world.writers[w];
    var spec, s, t := writer.spec, world.pool.slots[writer.choice.slot], world.tables;
    assert Owns(world, w) && Placed(world, w);
    var free := s.(claimed := false);
    VerdictAsPlanned(t, w, writer.n, free, writer.choice);
    if spec.planned.None? {
      HistoryConsistent(world.log);
      FreshAt(t, free, spec, world.log);
    }
  }
}
