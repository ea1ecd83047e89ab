/** The run invariant holds in every reachable world, and what follows from it. */
module FunnelSafety {
  import opened Decimals
  import opened FunnelStore
  import opened Stores
  import opened Audits
  import opened FunnelLogs
  import opened Workloads
  import opened FunnelRuns

  // ---------------------------------------------------------------------
  // A growing log only adds facts
  // ---------------------------------------------------------------------

  lemma AcceptedStays(log: seq<CommitSpec>, spec: CommitSpec, i: int)
    requires FromAccepted(log, i)
    ensures FromAccepted(log + [spec], i) && (log + [spec])[i] == log[i]
  {
    assert (log + [spec])[..i] == log[..i];
  }

  lemma AcceptedInStays(log: seq<CommitSpec>, spec: CommitSpec, earlier: CommitSpec)
    requires AcceptedIn(log, |log|, earlier)
    ensures AcceptedIn(log + [spec], |log| + 1, earlier)
  {
    var i :| 0 <= i < |log| && log[i] == earlier && Accepted(log, i);
    AcceptedStays(log, spec, i);
  }

  lemma AcceptedLast(log: seq<CommitSpec>, spec: CommitSpec)
    ensures FromAccepted(log + [spec], |log|) <==> Decide(Replay(log), spec).Applied?
    ensures Decide(Replay(log), spec).Applied? ==> AcceptedIn(log + [spec], |log| + 1, spec)
    ensures Replay(log + [spec]) == Next(Replay(log), spec)
  {
    assert (log + [spec])[..|log|] == log;
  }

  lemma IntentStays(log: seq<CommitSpec>, spec: CommitSpec, s: Slot)
    requires IntentOpen(log, s)
    ensures IntentOpen(log + [spec], s)
  {
    var i :| OpenedBy(log, i, s.unit, s.epoch, s.openOp.value);
    AcceptedStays(log, spec, i);
    assert OpenedBy(log + [spec], i, s.unit, s.epoch, s.openOp.value);
  }

  /** A command changes no unit but its own. */
  lemma AgreeElsewhere(t: Tables, spec: CommitSpec, s: Slot)
    requires Agree(s, t) && s.unit != spec.unit
    ensures Agree(s, Next(t, spec))
  {
    if Decide(t, spec).Applied? { AppliedRows(t, spec); }
  }

  // ---------------------------------------------------------------------
  // Claiming
  // ---------------------------------------------------------------------

  lemma ClaimOwnership(world: World, w: nat, choice: Choice)
    requires Ownership(world) && Enabled(world, Claim(w, choice))
    ensures Ownership(After(world, Claim(w, choice)))
  {
    var next := After(world, Claim(w, choice));
    assert next.pool.slots[choice.slot].(claimed := false) == world.pool.slots[choice.slot];
    forall v | 0 <= v < |next.writers| ensures Owns(next, v) && next.writers[v].n <= MAX_STEPS { assert Owns(world, v); }
  }

  lemma ClaimPlacement(world: World, w: nat, choice: Choice)
    requires Unclaimed(world) && Ownership(world) && Placement(world) && Enabled(world, Claim(w, choice))
    ensures Placement(After(world, Claim(w, choice)))
  {
    var next := After(world, Claim(w, choice));
    forall v | 0 <= v < |next.writers| ensures Placed(next, v) {
      assert Owns(world, v) && Placed(world, v);
    }
  }

  lemma ClaimKeeps(world: World, w: nat, choice: Choice)
    requires Inv(world) && Enabled(world, Claim(w, choice))
    ensures Inv(After(world, Claim(w, choice)))
  {
    ClaimOwnership(world, w, choice);
    ClaimPlacement(world, w, choice);
    StepLog(world, Claim(w, choice));
    StepOwned(world, Claim(w, choice));
  }

  /** Actions that submit nothing leave the log as good as it was. */
  lemma StepLog(world: World, a: Action)
    requires LogOk(world) && CompletionsMatched(world.log) && SidecarOk(world) && Enabled(world, a) && !a.Submit?
    ensures var next := After(world, a); LogOk(next) && CompletionsMatched(next.log)
    ensures !a.Confirm? ==> SidecarOk(After(world, a))
  {
    var next := After(world, a);
    forall i | 0 <= i < |next.log| ensures Stamped(next.writers, next.log[i]) {
      assert Stamped(world.writers, world.log[i]);
    }
  }

  /** A writer that stays at work on its slot keeps owning it. */
  lemma OwnerStays(world: World, next: World, i: nat)
    requires HasOwner(world, i) && |next.writers| == |world.writers|
    requires forall w :: 0 <= w < |world.writers| && world.writers[w].Busy? && world.writers[w].choice.slot == i ==>
                           next.writers[w].Busy? && next.writers[w].choice.slot == i
    ensures HasOwner(next, i)
  {
    var w :| 0 <= w < |world.writers| && world.writers[w].Busy? && world.writers[w].choice.slot == i;
    assert next.writers[w].Busy? && next.writers[w].choice.slot == i;
  }

  lemma ClaimOwned(world: World, w: nat, choice: Choice)
    requires ClaimsOwned(world) && Enabled(world, Claim(w, choice))
    ensures ClaimsOwned(After(world, Claim(w, choice)))
  {
    var next := After(world, Claim(w, choice));
    forall i | 0 <= i < |next.pool.slots| && next.pool.slots[i].claimed ensures HasOwner(next, i) {
      if i == choice.slot {
        assert next.writers[w].Busy? && next.writers[w].choice.slot == i;
      } else {
        OwnerStays(world, next, i);
      }
    }
  }

  lemma ReleaseOwned(world: World, w: nat)
    requires ClaimsOwned(world) && Enabled(world, Release(w))
    ensures ClaimsOwned(After(world, Release(w)))
  {
    var next := After(world, Release(w));
    forall i | 0 <= i < |next.pool.slots| && next.pool.slots[i].claimed ensures HasOwner(next, i) {
      assert i != world.writers[w].choice.slot;
      OwnerStays(world, next, i);
    }
  }

  /** Claiming makes an owner, releasing unclaims, and nothing else moves a claim. */
  lemma StepOwned(world: World, a: Action)
    requires ClaimsOwned(world) && Enabled(world, a)
    ensures ClaimsOwned(After(world, a))
  {
    match a
    case Claim(w, choice) => ClaimOwned(world, w, choice);
    case Release(w) => ReleaseOwned(world, w);
    case _ =>
      var next := After(world, a);
      forall i | 0 <= i < |next.pool.slots| && next.pool.slots[i].claimed ensures HasOwner(next, i) {
        OwnerStays(world, next, i);
      }
  }

  // ---------------------------------------------------------------------
  // Submitting
  // ---------------------------------------------------------------------

  lemma SubmitOwn(world: World, w: nat)
    requires Inv(world) && Enabled(world, Submit(w))
    ensures Placed(After(world, Submit(w)), w)
  {
    OutcomeAsPlanned(world, w);
    assert Owns(world, w) && Placed(world, w);
    AcceptedLast(world.log, world.writers[w].spec);
  }

  lemma SubmitOther(world: World, w: nat, v: nat)
    requires SlotsDistinct(world) && Ownership(world) && Placement(world) && Enabled(world, Submit(w)) && v < |world.writers| && v != w
    ensures Placed(After(world, Submit(w)), v)
  {
    var writer, other := world.writers[w], world.writers[v];
    assert Owns(world, w) && Owns(world, v) && Placed(world, v);
    if other.Busy? {
      var s := world.pool.slots[other.choice.slot];
      assert other.choice.slot != writer.choice.slot;
      assert s.unit != writer.spec.unit;
      if other.stage.Committed? || other.stage.Logged? {
        AgreeElsewhere(world.tables, writer.spec, Moved(s, other.spec));
        AcceptedInStays(world.log, writer.spec, other.spec);
      } else {
        AgreeElsewhere(world.tables, writer.spec, s);
      }
    }
  }

  lemma SubmitUnclaimed(world: World, w: nat)
    requires SlotsDistinct(world) && Unclaimed(world) && Ownership(world) && Enabled(world, Submit(w))
    ensures Unclaimed(After(world, Submit(w)))
  {
    var next, writer := After(world, Submit(w)), world.writers[w];
    assert Owns(world, w);
    forall i | 0 <= i < |next.pool.slots| && !next.pool.slots[i].claimed
      ensures Agree(next.pool.slots[i], next.tables)
    {
      assert world.pool.slots[i].unit != writer.spec.unit;
      AgreeElsewhere(world.tables, writer.spec, world.pool.slots[i]);
    }
  }

  lemma SubmitLog(world: World, w: nat)
    requires Inv(world) && Enabled(world, Submit(w))
    ensures LogOk(After(world, Submit(w)))
  {
    var next, writer := After(world, Submit(w)), world.writers[w];
    AcceptedLast(world.log, writer.spec);
    forall i | 0 <= i < |next.log| ensures Stamped(next.writers, next.log[i]) {
      if i < |world.log| { assert Stamped(world.writers, world.log[i]) && next.log[i] == world.log[i]; }
    }
  }

  lemma SubmitIntents(world: World, w: nat)
    requires IntentsOpen(world) && SidecarOk(world) && Enabled(world, Submit(w))
    ensures IntentsOpen(After(world, Submit(w))) && SidecarOk(After(world, Submit(w)))
  {
    var next, writer := After(world, Submit(w)), world.writers[w];
    forall i | 0 <= i < |next.pool.slots| && next.pool.slots[i].phase.Working?
      ensures IntentOpen(next.log, next.pool.slots[i])
    {
      IntentStays(world.log, writer.spec, world.pool.slots[i]);
    }
    forall i | 0 <= i < |next.confirmed| ensures AcceptedIn(next.log, |next.log|, next.confirmed[i].spec) {
      AcceptedInStays(world.log, writer.spec, next.confirmed[i].spec);
    }
  }

  lemma HeldCompletionKey(world: World, w: nat)
    requires Ownership(world) && IntentsOpen(world) && Enabled(world, Submit(w))
    requires world.writers[w].spec.kind.ToolCompletion? && world.writers[w].spec.planned.None?
    ensures var spec := world.writers[w].spec;
            spec.effect.Some? && exists i :: OpenedBy(world.log, i, spec.unit, spec.epoch, spec.effect.value.operation)
  {
    var writer := world.writers[w];
    assert Owns(world, w);
    var s := world.pool.slots[writer.choice.slot];
    assert s.phase.Working?;
    assert IntentOpen(world.log, s);
  }

  /** Some earlier accepted dispatch opened what the completion at `j` closes. */
  ghost predicate Matched(log: seq<CommitSpec>, j: int) {
    && 0 <= j < |log| && log[j].effect.Some?
    && exists i :: i < j && OpenedBy(log, i, log[j].unit, log[j].epoch, log[j].effect.value.operation)
  }

  lemma MatchStays(log: seq<CommitSpec>, spec: CommitSpec, j: int)
    requires Matched(log, j)
    ensures Matched(log + [spec], j)
  {
    var i :| i < j && OpenedBy(log, i, log[j].unit, log[j].epoch, log[j].effect.value.operation);
    AcceptedStays(log, spec, i);
    assert (log + [spec])[j] == log[j];
    assert OpenedBy(log + [spec], i, log[j].unit, log[j].epoch, log[j].effect.value.operation);
  }

  lemma MatchNew(log: seq<CommitSpec>, spec: CommitSpec)
    requires spec.effect.Some? && exists i :: OpenedBy(log, i, spec.unit, spec.epoch, spec.effect.value.operation)
    ensures Matched(log + [spec], |log|)
  {
    var i :| OpenedBy(log, i, spec.unit, spec.epoch, spec.effect.value.operation);
    AcceptedStays(log, spec, i);
    assert (log + [spec])[|log|] == spec;
    assert OpenedBy(log + [spec], i, spec.unit, spec.epoch, spec.effect.value.operation);
  }

  lemma SubmitMatches(world: World, w: nat)
    requires Inv(world) && Enabled(world, Submit(w))
    ensures CompletionsMatched(After(world, Submit(w)).log)
  {
    var log, spec := world.log, world.writers[w].spec;
    var next := log + [spec];
    OutcomeAsPlanned(world, w);
    AcceptedLast(log, spec);
    forall j | FromAccepted(next, j) && next[j].kind.ToolCompletion? && next[j].effect.Some? ensures Matched(next, j) {
      if j == |log| {
        HeldCompletionKey(world, w);
        MatchNew(log, spec);
      } else {
        assert next[..j] == log[..j];
        assert FromAccepted(log, j) && next[j] == log[j];
        MatchStays(log, spec, j);
      }
    }
  }

  lemma SubmitOwnership(world: World, w: nat)
    requires Ownership(world) && Enabled(world, Submit(w))
    ensures Ownership(After(world, Submit(w)))
  {
    var next := After(world, Submit(w));
    assert next.pool == world.pool;
    forall v | 0 <= v < |next.writers| ensures Owns(next, v) && next.writers[v].n <= MAX_STEPS {
      assert Owns(world, v);
      assert v != w ==> next.writers[v] == world.writers[v];
    }
    forall v, x | 0 <= v < x < |next.writers| && next.writers[v].Busy? && next.writers[x].Busy?
      ensures next.writers[v].choice.slot != next.writers[x].choice.slot
    {
      assert world.writers[v].Busy? && world.writers[x].Busy?;
    }
  }

  lemma SubmitPlacement(world: World, w: nat)
    requires Inv(world) && Enabled(world, Submit(w))
    ensures Placement(After(world, Submit(w)))
  {
    var next := After(world, Submit(w));
    forall v | 0 <= v < |next.writers| ensures Placed(next, v) {
      if v == w { SubmitOwn(world, w); } else { SubmitOther(world, w, v); }
    }
  }

  lemma SubmitKeeps(world: World, w: nat)
    requires Inv(world) && Enabled(world, Submit(w))
    ensures Inv(After(world, Submit(w)))
  {
    SubmitUnclaimed(world, w);
    SubmitLog(world, w);
    SubmitIntents(world, w);
    SubmitMatches(world, w);
    StepOwned(world, Submit(w));
    SubmitOwnership(world, w);
    SubmitPlacement(world, w);
  }

  // ---------------------------------------------------------------------
  // Confirming and releasing
  // ---------------------------------------------------------------------

  lemma ConfirmSidecar(world: World, w: nat)
    requires Ownership(world) && Placement(world) && SidecarOk(world) && Enabled(world, Confirm(w))
    ensures SidecarOk(After(world, Confirm(w)))
  {
    assert Owns(world, w) && Placed(world, w);
    assert Landed(world, world.writers[w].spec, world.pool.slots[world.writers[w].choice.slot]);
  }

  lemma ConfirmOwnership(world: World, w: nat)
    requires Ownership(world) && Enabled(world, Confirm(w))
    ensures Ownership(After(world, Confirm(w)))
  {
    var next := After(world, Confirm(w));
    forall v | 0 <= v < |next.writers| ensures Owns(next, v) && next.writers[v].n <= MAX_STEPS { assert Owns(world, v); }
  }

  lemma ConfirmPlacement(world: World, w: nat)
    requires Ownership(world) && Placement(world) && Enabled(world, Confirm(w))
    ensures Placement(After(world, Confirm(w)))
  {
    var next := After(world, Confirm(w));
    forall v | 0 <= v < |next.writers| ensures Placed(next, v) {
      assert Owns(world, v) && Placed(world, v);
    }
  }

  lemma ConfirmKeeps(world: World, w: nat)
    requires Inv(world) && Enabled(world, Confirm(w))
    ensures Inv(After(world, Confirm(w)))
  {
    ConfirmSidecar(world, w);
    ConfirmOwnership(world, w);
    ConfirmPlacement(world, w);
    StepLog(world, Confirm(w));
    StepOwned(world, Confirm(w));
  }

  lemma ReleaseSlots(world: World, w: nat)
    requires SlotsDistinct(world) && Unclaimed(world) && Ownership(world) && Placement(world) && Enabled(world, Release(w))
    ensures SlotsDistinct(After(world, Release(w))) && Unclaimed(After(world, Release(w)))
  {
    var next, writer := After(world, Release(w)), world.writers[w];
    assert Owns(world, w) && Placed(world, w);
    forall i | 0 <= i < |next.pool.slots| && !next.pool.slots[i].claimed
      ensures Agree(next.pool.slots[i], next.tables)
    {
      if i != writer.choice.slot { assert Agree(world.pool.slots[i], world.tables); }
    }
  }

  lemma ReleaseIntents(world: World, w: nat)
    requires Ownership(world) && Placement(world) && IntentsOpen(world) && Enabled(world, Release(w))
    ensures IntentsOpen(After(world, Release(w)))
  {
    var next, writer := After(world, Release(w)), world.writers[w];
    var spec := writer.spec;
    assert Owns(world, w) && Placed(world, w);
    var slot := writer.choice.slot;
    forall i | 0 <= i < |next.pool.slots| && next.pool.slots[i].phase.Working?
      ensures IntentOpen(next.log, next.pool.slots[i])
    {
      if i == slot && writer.stage.Logged? && spec.kind.Dispatch? {
        var k :| 0 <= k < |world.log| && world.log[k] == spec && Accepted(world.log, k);
        assert OpenedBy(next.log, k, next.pool.slots[i].unit, next.pool.slots[i].epoch, next.pool.slots[i].openOp.value);
      } else {
        assert IntentOpen(world.log, world.pool.slots[i]);
      }
    }
  }

  lemma ReleaseOwnership(world: World, w: nat)
    requires Ownership(world) && Enabled(world, Release(w))
    ensures Ownership(After(world, Release(w)))
  {
    var next := After(world, Release(w));
    forall v | 0 <= v < |next.writers| ensures Owns(next, v) && next.writers[v].n <= MAX_STEPS { assert Owns(world, v); }
  }

  lemma ReleasePlacement(world: World, w: nat)
    requires Ownership(world) && Placement(world) && Enabled(world, Release(w))
    ensures Placement(After(world, Release(w)))
  {
    var next := After(world, Release(w));
    forall v | 0 <= v < |next.writers| ensures Placed(next, v) {
      assert Owns(world, v) && Placed(world, v);
    }
  }

  lemma ReleaseKeeps(world: World, w: nat)
    requires Inv(world) && Enabled(world, Release(w))
    ensures Inv(After(world, Release(w)))
  {
    ReleaseSlots(world, w);
    ReleaseIntents(world, w);
    ReleaseOwnership(world, w);
    ReleasePlacement(world, w);
    StepLog(world, Release(w));
    StepOwned(world, Release(w));
  }

  lemma StepKeeps(world: World, a: Action)
    requires Inv(world) && Enabled(world, a)
    ensures Inv(After(world, a))
  {
    match a
    case Claim(w, choice) => ClaimKeeps(world, w, choice);
    case Submit(w) => SubmitKeeps(world, w);
    case Confirm(w) => ConfirmKeeps(world, w);
    case Release(w) => ReleaseKeeps(world, w);
  }

  lemma {:induction false} RunKeeps(worlds: seq<World>, actions: seq<Action>, k: nat)
    requires IsRun(worlds, actions) && k < |worlds|
    ensures Inv(worlds[k])
  {
    if k == 0 {
      var n: nat, size: nat :| n <= WRITERS && worlds[0] == Start(n, size);
    } else {
      RunKeeps(worlds, actions, k - 1);
      StepKeeps(worlds[k - 1], actions[k - 1]);
    }
  }

  // ---------------------------------------------------------------------
  // Main theorems
  // ---------------------------------------------------------------------

  /** In every interleaving, every unclaimed slot agrees with the store, and no
      writer ever meets an unplanned answer. */
  lemma PoolAgreesWithStore(worlds: seq<World>, actions: seq<Action>, k: nat)
    requires IsRun(worlds, actions) && k < |worlds|
    ensures var world := worlds[k];
            && (forall i :: 0 <= i < |world.pool.slots| && !world.pool.slots[i].claimed ==> Agree(world.pool.slots[i], world.tables))
            && (forall w :: 0 <= w < |world.writers| && world.writers[w].Busy? ==> !world.writers[w].stage.Panicked?)
            && (forall w :: 0 <= w < |world.writers| && world.writers[w].Busy? && world.writers[w].stage.Holding? ==>
                              var spec, outcome := world.writers[w].spec, Decide(world.tables, world.writers[w].spec);
                              if spec.planned.None? then outcome.Applied?
                              else outcome.Rejected? && PlannedFor(spec.planned, outcome.why))
  {
    RunKeeps(worlds, actions, k);
    var world := worlds[k];
    forall w | 0 <= w < |world.writers| && world.writers[w].Busy? && world.writers[w].stage.Holding?
      ensures var spec, outcome := world.writers[w].spec, Decide(world.tables, world.writers[w].spec);
              if spec.planned.None? then outcome.Applied? else outcome.Rejected? && PlannedFor(spec.planned, outcome.why)
    {
      OutcomeAsPlanned(world, w);
    }
    forall w | 0 <= w < |world.writers| && world.writers[w].Busy? ensures !world.writers[w].stage.Panicked? {
      assert Owns(world, w) && Placed(world, w);
    }
  }

  /** A working slot and the store agree on the unit's epoch, whoever holds the slot. */
  lemma WorkingEpoch(world: World, i: nat)
    requires Unclaimed(world) && Ownership(world) && ClaimsOwned(world) && Placement(world)
    requires i < |world.pool.slots| && world.pool.slots[i].phase.Working?
    ensures var s := world.pool.slots[i]; s.unit in world.tables.units && world.tables.units[s.unit].epoch == s.epoch
  {
    var s := world.pool.slots[i];
    if s.claimed {
      assert HasOwner(world, i);
      var w :| 0 <= w < |world.writers| && world.writers[w].Busy? && world.writers[w].choice.slot == i;
      assert Owns(world, w) && Placed(world, w);
      var writer := world.writers[w];
      if writer.stage.Committed? || writer.stage.Logged? {
        MovedEpoch(s.(claimed := false), w, writer.n, writer.choice, world.tables);
        assert Moved(s, writer.spec) == Moved(s.(claimed := false), writer.spec);
      }
    } else {
      assert Agree(s, world.tables);
    }
  }

  /** No command of a working slot moves its epoch. */
  lemma MovedEpoch(s: Slot, w: nat, n: nat, c: Choice, t: Tables)
    requires n < SEQUENCES && s.phase.Working? && Agree(Moved(s, SpecFor(w, n, s, c)), t)
    ensures s.unit in t.units && t.units[s.unit].epoch == s.epoch
  {
    assert !SpecFor(w, n, s, c).kind.Dispatch?;
  }

  /** Accepted dispatches of one unit have growing epochs. */
  lemma LaterDispatchLaterEpoch(log: seq<CommitSpec>, i: int, j: int)
    requires FromAccepted(log, i) && FromAccepted(log, j) && i < j
    requires log[i].kind.Dispatch? && log[j].kind.Dispatch? && log[i].unit == log[j].unit
    ensures log[i].epoch < log[j].epoch
  {
    EarlierAccepted(log, j, i);
    AttemptStays(log[..j], i);
    HistoryBounded(log[..j]);
  }

  /** No accepted dispatch of the unit comes after the one at `d`. */
  ghost predicate LatestDispatch(log: seq<CommitSpec>, d: int, unit: nat) {
    forall j :: FromAccepted(log, j) && log[j].kind.Dispatch? && log[j].unit == unit ==> j <= d
  }

  /** In every run, a working slot always carries the key its unit's latest dispatch
      opened, and every tool completion anyone holds, planned stale or not, carries
      its slot's key; the self-keyed fallback never fires. */
  lemma CompletionUsesOpenKey(worlds: seq<World>, actions: seq<Action>, k: nat, i: nat)
    requires IsRun(worlds, actions) && k < |worlds| && i < |worlds[k].pool.slots|
    requires worlds[k].pool.slots[i].phase.Working?
    ensures var world := worlds[k]; var s := world.pool.slots[i];
            && s.openOp.Some?
            && (exists d :: OpenedBy(world.log, d, s.unit, s.epoch, s.openOp.value) && LatestDispatch(world.log, d, s.unit))
            && forall w :: 0 <= w < |world.writers| && world.writers[w].Busy? && world.writers[w].choice.slot == i
                           && world.writers[w].spec.kind.ToolCompletion? ==>
                             && world.writers[w].spec.effect.Some?
                             && world.writers[w].spec.effect.value.operation == s.openOp.value
  {
    RunKeeps(worlds, actions, k);
    var world := worlds[k];
    var s := world.pool.slots[i];
    assert IntentOpen(world.log, s);
    var d :| OpenedBy(world.log, d, s.unit, s.epoch, s.openOp.value);
    WorkingEpoch(world, i);
    HistoryBounded(world.log);
    forall j | FromAccepted(world.log, j) && world.log[j].kind.Dispatch? && world.log[j].unit == s.unit ensures j <= d {
      AttemptStays(world.log, j);
      if d < j { LaterDispatchLaterEpoch(world.log, d, j); }
    }
    assert LatestDispatch(world.log, d, s.unit);
    forall w | 0 <= w < |world.writers| && world.writers[w].Busy? && world.writers[w].choice.slot == i
               && world.writers[w].spec.kind.ToolCompletion?
      ensures world.writers[w].spec.effect.Some? && world.writers[w].spec.effect.value.operation == s.openOp.value
    {
      assert Owns(world, w);
    }
  }

  /** For every run and every crash that keeps a prefix of the commits holding
      all confirmed ones, the auditor reports nothing. */
  lemma CrashAuditsClean(worlds: seq<World>, actions: seq<Action>, k: nat, kept: nat)
    requires IsRun(worlds, actions) && k < |worlds| && kept <= |worlds[k].log|
    requires forall i :: 0 <= i < |worlds[k].confirmed| ==> AcceptedIn(worlds[k].log, kept, worlds[k].confirmed[i].spec)
    ensures AuditOk(SnapshotOf(Replay(worlds[k].log[..kept])), worlds[k].confirmed)
  {
    RunKeeps(worlds, actions, k);
    CrashKeepsWhole(worlds[k].log, kept, worlds[k].confirmed);
  }

  /** A dispatch no later tool completion answered in its unit and epoch. */
  ghost predicate Unanswered(log: seq<CommitSpec>, kept: nat, i: int) {
    && 0 <= i < kept <= |log| && FromAccepted(log, i) && log[i].kind.Dispatch?
    && forall j :: i < j < kept && FromAccepted(log, j) && log[j].kind.ToolCompletion? ==>
                     log[j].unit != log[i].unit || log[j].epoch != log[i].epoch
  }

  ghost predicate LogShaped(log: seq<CommitSpec>) {
    (forall i :: 0 <= i < |log| ==> Generated(log[i])) && CompletionsMatched(log)
  }

  lemma SameOperationSameDispatch(log: seq<CommitSpec>, i: int, j: int)
    requires LogShaped(log) && FromAccepted(log, i) && FromAccepted(log, j) && log[i].kind.Dispatch? && log[j].kind.Dispatch?
    requires log[i].effect.value.operation == log[j].effect.value.operation
             || (log[i].unit == log[j].unit && log[i].epoch == log[j].epoch)
    ensures i == j
  {
    if log[i].effect.value.operation == log[j].effect.value.operation {
      OperationInjective(log[i].unit, log[i].command, log[j].unit, log[j].command);
    }
    if i < j { AcceptedDistinct(log, i, j); } else if j < i { AcceptedDistinct(log, j, i); }
  }

  /** A completion names a dispatch's operation exactly when it acts in that
      dispatch's unit and epoch, and then it comes later. */
  lemma CompletionAnswers(log: seq<CommitSpec>, i: int, j: int)
    requires LogShaped(log) && FromAccepted(log, i) && FromAccepted(log, j)
    requires log[i].kind.Dispatch? && log[j].kind.ToolCompletion?
    ensures log[j].effect.value.operation == log[i].effect.value.operation <==>
              log[j].unit == log[i].unit && log[j].epoch == log[i].epoch
    ensures log[j].unit == log[i].unit && log[j].epoch == log[i].epoch ==> i < j
  {
    var d :| d < j && OpenedBy(log, d, log[j].unit, log[j].epoch, log[j].effect.value.operation);
    if log[j].effect.value.operation == log[i].effect.value.operation { SameOperationSameDispatch(log, i, d); }
    if log[j].unit == log[i].unit && log[j].epoch == log[i].epoch { SameOperationSameDispatch(log, i, d); }
  }

  lemma UnansweredIsOpen(log: seq<CommitSpec>, i: int)
    requires LogShaped(log) && Unanswered(log, |log|, i)
    ensures Nonterminal(SnapshotOf(Replay(log)), log[i].effect.value.id)
  {
    EffectStays(log, i);
    var effects := Replay(log).effects;
    forall other | other in effects && !Pending(effects[other].state)
      ensures effects[other].operation != log[i].effect.value.operation
    {
      EffectOrigin(log, other);
      var j :| FromAccepted(log, j) && Wrote(log[j], other, effects[other]);
      CompletionAnswers(log, i, j);
    }
  }

  /** A completion in the unit and epoch of a dispatch leaves a terminal row for its operation. */
  lemma AnsweredIsTerminal(log: seq<CommitSpec>, i: int, j: int)
    requires LogShaped(log) && FromAccepted(log, i) && FromAccepted(log, j)
    requires log[i].kind.Dispatch? && log[j].kind.ToolCompletion? && log[j].unit == log[i].unit && log[j].epoch == log[i].epoch
    ensures exists other :: other in Replay(log).effects && !Pending(Replay(log).effects[other].state)
                            && Replay(log).effects[other].operation == log[i].effect.value.operation
  {
    EffectStays(log, j);
    CompletionAnswers(log, i, j);
    assert Wrote(log[j], log[j].effect.value.id, Replay(log).effects[log[j].effect.value.id]);
  }

  lemma OpenIsUnanswered(log: seq<CommitSpec>, id: nat)
    requires LogShaped(log) && Nonterminal(SnapshotOf(Replay(log)), id)
    ensures exists i :: Unanswered(log, |log|, i) && log[i].effect.value.id == id
  {
    EffectOrigin(log, id);
    var i :| FromAccepted(log, i) && Wrote(log[i], id, Replay(log).effects[id]);
    assert log[i].kind.Dispatch?;
    forall j | i < j < |log| && FromAccepted(log, j) && log[j].kind.ToolCompletion?
      ensures log[j].unit != log[i].unit || log[j].epoch != log[i].epoch
    {
      if log[j].unit == log[i].unit && log[j].epoch == log[i].epoch { AnsweredIsTerminal(log, i, j); }
    }
    assert Unanswered(log, |log|, i);
  }

  lemma PrefixShaped(log: seq<CommitSpec>, kept: nat)
    requires LogShaped(log) && kept <= |log|
    ensures LogShaped(log[..kept])
  {
    var short := log[..kept];
    forall j | FromAccepted(short, j) && short[j].kind.ToolCompletion? && short[j].effect.Some?
      ensures exists i :: i < j && OpenedBy(short, i, short[j].unit, short[j].epoch, short[j].effect.value.operation)
    {
      EarlierAccepted(log, kept, j);
      var i :| i < j && OpenedBy(log, i, log[j].unit, log[j].epoch, log[j].effect.value.operation);
      EarlierAccepted(log, kept, i);
      assert OpenedBy(short, i, short[j].unit, short[j].epoch, short[j].effect.value.operation);
    }
  }

  /** In every crash prefix of every run, the intents the auditor reports open are
      exactly the dispatches with no later tool completion in their unit and epoch. */
  lemma OpenIntentsExact(worlds: seq<World>, actions: seq<Action>, k: nat, kept: nat, id: nat)
    requires IsRun(worlds, actions) && k < |worlds| && kept <= |worlds[k].log|
    ensures var log := worlds[k].log[..kept];
            Nonterminal(SnapshotOf(Replay(log)), id) <==>
              exists i :: Unanswered(log, kept, i) && log[i].effect.Some? && log[i].effect.value.id == id
  {
    RunKeeps(worlds, actions, k);
    PrefixShaped(worlds[k].log, kept);
    var log := worlds[k].log[..kept];
    if Nonterminal(SnapshotOf(Replay(log)), id) { OpenIsUnanswered(log, id); }
    if exists i :: Unanswered(log, kept, i) && log[i].effect.Some? && log[i].effect.value.id == id {
      var i :| Unanswered(log, kept, i) && log[i].effect.Some? && log[i].effect.value.id == id;
      UnansweredIsOpen(log, i);
    }
  }

  /** Why there can be at most 65536 writers: past that, two writers share event
      identifiers, and the second such command is refused. */
  lemma SharedIdentifierRefused(t: Tables, v: nat, w: nat, n: nat, r: Slot, s: Slot, c: Choice, d: Choice)
    requires n < SEQUENCES && v % WRITERS == w % WRITERS
    requires Decide(t, SpecFor(v, n, r, c)).Applied?
    ensures !Decide(Next(t, SpecFor(v, n, r, c)), SpecFor(w, n, s, d)).Applied?
  {
    EventIdsEqualIff(v, n, w, n);
    AppliedRows(t, SpecFor(v, n, r, c));
  }

  ghost predicate Reaches(world: World, actions: seq<Action>, end: World)
    decreases |actions|
  {
    if actions == [] then world == end
    else Enabled(world, actions[0]) && Reaches(After(world, actions[0]), actions[1..], end)
  }

  ghost predicate SomePanic(world: World) {
    exists w :: 0 <= w < |world.writers| && world.writers[w].Busy? && world.writers[w].stage.Panicked?
  }

  lemma FourSteps(world: World, a: Action, b: Action, c: Action, d: Action)
    requires Enabled(world, a) && Enabled(After(world, a), b) && Enabled(After(After(world, a), b), c)
    requires Enabled(After(After(After(world, a), b), c), d)
    ensures Reaches(world, [a, b, c, d], After(After(After(After(world, a), b), c), d))
  {
    var w1 := After(world, a);
    var w2 := After(w1, b);
    var w3 := After(w2, c);
    var w4 := After(w3, d);
    assert [d][1..] == [] && Reaches(w3, [d], w4);
    assert [c, d][1..] == [d] && Reaches(w2, [c, d], w4);
    assert [b, c, d][1..] == [c, d] && Reaches(w1, [b, c, d], w4);
    assert [a, b, c, d][1..] == [b, c, d];
  }

  const FIRST: Choice := Choice(0, 0, 0, "")

  const SECOND: Choice := Choice(1, 0, 0, "")

  function FirstSpec(): CommitSpec { SpecFor(0, 1, NewSlot(0), FIRST) }

  lemma FirstHalf(n: nat, size: nat)
    requires n > WRITERS && size >= 2
    ensures Enabled(Start(n, size), Claim(0, FIRST))
    ensures var world := After(Start(n, size), Claim(0, FIRST));
            && Enabled(world, Submit(0))
            && var next := After(world, Submit(0));
            && next.tables == Next(NO_ROWS, FirstSpec())
            && |next.writers| == n && next.writers[WRITERS] == Idle(0)
            && |next.pool.slots| == size && next.pool.slots[1] == NewSlot(1)
  {
    var world := Start(n, size);
    assert world.pool.slots[0] == NewSlot(0) && world.pool.slots[1] == NewSlot(1);
    assert world.writers[0] == Idle(0) && world.writers[WRITERS] == Idle(0);
  }

  lemma SecondHalf(world: World)
    requires world.tables == Next(NO_ROWS, FirstSpec()) && Decide(NO_ROWS, FirstSpec()).Applied?
    requires |world.writers| > WRITERS && world.writers[WRITERS] == Idle(0)
    requires |world.pool.slots| >= 2 && world.pool.slots[1] == NewSlot(1)
    ensures Enabled(world, Claim(WRITERS, SECOND))
    ensures var next := After(world, Claim(WRITERS, SECOND));
            Enabled(next, Submit(WRITERS)) && SomePanic(After(next, Submit(WRITERS)))
  {
    SharedIdentifierRefused(NO_ROWS, 0, WRITERS, 1, NewSlot(0), NewSlot(1), FIRST, SECOND);
    var next := After(world, Claim(WRITERS, SECOND));
    var end := After(next, Submit(WRITERS));
    assert end.writers[WRITERS].Busy? && end.writers[WRITERS].stage.Panicked?;
  }

  /** The limit is exact: with one writer more, four steps lead to a panic. */
  lemma TooManyWritersPanic(n: nat, size: nat)
    requires n > WRITERS && size >= 2
    ensures exists actions, end :: Reaches(Start(n, size), actions, end) && SomePanic(end)
  {
    FirstHalf(n, size);
    SecondHalf(After(After(Start(n, size), Claim(0, FIRST)), Submit(0)));
    FourSteps(Start(n, size), Claim(0, FIRST), Submit(0), Claim(WRITERS, SECOND), Submit(WRITERS));
  }
}
