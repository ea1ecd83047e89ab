/** The command generator: a pool of unit slots that writers claim and release,
    and each writer's stream of commands with packed identifiers. */
module Workloads {
  import opened Common
  import opened Decimals
  import opened FunnelStore

  // ---------------------------------------------------------------------
  // Packed identifiers
  // ---------------------------------------------------------------------

  const WORD: nat := 0x1_0000_0000_0000_0000
  const SEQUENCES: nat := 0x100_0000_0000
  const WRITERS: nat := 0x1_0000

  /** The writer above bit 40, its sequence number below; bits past 64 are lost. */
  function CommandId(writer: nat, n: nat): nat
    requires n < SEQUENCES
  {
    (writer * SEQUENCES) % WORD + n
  }

  function EventId(command: nat): nat { (command * 256) % WORD + 1 }

  function IntentId(command: nat): nat { (command * 256) % WORD + 2 }

  /** Only sixteen bits of the writer survive in event and intent identifiers. */
  lemma PackedId(writer: nat, n: nat)
    requires n < SEQUENCES
    ensures EventId(CommandId(writer, n)) == (writer % WRITERS) * 0x1_0000_0000_0000 + n * 256 + 1
    ensures IntentId(CommandId(writer, n)) == EventId(CommandId(writer, n)) + 1
  {
    var high, low := writer / 0x100_0000, writer % 0x100_0000;
    assert writer * SEQUENCES == high * WORD + low * SEQUENCES;
    var top, kept := low / WRITERS, low % WRITERS;
    assert (low * SEQUENCES + n) * 256 == top * WORD + (kept * 0x1_0000_0000_0000 + n * 256);
    assert writer == high * 0x100_0000 + top * WRITERS + kept;
    assert writer % WRITERS == kept;
  }

  /** Two commands share an event identifier exactly when they share a sequence
      number and their writers agree modulo 65536. */
  lemma EventIdsEqualIff(v: nat, m: nat, w: nat, n: nat)
    requires m < SEQUENCES && n < SEQUENCES
    ensures EventId(CommandId(v, m)) == EventId(CommandId(w, n)) <==> m == n && v % WRITERS == w % WRITERS
    ensures IntentId(CommandId(v, m)) == IntentId(CommandId(w, n)) <==> m == n && v % WRITERS == w % WRITERS
  {
    PackedId(v, m);
    PackedId(w, n);
  }

  // ---------------------------------------------------------------------
  // The pool
  // ---------------------------------------------------------------------

  datatype Slot = Slot(
    unit: nat, phase: Phase, version: nat, epoch: nat, claimed: bool, holder: nat, openOp: Option<string>)

  datatype Pool = Pool(nextUnit: nat, slots: seq<Slot>)

  function NewSlot(unit: nat): Slot { Slot(unit, Ready, 0, 0, false, 0, None) }

  function NewPool(size: nat): Pool { Pool(size, seq(size, i requires 0 <= i => NewSlot(i))) }

  function Moved(s: Slot, spec: CommitSpec): Slot {
    var s := s.(phase := spec.phase, version := s.version + 1, claimed := false);
    match spec.kind
    case Dispatch =>
      s.(epoch := spec.epoch, holder := spec.holder,
         openOp := if spec.effect.Some? then Some(spec.effect.value.operation) else None)
    case ToolCompletion => s.(openOp := None)
    case _ => s
  }

  /** A released slot: a refused command leaves it as it was, a retiring one
      hands it to a unit never seen before, and any other moves its unit on. */
  function Released(p: Pool, slot: nat, spec: CommitSpec, advanced: bool): Pool
    requires slot < |p.slots|
  {
    if !advanced then p.(slots := p.slots[slot := p.slots[slot].(claimed := false)])
    else if spec.phase.Terminal? then Pool(p.nextUnit + 1, p.slots[slot := NewSlot(p.nextUnit + 1)])
    else p.(slots := p.slots[slot := Moved(p.slots[slot], spec)])
  }

  class UnitPool {
    var nextUnit: nat
    var slots: seq<Slot>

    ghost function Contents(): Pool
      reads this
    {
      Pool(nextUnit, slots)
    }

    constructor (size: nat)
      ensures Contents() == NewPool(size)
    {
      nextUnit := size;
      slots := seq(size, i requires 0 <= i => NewSlot(i));
    }

    method Release(slot: nat, spec: CommitSpec, advanced: bool)
      requires slot < |slots| && slots[slot].claimed
      modifies this
      ensures Contents() == Released(old(Contents()), slot, spec, advanced)
      ensures forall i :: 0 <= i < |slots| && i != slot ==> slots[i] == old(slots[i])
    {
      if advanced {
        if spec.phase.Terminal? {
          nextUnit := nextUnit + 1;
          slots := slots[slot := NewSlot(nextUnit)];
          return;
        }
        var s := Advance(slots[slot], spec);
        slots := slots[slot := s];
      }
      slots := slots[slot := slots[slot].(claimed := false)];
    }
  }

  /** Fold an accepted command into its slot, which stays claimed for now. */
  method Advance(s: Slot, spec: CommitSpec) returns (s': Slot)
    ensures s'.(claimed := false) == Moved(s, spec)
  {
    s' := s.(phase := spec.phase, version := s.version + 1);
    match spec.kind {
      case Dispatch =>
        s' := s'.(epoch := spec.epoch, holder := spec.holder);
        s' := s'.(openOp := if spec.effect.Some? then Some(spec.effect.value.operation) else None);
      case ToolCompletion => s' := s'.(openOp := None);
      case _ =>
    }
  }

  // ---------------------------------------------------------------------
  // The next command of a writer
  // ---------------------------------------------------------------------

  /** What the seeded generator decides: a slot, two rolls, and payload filler. */
  datatype Choice = Choice(slot: nat, roll: nat, injection: nat, filler: string)

  function KindFor(phase: Phase, roll: nat): Kind {
    match phase
    case Ready => Dispatch
    case Working =>
      if roll <= 3 then LeaseRenewal else if roll <= 6 then ProgressRollup else if roll <= 8 then ToolCompletion else Cancellation
    case _ => if roll <= 1 then ReviewEvidence else OwnerDecision
  }

  function PhaseAfter(kind: Kind): Phase {
    match kind
    case Dispatch => Working
    case LeaseRenewal => Working
    case ProgressRollup => Working
    case ToolCompletion => Reviewing
    case ReviewEvidence => Reviewing
    case Cancellation => Ready
    case OwnerDecision => Terminal
  }

  predicate Injectable(kind: Kind) { kind.LeaseRenewal? || kind.ProgressRollup? || kind.ToolCompletion? }

  function Injected(kind: Kind, epoch: nat, injection: nat): Option<Planned> {
    if Injectable(kind) && injection == 0 && epoch >= 2 then Some(PlannedStaleLease)
    else if Injectable(kind) && injection == 1 then Some(PlannedStaleHolder)
    else None
  }

  const HOLDER_MASK: nat := 0x5741_1E00

  /** Bitwise exclusive or. */
  function Xor(a: nat, b: nat): nat {
    if a == 0 then b else if b == 0 then a
    else 2 * Xor(a / 2, b / 2) + if a % 2 == b % 2 then 0 else 1
  }

  lemma {:induction false} XorDiffers(a: nat, mask: nat)
    requires mask != 0
    ensures Xor(a, mask) != a
  {
    if a != 0 && mask % 2 == 0 { XorDiffers(a / 2, mask / 2); }
  }

  function EpochFor(kind: Kind, s: Slot, planned: Option<Planned>): nat {
    if planned == Some(PlannedStaleLease) && s.epoch >= 1 then s.epoch - 1
    else if kind.Dispatch? then s.epoch + 1
    else s.epoch
  }

  function HolderFor(writer: nat, kind: Kind, s: Slot, planned: Option<Planned>): nat {
    if planned == Some(PlannedStaleHolder) then Xor(s.holder, HOLDER_MASK)
    else if kind.Dispatch? then writer
    else s.holder
  }

  function EffectFor(kind: Kind, s: Slot, command: nat): Option<EffectIntent> {
    match kind
    case Dispatch => Some(EffectIntent(IntentId(command), Operation(s.unit, command), Prepared))
    case ToolCompletion =>
      Some(EffectIntent(IntentId(command), if s.openOp.Some? then s.openOp.value else Operation(s.unit, command), Succeeded))
    case _ => None
  }

  /** Writer `writer`'s `n`-th command on slot `s`. */
  function SpecFor(writer: nat, n: nat, s: Slot, c: Choice): CommitSpec
    requires n < SEQUENCES
  {
    var kind := KindFor(s.phase, c.roll);
    var planned := Injected(kind, s.epoch, c.injection);
    var command := CommandId(writer, n);
    var payload := Payload(kind, s.unit, writer, n, c.filler);
    CommitSpec(
      writer, n, kind, c.slot, s.unit, s.version,
      EpochFor(kind, s, planned), HolderFor(writer, kind, s, planned), PhaseAfter(kind), planned, command, Digest(payload),
      SemanticEvent(EventId(command), s.unit, s.version + 1, 0, kind, payload, Some(command)),
      EffectFor(kind, s, command), if kind.ReviewEvidence? then Some(Digest(payload)) else None)
  }

  predicate Free(s: Slot) { !s.claimed && !s.phase.Terminal? }

  /** The free slots, in order. */
  function FreeList(slots: seq<Slot>): (free: seq<nat>)
    ensures forall k :: 0 <= k < |slots| && Free(slots[k]) ==> free != []
  {
    if slots == [] then []
    else
      var last := |slots| - 1;
      var before := FreeList(slots[..last]);
      if Free(slots[last]) then before + [last] else assert forall k :: 0 <= k < last ==> slots[..last][k] == slots[k]; before
  }

  class WriterStream {
    const writer: nat
    var step: nat
    var sequence: nat

    constructor (writer: nat)
      ensures this.writer == writer && step == 0 && sequence == 0
    {
      this.writer := writer;
      step, sequence := 0, 0;
    }

    /** Claim the `pick`-th free slot and produce its next command; with no free
        slot, nothing is consumed. */
    method NextSpec(pool: UnitPool, pick: nat, roll: nat, injection: nat, filler: string) returns (spec: Option<CommitSpec>)
      requires step == sequence && step + 1 < SEQUENCES
      modifies this, pool
      ensures step == sequence && pool.nextUnit == old(pool.nextUnit)
      ensures spec.None? <==> forall i :: 0 <= i < |old(pool.slots)| ==> !Free(old(pool.slots)[i])
      ensures spec.None? ==> step == old(step) && pool.slots == old(pool.slots)
      ensures spec.Some? ==>
                && step == old(step) + 1
                && spec.value.slot < |old(pool.slots)| && Free(old(pool.slots)[spec.value.slot])
                && spec.value.slot == FreeList(old(pool.slots))[pick % |FreeList(old(pool.slots))|]
                && pool.slots == old(pool.slots)[spec.value.slot := old(pool.slots)[spec.value.slot].(claimed := true)]
                && spec.value == SpecFor(writer, step, old(pool.slots)[spec.value.slot], Choice(spec.value.slot, roll, injection, filler))
    {
      var free := FreeSlots(pool.slots);
      if |free| == 0 { return None; }
      var slot := free[pick % |free|];
      var s := pool.slots[slot];
      pool.slots := pool.slots[slot := s.(claimed := true)];
      step := step + 1;
      sequence := sequence + 1;
      var built := Build(writer, step, sequence, slot, s, roll, injection, filler);
      spec := Some(built);
    }
  }

  method FreeSlots(slots: seq<Slot>) returns (free: seq<nat>)
    ensures free == FreeList(slots)
    ensures forall k :: 0 <= k < |free| ==> free[k] < |slots| && Free(slots[free[k]])
    ensures forall k :: 0 <= k < |slots| && Free(slots[k]) ==> k in free
  {
    free := [];
    var i := 0;
    while i < |slots|
      invariant 0 <= i <= |slots|
      invariant forall k :: 0 <= k < |free| ==> free[k] < i && Free(slots[free[k]])
      invariant forall k :: 0 <= k < i && Free(slots[k]) ==> k in free
      invariant free == FreeList(slots[..i])
    {
      assert slots[..i + 1][..i] == slots[..i];
      if !slots[i].claimed && slots[i].phase != Terminal { free := free + [i]; }
      i := i + 1;
    }
    assert slots[..i] == slots;
  }

  /** The epoch and holder a command claims, with the seeded stale injections. */
  method Claims(writer: nat, kind: Kind, s: Slot, injection: nat) returns (epoch: nat, holder: nat, planned: Option<Planned>)
    ensures planned == Injected(kind, s.epoch, injection)
    ensures epoch == EpochFor(kind, s, planned) && holder == HolderFor(writer, kind, s, planned)
  {
    epoch := if kind.Dispatch? then s.epoch + 1 else s.epoch;
    holder := if kind.Dispatch? then writer else s.holder;
    planned := None;
    if kind.LeaseRenewal? || kind.ProgressRollup? || kind.ToolCompletion? {
      if injection == 0 && s.epoch >= 2 {
        epoch, planned := s.epoch - 1, Some(PlannedStaleLease);
      } else if injection == 1 {
        holder, planned := Xor(s.holder, HOLDER_MASK), Some(PlannedStaleHolder);
      }
    }
  }

  method Build(writer: nat, step: nat, sequence: nat, slot: nat, s: Slot, roll: nat, injection: nat, filler: string)
    returns (spec: CommitSpec)
    requires step == sequence < SEQUENCES
    ensures spec == SpecFor(writer, step, s, Choice(slot, roll, injection, filler))
  {
    var kind := KindFor(s.phase, roll);
    var epoch, holder, planned := Claims(writer, kind, s, injection);
    var command := CommandId(writer, sequence);
    var payload := Payload(kind, s.unit, writer, step, filler);
    var event := SemanticEvent(EventId(command), s.unit, s.version + 1, 0, kind, payload, Some(command));
    var effect := EffectFor(kind, s, command);
    var artifact := if kind.ReviewEvidence? then Some(Digest(payload)) else None;
    spec := CommitSpec(
      writer, step, kind, slot, s.unit, s.version, epoch, holder, PhaseAfter(kind), planned, command,
      Digest(payload), event, effect, artifact);
  }
}
