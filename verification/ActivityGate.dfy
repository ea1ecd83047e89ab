/** The hierarchical admission fence of the live composition kernel.

    Each gate is one packed machine word (revoked bit plus count of admitted
    operations), a one-shot drained latch, and an immutable parent link.  Every
    atomic memory operation is one step of the transition system below, and any
    number of threads may interleave; memory is sequentially consistent. */
module ActivityGates {
  import opened Common

  // ---------------------------------------------------------------------
  // The packed word
  // ---------------------------------------------------------------------

  const REVOKED: nat := 0x8000_0000_0000_0000
  const ACTIVE_CALLS: nat := REVOKED - 1
  const WORD_LIMIT: nat := 2 * REVOKED

  /** `word & REVOKED != 0`: the top bit of a 64-bit word. */
  predicate IsRevoked(word: nat) { word >= REVOKED }

  /** `word & ACTIVE_CALLS`: the bits below it. */
  function Active(word: nat): nat { if word >= REVOKED then word - REVOKED else word }

  /** The word left by `fetch_or(REVOKED)`. */
  function OrRevoked(word: nat): nat { if IsRevoked(word) then word else word + REVOKED }

  /** The word left by the wrapping `fetch_sub(1)`. */
  function MinusOne(word: nat): nat { if word == 0 then WORD_LIMIT - 1 else word - 1 }

  /** These are the bit operations: the top bit, the rest, and subtraction modulo the word. */
  lemma WordBits(word: nat)
    requires word < WORD_LIMIT
    ensures IsRevoked(word) <==> word / REVOKED % 2 == 1
    ensures Active(word) == word % REVOKED
    ensures MinusOne(word) == (word + WORD_LIMIT - 1) % WORD_LIMIT
  {
    if word > 0 { assert word + WORD_LIMIT - 1 == WORD_LIMIT + (word - 1); }
  }

  /** Neither successful operation on the word carries into, or borrows from, the revoked bit. */
  lemma WordOperations(word: nat)
    requires word < WORD_LIMIT
    ensures OrRevoked(word) < WORD_LIMIT
    ensures IsRevoked(OrRevoked(word)) && Active(OrRevoked(word)) == Active(word)
    ensures Active(word) > 0 ==>
              MinusOne(word) < WORD_LIMIT && Active(MinusOne(word)) == Active(word) - 1
              && IsRevoked(MinusOne(word)) == IsRevoked(word)
    ensures Active(word) < ACTIVE_CALLS ==>
              word + 1 < WORD_LIMIT && Active(word + 1) == Active(word) + 1
              && IsRevoked(word + 1) == IsRevoked(word)
  {
  }

  // ---------------------------------------------------------------------
  // Gates, threads and states
  // ---------------------------------------------------------------------

  /** How far the effect scope owning a gate has been closed.  Cleanup callbacks
      of a scope run only while its phase is `Cleaning`. */
  datatype Phase = Open | Draining | Cleaning | Closed

  datatype Gate = Gate(parent: Option<nat>, word: nat, drained: bool, phase: Phase)

  /** An operation that borrows activation state: a service call through a
      handle, or a callback entered through a scope activity token. */
  datatype Operation =
    | ServiceCall(provider: nat, consumer: nat)
    | Activity(gate: nat)

  datatype Pc =
    | Idle
    | Admitting(op: Operation)                 // next: load the next gate's word
    | Swapping(op: Operation, observed: nat)   // next: compare-exchange that word
    | Running(op: Operation)                   // the callback is running
    | Releasing                                // next: drop the first guard left
    | Revoking(gate: nat)                      // next: fetch_or the revoked bit
    | Signalling(gate: nat)                    // next: set the drained latch

  datatype Thread = Thread(pc: Pc, guards: seq<nat>)

  datatype State = State(gates: seq<Gate>, threads: seq<Thread>)

  const INITIAL := State([], [])

  predicate WellParented(gates: seq<Gate>) {
    forall g :: 0 <= g < |gates| && gates[g].parent.Some? ==> gates[g].parent.value < g
  }

  /** Gates from the root down to `g`. */
  function Lineage(gates: seq<Gate>, g: nat): seq<nat>
    requires WellParented(gates) && g < |gates|
    decreases g
  {
    (if gates[g].parent.None? then [] else Lineage(gates, gates[g].parent.value)) + [g]
  }

  function Reversed(s: seq<nat>): seq<nat> { if s == [] then [] else Reversed(s[1..]) + [s[0]] }

  /** The part of a lineage not yet walked. */
  function Above(gates: seq<Gate>, current: Option<nat>): seq<nat>
    requires WellParented(gates) && (current.Some? ==> current.value < |gates|)
  {
    if current.Some? then Lineage(gates, current.value) else []
  }

  /** The parent walk of `admit`, then its in-place reversal: root first. */
  method CollectLineage(gates: seq<Gate>, leaf: nat) returns (lineage: seq<nat>)
    requires WellParented(gates) && leaf < |gates|
    ensures lineage == Lineage(gates, leaf)
  {
    var upward: seq<nat> := [];
    var current: Option<nat> := Some(leaf);
    while current.Some?
      invariant current.Some? ==> current.value < |gates|
      invariant Lineage(gates, leaf) == Above(gates, current) + Reversed(upward)
      decreases if current.Some? then current.value + 1 else 0
    {
      var gate := current.value;
      ReversedAppend(upward, gate);
      current := gates[gate].parent;
      upward := upward + [gate];
    }
    lineage := Reverse(upward);
  }

  method Reverse(s: seq<nat>) returns (r: seq<nat>)
    ensures r == Reversed(s)
  {
    r := [];
    var i := 0;
    while i < |s|
      invariant 0 <= i <= |s|
      invariant Reversed(s) == Reversed(s[i..]) + r
    {
      assert s[i..][1..] == s[i + 1..];
      r := [s[i]] + r;
      i := i + 1;
    }
  }

  lemma {:induction false} ReversedAppend(s: seq<nat>, x: nat)
    ensures Reversed(s + [x]) == [x] + Reversed(s)
  {
    if s != [] {
      assert (s + [x])[1..] == s[1..] + [x];
      ReversedAppend(s[1..], x);
    }
  }

  /** The gate is open exactly when neither it nor any ancestor is revoked. */
  method IsOpen(gates: seq<Gate>, leaf: nat) returns (open: bool)
    requires WellParented(gates) && leaf < |gates|
    ensures open <==> forall g :: g in Lineage(gates, leaf) ==> g < |gates| && !IsRevoked(gates[g].word)
  {
    LineageBelow(gates, leaf);
    var current: Option<nat> := Some(leaf);
    ghost var below: seq<nat> := [];
    while current.Some?
      invariant current.Some? ==> current.value < |gates|
      invariant AllBelow(below, |gates|)
      invariant forall g :: g in below ==> !IsRevoked(gates[g].word)
      invariant Lineage(gates, leaf) == Above(gates, current) + below
      decreases if current.Some? then current.value + 1 else 0
    {
      var gate := current.value;
      if IsRevoked(gates[gate].word) {
        assert gate in Lineage(gates, gate);
        return false;
      }
      current := gates[gate].parent;
      below := [gate] + below;
    }
    open := true;
  }

  predicate OpInRange(gates: seq<Gate>, op: Operation) {
    match op
    case ServiceCall(p, c) => p < |gates| && c < |gates|
    case Activity(g) => g < |gates|
  }

  /** Every gate an operation must hold, in admission order: the provider's
      lineage, then the consumer's, each root first. */
  function GatesOf(gates: seq<Gate>, op: Operation): seq<nat>
    requires WellParented(gates) && OpInRange(gates, op)
  {
    match op
    case ServiceCall(p, c) => Lineage(gates, p) + Lineage(gates, c)
    case Activity(g) => Lineage(gates, g)
  }

  /** Guards are dropped consumer lineage first, each lineage root first,
      whether the operation finished or was refused half way. */
  function DropOrder(gates: seq<Gate>, op: Operation, guards: seq<nat>): seq<nat>
    requires WellParented(gates) && OpInRange(gates, op)
  {
    match op
    case ServiceCall(p, _) =>
      var k := |Lineage(gates, p)|;
      if |guards| <= k then guards else guards[k..] + guards[..k]
    case Activity(_) => guards
  }

  // ---------------------------------------------------------------------
  // Steps
  // ---------------------------------------------------------------------

  datatype Step =
    | NewRoot
    | NewChild(parent: nat)
    | Spawn
    | Begin(t: nat, op: Operation)
    | Load(t: nat)
    | CompareExchange(t: nat, spurious: bool)
    | Refuse(t: nat)
    | Enter(t: nat)
    | Finish(t: nat)
    | DropGuard(t: nat)
    | BeginClose(t: nat, g: nat)
    | DropScope(t: nat, g: nat)
    | FetchOr(t: nat)
    | Signal(t: nat)
    | Done(t: nat)
    | ObserveDrained(g: nat)
    | FinishClose(g: nat)

  predicate InAdmission(s: State, t: nat) {
    && t < |s.threads| && WellParented(s.gates)
    && (s.threads[t].pc.Admitting? || s.threads[t].pc.Swapping?)
    && OpInRange(s.gates, s.threads[t].pc.op)
  }

  predicate HasNext(s: State, t: nat) requires InAdmission(s, t) {
    var want := GatesOf(s.gates, s.threads[t].pc.op);
    |s.threads[t].guards| < |want| && want[|s.threads[t].guards|] < |s.gates|
  }

  function NextGate(s: State, t: nat): (g: nat)
    requires InAdmission(s, t) && HasNext(s, t)
    ensures g < |s.gates|
  {
    GatesOf(s.gates, s.threads[t].pc.op)[|s.threads[t].guards|]
  }

  predicate Enabled(s: State, step: Step) {
    match step
    case NewRoot => true
    case NewChild(p) => p < |s.gates| && s.gates[p].phase.Open?
    case Spawn => true
    case Begin(t, op) =>
      t < |s.threads| && s.threads[t].pc.Idle? && s.threads[t].guards == [] && OpInRange(s.gates, op)
    case Load(t) => InAdmission(s, t) && s.threads[t].pc.Admitting? && HasNext(s, t)
    case CompareExchange(t, _) => InAdmission(s, t) && s.threads[t].pc.Swapping? && HasNext(s, t)
    case Refuse(t) =>
      InAdmission(s, t) && s.threads[t].pc.Admitting? && (s.threads[t].guards == [] || !HasNext(s, t))
    case Enter(t) => InAdmission(s, t) && s.threads[t].pc.Admitting? && !HasNext(s, t)
    case Finish(t) =>
      t < |s.threads| && s.threads[t].pc.Running? && WellParented(s.gates) && OpInRange(s.gates, s.threads[t].pc.op)
    case DropGuard(t) =>
      t < |s.threads| && s.threads[t].pc.Releasing? && s.threads[t].guards != [] && s.threads[t].guards[0] < |s.gates|
    case BeginClose(t, g) =>
      t < |s.threads| && s.threads[t].pc.Idle? && g < |s.gates| && s.gates[g].phase.Open?
    case DropScope(t, g) => t < |s.threads| && s.threads[t].pc.Idle? && g < |s.gates|
    case FetchOr(t) => t < |s.threads| && s.threads[t].pc.Revoking? && s.threads[t].pc.gate < |s.gates|
    case Signal(t) => t < |s.threads| && s.threads[t].pc.Signalling? && s.threads[t].pc.gate < |s.gates|
    case Done(t) => t < |s.threads| && s.threads[t].pc.Releasing? && s.threads[t].guards == []
    case ObserveDrained(g) => g < |s.gates| && s.gates[g].phase.Draining? && s.gates[g].drained
    case FinishClose(g) => g < |s.gates| && s.gates[g].phase.Cleaning?
  }

  function WithThread(s: State, t: nat, pc: Pc, guards: seq<nat>): State
    requires t < |s.threads|
  {
    s.(threads := s.threads[t := Thread(pc, guards)])
  }

  function WithWord(s: State, g: nat, word: nat): State
    requires g < |s.gates|
  {
    s.(gates := s.gates[g := s.gates[g].(word := word)])
  }

  function WithPhase(s: State, g: nat, phase: Phase): State
    requires g < |s.gates|
  {
    s.(gates := s.gates[g := s.gates[g].(phase := phase)])
  }

  /** The head of the admission retry loop: what a thread does with the word it just saw. */
  function Judge(s: State, t: nat, word: nat): State
    requires InAdmission(s, t)
  {
    var thread := s.threads[t];
    if IsRevoked(word) || Active(word) == ACTIVE_CALLS then
      WithThread(s, t, Releasing, DropOrder(s.gates, thread.pc.op, thread.guards))
    else
      WithThread(s, t, Swapping(thread.pc.op, word), thread.guards)
  }

  function Do(s: State, step: Step): State
    requires Enabled(s, step)
  {
    match step
    case NewRoot => s.(gates := s.gates + [Gate(None, 0, false, Open)])
    case NewChild(p) => s.(gates := s.gates + [Gate(Some(p), 0, false, Open)])
    case Spawn => s.(threads := s.threads + [Thread(Idle, [])])
    case Begin(t, op) => WithThread(s, t, Admitting(op), [])
    case Load(t) => Judge(s, t, s.gates[NextGate(s, t)].word)
    case CompareExchange(t, spurious) =>
      var g := NextGate(s, t);
      var word := s.gates[g].word;
      var thread := s.threads[t];
      if word == thread.pc.observed && !spurious then
        WithThread(WithWord(s, g, word + 1), t, Admitting(thread.pc.op), thread.guards + [g])
      else
        Judge(s, t, word)
    case Refuse(t) =>
      WithThread(s, t, Releasing, DropOrder(s.gates, s.threads[t].pc.op, s.threads[t].guards))
    case Enter(t) => WithThread(s, t, Running(s.threads[t].pc.op), s.threads[t].guards)
    case Finish(t) =>
      WithThread(s, t, Releasing, DropOrder(s.gates, s.threads[t].pc.op, s.threads[t].guards))
    case DropGuard(t) =>
      var guards := s.threads[t].guards;
      var word := s.gates[guards[0]].word;
      var pc := if IsRevoked(word) && Active(word) == 1 then Signalling(guards[0]) else Releasing;
      WithThread(WithWord(s, guards[0], MinusOne(word)), t, pc, guards[1..])
    case BeginClose(t, g) => WithThread(WithPhase(s, g, Draining), t, Revoking(g), s.threads[t].guards)
    case DropScope(t, g) => WithThread(s, t, Revoking(g), s.threads[t].guards)
    case FetchOr(t) =>
      var g := s.threads[t].pc.gate;
      var word := s.gates[g].word;
      WithThread(WithWord(s, g, OrRevoked(word)), t,
                 if Active(word) == 0 then Signalling(g) else Releasing, s.threads[t].guards)
    case Signal(t) =>
      var g := s.threads[t].pc.gate;
      WithThread(s.(gates := s.gates[g := s.gates[g].(drained := true)]), t, Releasing, s.threads[t].guards)
    case Done(t) => WithThread(s, t, Idle, [])
    case ObserveDrained(g) => WithPhase(s, g, Cleaning)
    case FinishClose(g) => WithPhase(s, g, Closed)
  }

  /** Some interleaving leads from `s` through `steps` to `s'`. */
  ghost predicate Leads(s: State, steps: seq<Step>, s': State)
    decreases |steps|
  {
    if steps == [] then s' == s
    else Enabled(s, steps[0]) && Leads(Do(s, steps[0]), steps[1..], s')
  }

  // ---------------------------------------------------------------------
  // The invariant
  // ---------------------------------------------------------------------

  function Held(thread: Thread, g: nat): nat { multiset(thread.guards)[g] }

  /** Live guards on gate `g` across all threads. */
  function LiveGuards(threads: seq<Thread>, g: nat): nat {
    if threads == [] then 0 else Held(threads[0], g) + LiveGuards(threads[1..], g)
  }

  predicate AllBelow(guards: seq<nat>, limit: nat) {
    forall k :: 0 <= k < |guards| ==> guards[k] < limit
  }

  /** A thread's program counter agrees with the guards it holds. */
  predicate ThreadOk(gates: seq<Gate>, thread: Thread)
    requires WellParented(gates)
  {
    && AllBelow(thread.guards, |gates|)
    && match thread.pc
       case Idle => thread.guards == []
       case Admitting(op) => OpInRange(gates, op) && thread.guards <= GatesOf(gates, op)
       case Swapping(op, observed) =>
         && OpInRange(gates, op) && thread.guards < GatesOf(gates, op)
         && !IsRevoked(observed) && Active(observed) < ACTIVE_CALLS
       case Running(op) => OpInRange(gates, op) && thread.guards == GatesOf(gates, op)
       case Releasing => true
       case Revoking(g) => thread.guards == [] && g < |gates|
       case Signalling(g) => g < |gates| && IsRevoked(gates[g].word) && Active(gates[g].word) == 0
  }

  /** Some thread is about to set gate `g`'s latch. */
  ghost predicate SignalOwed(s: State, g: nat) {
    exists t :: 0 <= t < |s.threads| && s.threads[t].pc == Signalling(g)
  }

  ghost predicate RevokeOwed(s: State, g: nat) {
    exists t :: 0 <= t < |s.threads| && s.threads[t].pc == Revoking(g)
  }

  ghost predicate GateOk(s: State, g: nat)
    requires g < |s.gates|
  {
    var gate := s.gates[g];
    && gate.word < WORD_LIMIT
    && Active(gate.word) == LiveGuards(s.threads, g)
    && (gate.drained ==> IsRevoked(gate.word) && Active(gate.word) == 0)
    && (IsRevoked(gate.word) && Active(gate.word) == 0 ==> gate.drained || SignalOwed(s, g))
    && (gate.phase.Cleaning? || gate.phase.Closed? ==> gate.drained)
    && (gate.phase.Draining? ==> IsRevoked(gate.word) || RevokeOwed(s, g))
  }

  ghost predicate Inv(s: State) {
    && WellParented(s.gates)
    && (forall g :: 0 <= g < |s.gates| ==> GateOk(s, g))
    && (forall t :: 0 <= t < |s.threads| ==> ThreadOk(s.gates, s.threads[t]))
  }

  // ---------------------------------------------------------------------
  // Counting guards
  // ---------------------------------------------------------------------

  lemma {:induction false} LiveGuardsUpdate(threads: seq<Thread>, t: nat, x: Thread, g: nat)
    requires t < |threads|
    ensures LiveGuards(threads[t := x], g) + Held(threads[t], g) == LiveGuards(threads, g) + Held(x, g)
  {
    if t > 0 {
      LiveGuardsUpdate(threads[1..], t - 1, x, g);
      assert threads[t := x][1..] == threads[1..][t - 1 := x];
    } else {
      assert threads[t := x][1..] == threads[1..];
    }
  }

  lemma {:induction false} LiveGuardsAtLeast(threads: seq<Thread>, t: nat, g: nat)
    requires t < |threads|
    ensures Held(threads[t], g) <= LiveGuards(threads, g)
  {
    if t > 0 { LiveGuardsAtLeast(threads[1..], t - 1, g); }
  }

  lemma {:induction false} LiveGuardsSpawn(threads: seq<Thread>, g: nat)
    ensures LiveGuards(threads + [Thread(Idle, [])], g) == LiveGuards(threads, g)
  {
    if threads != [] {
      LiveGuardsSpawn(threads[1..], g);
      assert (threads + [Thread(Idle, [])])[1..] == threads[1..] + [Thread(Idle, [])];
    }
  }

  lemma {:induction false} NoGuardsBeyond(threads: seq<Thread>, limit: nat)
    requires forall t :: 0 <= t < |threads| ==> AllBelow(threads[t].guards, limit)
    ensures LiveGuards(threads, limit) == 0
  {
    if threads != [] {
      assert limit !in threads[0].guards;
      NoGuardsBeyond(threads[1..], limit);
    }
  }

  // ---------------------------------------------------------------------
  // Lineages
  // ---------------------------------------------------------------------

  /** Parent links never change, so lineages survive every other change to the gates. */
  predicate SameParents(gates: seq<Gate>, gates': seq<Gate>) {
    |gates| <= |gates'| && forall g :: 0 <= g < |gates| ==> gates'[g].parent == gates[g].parent
  }

  lemma {:induction false} LineageStable(gates: seq<Gate>, gates': seq<Gate>, g: nat)
    requires WellParented(gates) && WellParented(gates') && SameParents(gates, gates') && g < |gates|
    ensures Lineage(gates', g) == Lineage(gates, g)
    decreases g
  {
    if gates[g].parent.Some? { LineageStable(gates, gates', gates[g].parent.value); }
  }

  lemma {:induction false} LineageBelow(gates: seq<Gate>, g: nat)
    requires WellParented(gates) && g < |gates|
    ensures AllBelow(Lineage(gates, g), |gates|)
    decreases g
  {
    if gates[g].parent.Some? { LineageBelow(gates, gates[g].parent.value); }
  }

  lemma GatesOfStable(gates: seq<Gate>, gates': seq<Gate>, op: Operation)
    requires WellParented(gates) && WellParented(gates') && SameParents(gates, gates') && OpInRange(gates, op)
    ensures GatesOf(gates', op) == GatesOf(gates, op)
  {
    match op
    case ServiceCall(p, c) => LineageStable(gates, gates', p); LineageStable(gates, gates', c);
    case Activity(g) => LineageStable(gates, gates', g);
  }

  lemma GatesOfBelow(gates: seq<Gate>, op: Operation)
    requires WellParented(gates) && OpInRange(gates, op)
    ensures AllBelow(GatesOf(gates, op), |gates|)
  {
    match op
    case ServiceCall(p, c) => LineageBelow(gates, p); LineageBelow(gates, c);
    case Activity(g) => LineageBelow(gates, g);
  }

  lemma DropOrderPermutes(gates: seq<Gate>, op: Operation, guards: seq<nat>)
    requires WellParented(gates) && OpInRange(gates, op)
    ensures multiset(DropOrder(gates, op, guards)) == multiset(guards)
    ensures AllBelow(guards, |gates|) ==> AllBelow(DropOrder(gates, op, guards), |gates|)
  {
    if op.ServiceCall? {
      var k := |Lineage(gates, op.provider)|;
      if |guards| > k { assert guards == guards[..k] + guards[k..]; }
    }
  }

  lemma ThreadOkStable(gates: seq<Gate>, gates': seq<Gate>, thread: Thread)
    requires WellParented(gates) && WellParented(gates') && SameParents(gates, gates')
    requires ThreadOk(gates, thread)
    requires thread.pc.Signalling? ==>
               var w := gates'[thread.pc.gate].word; IsRevoked(w) && Active(w) == 0
    ensures ThreadOk(gates', thread)
  {
    if thread.pc.Admitting? || thread.pc.Swapping? || thread.pc.Running? {
      GatesOfStable(gates, gates', thread.pc.op);
    }
  }

  // ---------------------------------------------------------------------
  // Every step preserves the invariant
  // ---------------------------------------------------------------------

  ghost predicate FullyReleased(gate: Gate) { IsRevoked(gate.word) && Active(gate.word) == 0 }

  /** Frame: a step that changes only thread `t`, gate `g`, and the guards `t` holds on `g`. */
  lemma Replace(s: State, t: nat, x: Thread, g: nat, gate: Gate)
    requires Inv(s) && t < |s.threads| && g < |s.gates|
    requires gate.parent == s.gates[g].parent && gate.word < WORD_LIMIT
    requires WellParented(s.gates[g := gate]) && ThreadOk(s.gates[g := gate], x)
    requires Active(gate.word) + Held(s.threads[t], g) == Active(s.gates[g].word) + Held(x, g)
    requires forall h: nat :: h != g ==> Held(x, h) == Held(s.threads[t], h)
    requires FullyReleased(s.gates[g]) ==> FullyReleased(gate)
    requires gate.drained ==> FullyReleased(gate)
    requires FullyReleased(gate) ==>
               || gate.drained || x.pc == Signalling(g)
               || (FullyReleased(s.gates[g]) && s.threads[t].pc != Signalling(g) && !s.gates[g].drained)
    requires gate.phase.Cleaning? || gate.phase.Closed? ==> gate.drained
    requires gate.phase.Draining? ==>
               || IsRevoked(gate.word) || x.pc == Revoking(g)
               || (s.gates[g].phase.Draining? && !IsRevoked(s.gates[g].word) && s.threads[t].pc != Revoking(g))
    requires s.threads[t].pc.Signalling? ==> s.threads[t].pc.gate == g
    requires s.threads[t].pc.Revoking? ==> s.threads[t].pc.gate == g
    ensures Inv(State(s.gates[g := gate], s.threads[t := x]))
  {
    var s' := State(s.gates[g := gate], s.threads[t := x]);
    forall h: nat | h < |s'.gates| ensures GateOk(s', h) {
      LiveGuardsUpdate(s.threads, t, x, h);
      assert GateOk(s, h);
      OwedElsewhere(s, s', t, h);
    }
    forall u: nat | u < |s'.threads| ensures ThreadOk(s'.gates, s'.threads[u]) {
      if u != t {
        assert ThreadOk(s.gates, s.threads[u]);
        ThreadOkStable(s.gates, s'.gates, s.threads[u]);
      }
    }
  }

  /** Signals and revocations owed by threads other than `t` stay owed. */
  lemma OwedElsewhere(s: State, s': State, t: nat, h: nat)
    requires |s'.threads| == |s.threads| && t < |s.threads|
    requires forall u :: 0 <= u < |s.threads| && u != t ==> s'.threads[u] == s.threads[u]
    ensures SignalOwed(s, h) && s.threads[t].pc != Signalling(h) ==> SignalOwed(s', h)
    ensures RevokeOwed(s, h) && s.threads[t].pc != Revoking(h) ==> RevokeOwed(s', h)
    ensures s'.threads[t].pc == Signalling(h) ==> SignalOwed(s', h)
    ensures s'.threads[t].pc == Revoking(h) ==> RevokeOwed(s', h)
  {
    if SignalOwed(s, h) && s.threads[t].pc != Signalling(h) {
      var u :| 0 <= u < |s.threads| && s.threads[u].pc == Signalling(h);
      assert s'.threads[u].pc == Signalling(h);
    }
    if RevokeOwed(s, h) && s.threads[t].pc != Revoking(h) {
      var u :| 0 <= u < |s.threads| && s.threads[u].pc == Revoking(h);
      assert s'.threads[u].pc == Revoking(h);
    }
  }

  /** A step that only moves thread `t` along, keeping the guards it holds. */
  lemma Repark(s: State, t: nat, pc: Pc, guards: seq<nat>)
    requires Inv(s) && t < |s.threads|
    requires multiset(guards) == multiset(s.threads[t].guards)
    requires ThreadOk(s.gates, Thread(pc, guards))
    requires !s.threads[t].pc.Signalling? && !s.threads[t].pc.Revoking?
    ensures Inv(WithThread(s, t, pc, guards))
  {
    var s' := WithThread(s, t, pc, guards);
    forall h: nat | h < |s'.gates| ensures GateOk(s', h) {
      LiveGuardsUpdate(s.threads, t, Thread(pc, guards), h);
      assert GateOk(s, h);
      OwedElsewhere(s, s', t, h);
    }
  }

  lemma NewGateKeeps(s: State, gate: Gate)
    requires Inv(s)
    requires gate.parent.Some? ==> gate.parent.value < |s.gates|
    requires gate.word == 0 && !gate.drained && gate.phase.Open?
    ensures Inv(s.(gates := s.gates + [gate]))
  {
    var s' := s.(gates := s.gates + [gate]);
    forall t: nat | t < |s.threads| ensures ThreadOk(s'.gates, s'.threads[t]) {
      assert ThreadOk(s.gates, s.threads[t]);
      ThreadOkStable(s.gates, s'.gates, s.threads[t]);
    }
    NoGuardsBeyond(s.threads, |s.gates|);
    forall h: nat | h < |s'.gates| ensures GateOk(s', h) {
      if h < |s.gates| { assert GateOk(s, h); }
    }
  }

  lemma SpawnKeeps(s: State)
    requires Inv(s)
    ensures Inv(s.(threads := s.threads + [Thread(Idle, [])]))
  {
    var s' := s.(threads := s.threads + [Thread(Idle, [])]);
    forall h: nat | h < |s'.gates| ensures GateOk(s', h) {
      assert GateOk(s, h);
      LiveGuardsSpawn(s.threads, h);
      if SignalOwed(s, h) {
        var u :| 0 <= u < |s.threads| && s.threads[u].pc == Signalling(h);
        assert s'.threads[u].pc == Signalling(h);
      }
      if RevokeOwed(s, h) {
        var u :| 0 <= u < |s.threads| && s.threads[u].pc == Revoking(h);
        assert s'.threads[u].pc == Revoking(h);
      }
    }
  }

  lemma PhaseKeeps(s: State, g: nat, phase: Phase)
    requires Inv(s) && g < |s.gates|
    requires phase.Cleaning? || phase.Closed?
    requires s.gates[g].drained
    ensures Inv(WithPhase(s, g, phase))
  {
    var s' := WithPhase(s, g, phase);
    forall h: nat | h < |s'.gates| ensures GateOk(s', h) { assert GateOk(s, h); OwedSame(s, s', h); }
    forall t: nat | t < |s.threads| ensures ThreadOk(s'.gates, s'.threads[t]) {
      assert ThreadOk(s.gates, s.threads[t]);
      ThreadOkStable(s.gates, s'.gates, s.threads[t]);
    }
  }

  lemma OwedSame(s: State, s': State, h: nat)
    requires s'.threads == s.threads
    ensures SignalOwed(s, h) == SignalOwed(s', h) && RevokeOwed(s, h) == RevokeOwed(s', h)
  {
  }

  lemma JudgeKeeps(s: State, t: nat, word: nat)
    requires Inv(s) && InAdmission(s, t) && HasNext(s, t)
    ensures Inv(Judge(s, t, word))
  {
    var thread := s.threads[t];
    assert ThreadOk(s.gates, thread);
    DropOrderPermutes(s.gates, thread.pc.op, thread.guards);
    if IsRevoked(word) || Active(word) == ACTIVE_CALLS {
      Repark(s, t, Releasing, DropOrder(s.gates, thread.pc.op, thread.guards));
    } else {
      Repark(s, t, Swapping(thread.pc.op, word), thread.guards);
    }
  }

  lemma AdmitKeeps(s: State, t: nat)
    requires Inv(s) && InAdmission(s, t) && s.threads[t].pc.Swapping? && HasNext(s, t)
    requires s.gates[NextGate(s, t)].word == s.threads[t].pc.observed
    ensures Inv(Do(s, CompareExchange(t, false)))
  {
    var g, thread := NextGate(s, t), s.threads[t];
    assert ThreadOk(s.gates, thread) && GateOk(s, g);
    var gate := s.gates[g].(word := s.gates[g].word + 1);
    var x := Thread(Admitting(thread.pc.op), thread.guards + [g]);
    WordOperations(s.gates[g].word);
    GatesOfStable(s.gates, s.gates[g := gate], thread.pc.op);
    Replace(s, t, x, g, gate);
  }

  lemma DropGuardKeeps(s: State, t: nat)
    requires Inv(s) && Enabled(s, DropGuard(t))
    ensures Inv(Do(s, DropGuard(t)))
    ensures Active(s.gates[s.threads[t].guards[0]].word) > 0   // no underflow
  {
    var thread := s.threads[t];
    var g := thread.guards[0];
    assert ThreadOk(s.gates, thread) && GateOk(s, g);
    assert thread.guards == [g] + thread.guards[1..];
    LiveGuardsAtLeast(s.threads, t, g);
    var word := s.gates[g].word;
    WordOperations(word);
    var pc := if IsRevoked(word) && Active(word) == 1 then Signalling(g) else Releasing;
    Replace(s, t, Thread(pc, thread.guards[1..]), g, s.gates[g].(word := MinusOne(word)));
  }

  lemma FetchOrKeeps(s: State, t: nat)
    requires Inv(s) && Enabled(s, FetchOr(t))
    ensures Inv(Do(s, FetchOr(t)))
  {
    var thread := s.threads[t];
    var g := thread.pc.gate;
    assert ThreadOk(s.gates, thread) && GateOk(s, g);
    var word := s.gates[g].word;
    WordOperations(word);
    var pc := if Active(word) == 0 then Signalling(g) else Releasing;
    Replace(s, t, Thread(pc, thread.guards), g, s.gates[g].(word := OrRevoked(word)));
  }

  lemma SignalKeeps(s: State, t: nat)
    requires Inv(s) && Enabled(s, Signal(t))
    ensures Inv(Do(s, Signal(t)))
  {
    var thread := s.threads[t];
    var g := thread.pc.gate;
    assert ThreadOk(s.gates, thread) && GateOk(s, g);
    Replace(s, t, Thread(Releasing, thread.guards), g, s.gates[g].(drained := true));
  }

  lemma BeginCloseKeeps(s: State, t: nat, g: nat)
    requires Inv(s) && Enabled(s, BeginClose(t, g))
    ensures Inv(Do(s, BeginClose(t, g)))
  {
    var thread := s.threads[t];
    assert ThreadOk(s.gates, thread) && GateOk(s, g);
    Replace(s, t, Thread(Revoking(g), thread.guards), g, s.gates[g].(phase := Draining));
  }

  lemma StepKeeps(s: State, step: Step)
    requires Inv(s) && Enabled(s, step)
    ensures Inv(Do(s, step))
  {
    match step
    case NewRoot => NewGateKeeps(s, Gate(None, 0, false, Open));
    case NewChild(p) => NewGateKeeps(s, Gate(Some(p), 0, false, Open));
    case Spawn => SpawnKeeps(s);
    case Begin(t, op) => Repark(s, t, Admitting(op), []);
    case Load(t) => JudgeKeeps(s, t, s.gates[NextGate(s, t)].word);
    case CompareExchange(t, spurious) =>
      if s.gates[NextGate(s, t)].word == s.threads[t].pc.observed && !spurious {
        AdmitKeeps(s, t);
      } else {
        JudgeKeeps(s, t, s.gates[NextGate(s, t)].word);
      }
    case Refuse(t) =>
      assert ThreadOk(s.gates, s.threads[t]);
      DropOrderPermutes(s.gates, s.threads[t].pc.op, s.threads[t].guards);
      Repark(s, t, Releasing, DropOrder(s.gates, s.threads[t].pc.op, s.threads[t].guards));
    case Enter(t) =>
      assert ThreadOk(s.gates, s.threads[t]);
      GatesOfBelow(s.gates, s.threads[t].pc.op);
      Repark(s, t, Running(s.threads[t].pc.op), s.threads[t].guards);
    case Finish(t) =>
      assert ThreadOk(s.gates, s.threads[t]);
      DropOrderPermutes(s.gates, s.threads[t].pc.op, s.threads[t].guards);
      Repark(s, t, Releasing, DropOrder(s.gates, s.threads[t].pc.op, s.threads[t].guards));
    case DropGuard(t) => DropGuardKeeps(s, t);
    case BeginClose(t, g) => BeginCloseKeeps(s, t, g);
    case DropScope(t, g) => Repark(s, t, Revoking(g), s.threads[t].guards);
    case FetchOr(t) => FetchOrKeeps(s, t);
    case Signal(t) => SignalKeeps(s, t);
    case Done(t) => Repark(s, t, Idle, []);
    case ObserveDrained(g) => PhaseKeeps(s, g, Cleaning);
    case FinishClose(g) => assert GateOk(s, g); PhaseKeeps(s, g, Closed);
  }

  lemma {:induction false} RunKeeps(s: State, steps: seq<Step>, s': State)
    requires Inv(s) && Leads(s, steps, s')
    ensures Inv(s')
    decreases |steps|
  {
    if steps != [] {
      StepKeeps(s, steps[0]);
      RunKeeps(Do(s, steps[0]), steps[1..], s');
    }
  }

  // ---------------------------------------------------------------------
  // What the fence guarantees, over every interleaving
  // ---------------------------------------------------------------------

  /** In every reachable state the packed word decodes to exactly the revocation
      flag and the number of live guards, drained means revoked with none left,
      and a revoked gate with none left is drained or about to be. */
  lemma GateWordExact(steps: seq<Step>, s: State, g: nat)
    requires Leads(INITIAL, steps, s) && g < |s.gates|
    ensures s.gates[g].word
            == LiveGuards(s.threads, g) + (if IsRevoked(s.gates[g].word) then REVOKED else 0)
    ensures LiveGuards(s.threads, g) <= ACTIVE_CALLS
    ensures s.gates[g].drained ==> IsRevoked(s.gates[g].word) && LiveGuards(s.threads, g) == 0
    ensures IsRevoked(s.gates[g].word) && LiveGuards(s.threads, g) == 0 ==>
              s.gates[g].drained || SignalOwed(s, g)
  {
    RunKeeps(INITIAL, steps, s);
    assert GateOk(s, g);
  }

  /** While a callback runs, no scope among its provider's or consumer's scopes
      and their ancestors has reached the phase in which its cleanup runs. */
  lemma NoCleanupDuringCallback(steps: seq<Step>, s: State, t: nat)
    requires Leads(INITIAL, steps, s) && t < |s.threads| && s.threads[t].pc.Running?
    ensures WellParented(s.gates) && OpInRange(s.gates, s.threads[t].pc.op)
    ensures forall g :: g in GatesOf(s.gates, s.threads[t].pc.op) ==>
              && g < |s.gates| && !s.gates[g].drained
              && (s.gates[g].phase.Open? || s.gates[g].phase.Draining?)
  {
    RunKeeps(INITIAL, steps, s);
    assert ThreadOk(s.gates, s.threads[t]);
    forall g | g in GatesOf(s.gates, s.threads[t].pc.op)
      ensures g < |s.gates| && !s.gates[g].drained
      ensures s.gates[g].phase.Open? || s.gates[g].phase.Draining?
    {
      GatesOfBelow(s.gates, s.threads[t].pc.op);
      LiveGuardsAtLeast(s.threads, t, g);
      assert GateOk(s, g);
    }
  }

  /** Once a gate has drained, no operation in its subtree ever starts again. */
  lemma {:induction false} DrainedForever(before: seq<Step>, s: State, after: seq<Step>, s': State, g: nat)
    requires Leads(INITIAL, before, s) && g < |s.gates| && s.gates[g].drained
    requires Leads(s, after, s')
    ensures g < |s'.gates| && s'.gates[g].drained && WellParented(s'.gates)
    ensures forall t :: 0 <= t < |s'.threads| && s'.threads[t].pc.Running? ==>
              OpInRange(s'.gates, s'.threads[t].pc.op) && g !in GatesOf(s'.gates, s'.threads[t].pc.op)
  {
    RunKeeps(INITIAL, before, s);
    StaysDrained(s, after, s', g);
    assert GateOk(s', g);
    forall t: nat | t < |s'.threads| && s'.threads[t].pc.Running?
      ensures OpInRange(s'.gates, s'.threads[t].pc.op) && g !in GatesOf(s'.gates, s'.threads[t].pc.op)
    {
      assert ThreadOk(s'.gates, s'.threads[t]);
      LiveGuardsAtLeast(s'.threads, t, g);
    }
  }

  lemma {:induction false} StaysDrained(s: State, steps: seq<Step>, s': State, g: nat)
    requires Inv(s) && Leads(s, steps, s') && g < |s.gates| && s.gates[g].drained
    ensures Inv(s') && g < |s'.gates| && s'.gates[g].drained
    decreases |steps|
  {
    if steps != [] {
      StepKeeps(s, steps[0]);
      StaysDrained(Do(s, steps[0]), steps[1..], s', g);
    }
  }

  /** No wake-up is lost: once every thread is idle, a scope that began closing can proceed to cleanup. */
  lemma IdleMeansDrained(steps: seq<Step>, s: State, g: nat)
    requires Leads(INITIAL, steps, s) && g < |s.gates| && s.gates[g].phase.Draining?
    requires forall t :: 0 <= t < |s.threads| ==> s.threads[t].pc.Idle?
    ensures Enabled(s, ObserveDrained(g))
  {
    RunKeeps(INITIAL, steps, s);
    assert GateOk(s, g);
    forall t: nat | t < |s.threads| ensures s.threads[t].guards == [] {
      assert ThreadOk(s.gates, s.threads[t]);
    }
    NoGuards(s.threads, g);
  }

  lemma {:induction false} NoGuards(threads: seq<Thread>, g: nat)
    requires forall t :: 0 <= t < |threads| ==> threads[t].guards == []
    ensures LiveGuards(threads, g) == 0
  {
    if threads != [] { NoGuards(threads[1..], g); }
  }
}
