/** Gates and teardown together. Every scope of every tree has its own gate; threads
    admit operations through gates while scopes are created, used, sealed and torn
    down turn by turn, in any interleaving, from an empty world. A scope and its gate
    share one number. */
module GatedTeardowns {
  import opened Common
  import G = ActivityGates
  import opened EffectScopes
  import EffectScopeRuns

  // ---------------------------------------------------------------------
  // One turn of a teardown against the gates
  // ---------------------------------------------------------------------

  predicate Drained(gates: seq<G.Gate>, g: nat) { g < |gates| && gates[g].drained }

  /** A new scope owes one answer of its drain: the one that observes its gate drained. */
  function NewScope(id: nat): Scope { Scope(id, 1, 1, Open([])) }

  /** The child being torn down has not finished. */
  predicate ChildBusy(s: Scope) {
    && s.storage.Draining? && s.storage.drain.None? && s.storage.current.Some? && s.storage.current.value.Closing?
    && !s.storage.current.value.scope.storage.Closed?
  }

  /** The scope a teardown rests on: the innermost one being torn down. */
  function RestsOn(s: Scope): Scope
    decreases s
  {
    if ChildBusy(s) then RestsOn(s.storage.current.value.scope) else s
  }

  /** A turn is possible unless the scope the teardown rests on still awaits its own gate. */
  predicate CanTurn(s: Scope, gates: seq<G.Gate>) {
    var at := RestsOn(s);
    at.storage.Draining? && (at.storage.drain.Some? ==> Drained(gates, at.id))
  }

  /** The scope after a turn, the callbacks invoked, and the scope the turn sealed. */
  datatype Taken = Taken(scope: Scope, invoked: seq<RegistrationId>, sealed: Option<nat>)

  /** Hand over the last entry: run it, start it, or seal the child it is. */
  function Pop(s: Scope): Taken
    requires s.storage.Draining? && s.storage.current.None? && s.storage.remaining != []
  {
    var last := |s.storage.remaining| - 1;
    var rest := s.storage.(remaining := s.storage.remaining[..last]);
    match s.storage.remaining[last]
    case Sync(id, answer) => Taken(s.(storage := rest.(steps := rest.steps + [Cleanup(id, OutcomeOf(answer))])), [id], None)
    case Async(id, callPanics, pending, answer, dropPanics) =>
      if callPanics then Taken(s.(storage := rest.(steps := rest.steps + [Cleanup(id, Failed(Panicked))])), [id], None)
      else Taken(s.(storage := rest.(current := Some(Polling(id, pending, answer, dropPanics)))), [id], None)
    case Child(child) =>
      Taken(
        s.(storage := rest.(current := Some(Closing(Begin(child), child.storage.Closed?)))), [],
        if child.storage.Open? then Some(child.id) else None)
  }

  function Settled(s: Scope, step: CloseStep): Scope
    requires s.storage.Draining?
  {
    s.(storage := s.storage.(current := None, steps := s.storage.steps + [step]))
  }

  function Turn(s: Scope, gates: seq<G.Gate>): Taken
    requires CanTurn(s, gates)
    decreases s
  {
    if ChildBusy(s) then
      var child := Turn(s.storage.current.value.scope, gates);
      Taken(s.(storage := s.storage.(current := Some(s.storage.current.value.(scope := child.scope)))), child.invoked, child.sealed)
    else if s.storage.drain.Some? then Taken(s.(storage := s.storage.(drain := None)), [], None)
    else
      match s.storage.current
      case Some(Polling(id, pending, answer, dropPanics)) =>
        if pending > 0 then
          Taken(s.(storage := s.storage.(current := Some(Polling(id, pending - 1, answer, dropPanics)))), [], None)
        else Taken(Settled(s, Cleanup(id, AfterDrop(OutcomeOf(answer), dropPanics))), [], None)
      case Some(Closing(child, alreadyClosed)) => Taken(Settled(s, ChildClosed(child.storage.report, alreadyClosed)), [], None)
      case None =>
        if s.storage.remaining == [] then Taken(s.(storage := Closed(Report(s.id, s.storage.steps))), [], None) else Pop(s)
  }

  /** Turns and Pending answers still to come. */
  function Work(s: Scope): nat { PendingLeft(s) + Turns(s) }

  lemma PopLedger(s: Scope)
    requires s.storage.Draining? && s.storage.current.None? && s.storage.remaining != []
    ensures var t := Pop(s);
            Promised(t.scope) == Promised(s) && t.invoked + Uninvoked(t.scope) == Uninvoked(s) && Work(t.scope) < Work(s)
  {
    var entry := s.storage.remaining[|s.storage.remaining| - 1];
    if entry.Child? { BeginKeeps(entry.scope); }
    PopKeeps(s, Pop(s).scope, Pop(s).invoked);
  }

  lemma ChildLedger(s: Scope, child: Scope, invoked: seq<RegistrationId>)
    requires ChildBusy(s)
    requires var was := s.storage.current.value.scope;
             Promised(child) == Promised(was) && invoked + Uninvoked(child) == Uninvoked(was) && Work(child) < Work(was)
    ensures var s' := s.(storage := s.storage.(current := Some(s.storage.current.value.(scope := child))));
            Promised(s') == Promised(s) && invoked + Uninvoked(s') == Uninvoked(s) && Work(s') < Work(s)
  {
    var rest := UninvokedAll(s.storage.remaining);
    ConcatAssociates(invoked, Uninvoked(child), rest);
    var was, now := s.storage.current, Some(s.storage.current.value.(scope := child));
    assert PendingCurrent(was) == PendingLeft(was.value.scope) && PendingCurrent(now) == PendingLeft(child);
    assert TurnsCurrent(was) == 1 + Turns(was.value.scope) && TurnsCurrent(now) == 1 + Turns(child);
  }

  /** A turn keeps the books a poll keeps: the promised report is unchanged, callbacks
      run in the promised order, each once, and less remains to be done. */
  lemma {:induction false} TurnLedger(s: Scope, gates: seq<G.Gate>)
    requires CanTurn(s, gates) && DrainsOwed(s)
    ensures var t := Turn(s, gates);
            Promised(t.scope) == Promised(s) && t.invoked + Uninvoked(t.scope) == Uninvoked(s) && Work(t.scope) < Work(s)
    decreases s
  {
    if ChildBusy(s) {
      var child := s.storage.current.value.scope;
      TurnLedger(child, gates);
      ChildLedger(s, Turn(child, gates).scope, Turn(child, gates).invoked);
    } else if s.storage.drain.None? {
      match s.storage.current
      case Some(Polling(id, pending, answer, dropPanics)) =>
        assert PendingCurrent(s.storage.current) == pending && TurnsCurrent(s.storage.current) == 1;
        if pending == 0 {
          SettleKeeps(s, Cleanup(id, AfterDrop(OutcomeOf(answer), dropPanics)));
        } else {
          var now := Some(Polling(id, pending - 1, answer, dropPanics));
          assert PendingCurrent(now) == pending - 1 && TurnsCurrent(now) == 1;
        }
      case Some(Closing(child, alreadyClosed)) => SettleKeeps(s, ChildClosed(child.storage.report, alreadyClosed));
      case None =>
        if s.storage.remaining == [] {
          assert s.storage.steps + CurrentSteps(None) + StepsOf([]) == s.storage.steps;
        } else {
          PopLedger(s);
        }
    }
  }

  /** Along the scopes being torn down, an unobserved drain owes its one answer. */
  predicate DrainsOwed(s: Scope)
    decreases s
  {
    s.storage.Draining? ==>
      && (s.storage.drain.Some? ==> s.storage.drain.value == 1)
      && (s.storage.current.Some? && s.storage.current.value.Closing? ==> DrainsOwed(s.storage.current.value.scope))
  }

  // ---------------------------------------------------------------------
  // A tree agrees with the gates
  // ---------------------------------------------------------------------

  /** Entries belong to their scope, and a child's gate hangs below its parent's. A scope
      past Open has been sealed at its gate; one that has observed its drain, or is
      closed, has a drained gate. */
  ghost predicate TreeOk(s: Scope, gates: seq<G.Gate>)
    decreases s
  {
    && s.id < |gates|
    && (!s.storage.Open? ==> !gates[s.id].phase.Open?)
    && match s.storage
       case Open(entries) =>
         && s.drain == 1
         && forall i :: 0 <= i < |entries| ==>
                          && OwnEntry(s.id, entries[i], gates) && (entries[i].Child? ==> TreeOk(entries[i].scope, gates))
       case Draining(drain, remaining, current, _) =>
         && (drain.None? ==> gates[s.id].drained) && (drain.Some? ==> drain.value == 1)
         && (forall i :: 0 <= i < |remaining| ==>
                           && OwnEntry(s.id, remaining[i], gates) && (remaining[i].Child? ==> TreeOk(remaining[i].scope, gates)))
         && (current.Some? && current.value.Closing? ==>
               && !current.value.scope.storage.Open?
               && ChildOk(s.id, current.value.scope, gates) && TreeOk(current.value.scope, gates))
       case Closed(_) => gates[s.id].drained
  }

  /** A callback registered with this scope, or a child of it. */
  predicate OwnEntry(id: nat, entry: Entry, gates: seq<G.Gate>) {
    if entry.Child? then ChildOk(id, entry.scope, gates) else entry.id.scope == id
  }

  predicate ChildOk(parent: nat, child: Scope, gates: seq<G.Gate>) {
    child.id < |gates| && gates[child.id].parent == Some(parent)
  }

  /** What no step takes back. */
  ghost predicate Later(gates: seq<G.Gate>, gates': seq<G.Gate>) {
    && |gates| <= |gates'|
    && forall g :: 0 <= g < |gates| ==>
                     && gates'[g].parent == gates[g].parent && (gates[g].drained ==> gates'[g].drained)
                     && (!gates[g].phase.Open? ==> !gates'[g].phase.Open?)
  }

  lemma {:induction false} TreeStays(s: Scope, gates: seq<G.Gate>, gates': seq<G.Gate>)
    requires TreeOk(s, gates) && Later(gates, gates')
    ensures TreeOk(s, gates')
    decreases s
  {
    match s.storage
    case Open(entries) =>
      forall i | 0 <= i < |entries| && entries[i].Child? ensures TreeOk(entries[i].scope, gates') {
        TreeStays(entries[i].scope, gates, gates');
      }
    case Draining(_, remaining, current, _) =>
      forall i | 0 <= i < |remaining| && remaining[i].Child? ensures TreeOk(remaining[i].scope, gates') {
        TreeStays(remaining[i].scope, gates, gates');
      }
      if current.Some? && current.value.Closing? { TreeStays(current.value.scope, gates, gates'); }
    case Closed(_) =>
  }

  lemma {:induction false} TreeOwesDrains(s: Scope, gates: seq<G.Gate>)
    requires TreeOk(s, gates)
    ensures DrainsOwed(s)
    decreases s
  {
    if s.storage.Draining? && s.storage.current.Some? && s.storage.current.value.Closing? {
      TreeOwesDrains(s.storage.current.value.scope, gates);
    }
  }

  /** Once the sealed scope's gate is no longer open, the turn leaves a tree that agrees. */
  lemma {:induction false} TurnOk(s: Scope, gates: seq<G.Gate>, gates': seq<G.Gate>)
    requires TreeOk(s, gates) && TreeOk(s, gates') && CanTurn(s, gates) && Later(gates, gates')
    requires var sealed := Turn(s, gates).sealed; sealed.Some? && sealed.value < |gates'| ==> !gates'[sealed.value].phase.Open?
    ensures TreeOk(Turn(s, gates).scope, gates') && Turn(s, gates).scope.id == s.id
    ensures !Turn(s, gates).scope.storage.Open?
    decreases s
  {
    if ChildBusy(s) { TurnOk(s.storage.current.value.scope, gates, gates'); }
  }

  /** Every callback a turn invokes belongs to a scope whose own gate has drained. */
  lemma {:induction false} TurnInvokesDrained(s: Scope, gates: seq<G.Gate>, r: RegistrationId)
    requires TreeOk(s, gates) && CanTurn(s, gates) && r in Turn(s, gates).invoked
    ensures Drained(gates, r.scope)
    decreases s
  {
    if ChildBusy(s) { TurnInvokesDrained(s.storage.current.value.scope, gates, r); }
  }

  lemma {:induction false} TurnSealsKnown(s: Scope, gates: seq<G.Gate>)
    requires TreeOk(s, gates) && CanTurn(s, gates)
    ensures Turn(s, gates).sealed.Some? ==> Turn(s, gates).sealed.value < |gates|
    decreases s
  {
    if ChildBusy(s) { TurnSealsKnown(s.storage.current.value.scope, gates); }
  }

  lemma {:induction false} RestsInTree(s: Scope, gates: seq<G.Gate>)
    requires TreeOk(s, gates)
    ensures TreeOk(RestsOn(s), gates)
    ensures s.storage.Draining? ==> RestsOn(s).storage.Draining?
    decreases s
  {
    if ChildBusy(s) { RestsInTree(s.storage.current.value.scope, gates); }
  }

  // ---------------------------------------------------------------------
  // Scopes inside a tree
  // ---------------------------------------------------------------------

  /** The scope reached by a path of child positions, through open scopes only. */
  function At(s: Scope, path: seq<nat>): Option<Scope>
    decreases path
  {
    if path == [] then Some(s)
    else if s.storage.Open? && path[0] < |s.storage.entries| && s.storage.entries[path[0]].Child?
    then At(s.storage.entries[path[0]].scope, path[1..])
    else None
  }

  function Put(s: Scope, path: seq<nat>, sub: Scope): Scope
    requires At(s, path).Some?
    decreases path
  {
    if path == [] then sub
    else s.(storage := Open(s.storage.entries[path[0] := Child(Put(s.storage.entries[path[0]].scope, path[1..], sub))]))
  }

  lemma {:induction false} AtOk(s: Scope, path: seq<nat>, gates: seq<G.Gate>)
    requires TreeOk(s, gates) && At(s, path).Some?
    ensures TreeOk(At(s, path).value, gates)
    decreases path
  {
    if path != [] { AtOk(s.storage.entries[path[0]].scope, path[1..], gates); }
  }

  lemma {:induction false} PutOk(s: Scope, path: seq<nat>, sub: Scope, gates: seq<G.Gate>)
    requires TreeOk(s, gates) && At(s, path).Some? && sub.id == At(s, path).value.id && TreeOk(sub, gates)
    ensures TreeOk(Put(s, path, sub), gates) && Put(s, path, sub).id == s.id
    decreases path
  {
    if path != [] { PutOk(s.storage.entries[path[0]].scope, path[1..], sub, gates); }
  }

  /** The scopes of a tree, at any depth and in any state. */
  ghost predicate Within(s: Scope, g: nat)
    decreases s
  {
    || g == s.id
    || match s.storage
       case Open(entries) => exists i :: 0 <= i < |entries| && entries[i].Child? && Within(entries[i].scope, g)
       case Draining(_, remaining, current, _) =>
         || (exists i :: 0 <= i < |remaining| && remaining[i].Child? && Within(remaining[i].scope, g))
         || (current.Some? && current.value.Closing? && Within(current.value.scope, g))
       case Closed(_) => false
  }

  /** An operation through any scope of a tree passes through the gate of the tree's root. */
  lemma {:induction false} WithinIsBelow(s: Scope, gates: seq<G.Gate>, g: nat)
    requires G.WellParented(gates) && TreeOk(s, gates) && Within(s, g)
    ensures g < |gates| && s.id in G.Lineage(gates, g)
    decreases s, 0
  {
    if g != s.id {
      match s.storage
      case Open(entries) =>
        var i :| 0 <= i < |entries| && entries[i].Child? && Within(entries[i].scope, g);
        ChildIsBelow(s.id, entries[i].scope, gates, g);
      case Draining(_, remaining, current, _) =>
        if current.Some? && current.value.Closing? && Within(current.value.scope, g) {
          ChildIsBelow(s.id, current.value.scope, gates, g);
        } else {
          var i :| 0 <= i < |remaining| && remaining[i].Child? && Within(remaining[i].scope, g);
          ChildIsBelow(s.id, remaining[i].scope, gates, g);
        }
    }
  }

  lemma {:induction false} ChildIsBelow(parent: nat, child: Scope, gates: seq<G.Gate>, g: nat)
    requires G.WellParented(gates) && TreeOk(child, gates) && ChildOk(parent, child, gates) && Within(child, g)
    ensures g < |gates| && parent in G.Lineage(gates, g)
    decreases child, 1
  {
    WithinIsBelow(child, gates, g);
    LineageThrough(gates, child.id, g, parent);
  }

  /** A lineage that passes a gate passes its parent. */
  lemma {:induction false} LineageThrough(gates: seq<G.Gate>, c: nat, g: nat, parent: nat)
    requires G.WellParented(gates) && c < |gates| && g < |gates| && c in G.Lineage(gates, g) && gates[c].parent == Some(parent)
    ensures parent in G.Lineage(gates, g)
    decreases g
  {
    if c == g {
      assert G.Lineage(gates, parent)[|G.Lineage(gates, parent)| - 1] == parent;
    } else {
      LineageThrough(gates, c, gates[g].parent.value, parent);
    }
  }

  // ---------------------------------------------------------------------
  // Any interleaving, from an empty world
  // ---------------------------------------------------------------------

  /** Gates and threads, and the root scopes by gate. */
  datatype World = World(state: G.State, roots: map<nat, Scope>)

  /** `t` is the thread that seals a scope and so owes its gate the revocation. */
  datatype Action =
    | Gate(step: G.Step)
    | Create
    | Register(root: nat, path: seq<nat>, request: EffectScopeRuns.Request)
    | Nest(root: nat, path: seq<nat>)
    | Seal(root: nat, path: seq<nat>, t: nat)
    | Take(root: nat, path: seq<nat>, t: nat)

  /** Sealing marks the gate as closing and leaves the thread about to revoke it. */
  function Sealing(state: G.State, t: nat, g: nat): G.Step
    requires g < |state.gates|
  {
    if state.gates[g].phase.Open? then G.BeginClose(t, g) else G.DropScope(t, g)
  }

  predicate IdleThread(state: G.State, t: nat) { t < |state.threads| && state.threads[t].pc.Idle? }

  /** Scopes and closing marks come only from the actions on scopes. */
  predicate ThreadStep(step: G.Step) { !step.NewRoot? && !step.NewChild? && !step.BeginClose? }

  predicate Reaches(w: World, root: nat, path: seq<nat>) { root in w.roots && At(w.roots[root], path).Some? }

  function Reached(w: World, root: nat, path: seq<nat>): Scope
    requires Reaches(w, root, path)
  {
    At(w.roots[root], path).value
  }

  predicate Enabled(w: World, a: Action) {
    match a
    case Gate(step) => ThreadStep(step) && G.Enabled(w.state, step)
    case Create => true
    case Register(root, path, request) => Reaches(w, root, path) && EffectScopeRuns.Defer(Reached(w, root, path), request).Ok?
    case Nest(root, path) =>
      && Reaches(w, root, path) && G.Enabled(w.state, G.NewChild(Reached(w, root, path).id))
      && EffectScopeRuns.AddChild(Reached(w, root, path), |w.state.gates|, 1).Ok?
    case Seal(root, path, t) =>
      && Reaches(w, root, path) && Reached(w, root, path).storage.Open? && Reached(w, root, path).id < |w.state.gates|
      && IdleThread(w.state, t)
    case Take(root, path, t) =>
      && Reaches(w, root, path) && CanTurn(Reached(w, root, path), w.state.gates)
      && (var sealed := Turn(Reached(w, root, path), w.state.gates).sealed;
          sealed.Some? ==> sealed.value < |w.state.gates| && IdleThread(w.state, t))
  }

  function Replaced(w: World, root: nat, path: seq<nat>, sub: Scope): map<nat, Scope>
    requires Reaches(w, root, path)
  {
    w.roots[root := Put(w.roots[root], path, sub)]
  }

  function After(w: World, a: Action): World
    requires Enabled(w, a)
  {
    match a
    case Gate(step) => w.(state := G.Do(w.state, step))
    case Create =>
      World(G.Do(w.state, G.NewRoot), w.roots[|w.state.gates| := NewScope(|w.state.gates|)])
    case Register(root, path, request) =>
      w.(roots := Replaced(w, root, path, EffectScopeRuns.Defer(Reached(w, root, path), request).value.0))
    case Nest(root, path) =>
      var s := Reached(w, root, path);
      World(G.Do(w.state, G.NewChild(s.id)), Replaced(w, root, path, EffectScopeRuns.AddChild(s, |w.state.gates|, 1).value))
    case Seal(root, path, t) =>
      var s := Reached(w, root, path);
      World(G.Do(w.state, Sealing(w.state, t, s.id)), Replaced(w, root, path, Begin(s)))
    case Take(root, path, t) =>
      var taken := Turn(Reached(w, root, path), w.state.gates);
      World(
        if taken.sealed.Some? then G.Do(w.state, Sealing(w.state, t, taken.sealed.value)) else w.state,
        Replaced(w, root, path, taken.scope))
  }

  function InvokedBy(w: World, a: Action): seq<RegistrationId>
    requires Enabled(w, a)
  {
    if a.Take? then Turn(Reached(w, a.root, a.path), w.state.gates).invoked else []
  }

  ghost predicate IsRun(worlds: seq<World>, actions: seq<Action>) {
    && |worlds| == |actions| + 1 && worlds[0] == World(G.INITIAL, map[])
    && forall i :: 0 <= i < |actions| ==> Steps(worlds, actions, i)
  }

  ghost predicate Steps(worlds: seq<World>, actions: seq<Action>, i: nat)
    requires |worlds| == |actions| + 1 && i < |actions|
  {
    Enabled(worlds[i], actions[i]) && worlds[i + 1] == After(worlds[i], actions[i])
  }

  ghost predicate WorldOk(w: World) {
    && G.Inv(w.state)
    && forall g :: g in w.roots ==> w.roots[g].id == g && TreeOk(w.roots[g], w.state.gates)
  }

  lemma RootsStay(w: World, gates': seq<G.Gate>)
    requires WorldOk(w) && Later(w.state.gates, gates')
    ensures forall g :: g in w.roots ==> w.roots[g].id == g && TreeOk(w.roots[g], gates')
  {
    forall g | g in w.roots ensures TreeOk(w.roots[g], gates') { TreeStays(w.roots[g], w.state.gates, gates'); }
  }

  /** One scope of one tree is replaced by one that agrees with the new gates. */
  lemma ReplacedOk(w: World, root: nat, path: seq<nat>, sub: Scope, state': G.State)
    requires WorldOk(w) && Reaches(w, root, path) && Later(w.state.gates, state'.gates) && G.Inv(state')
    requires sub.id == Reached(w, root, path).id && TreeOk(sub, state'.gates)
    ensures WorldOk(World(state', Replaced(w, root, path, sub)))
  {
    RootsStay(w, state'.gates);
    PutOk(w.roots[root], path, sub, state'.gates);
  }

  lemma SealingOk(state: G.State, t: nat, g: nat)
    requires G.Inv(state) && g < |state.gates| && IdleThread(state, t)
    ensures G.Enabled(state, Sealing(state, t, g))
    ensures var state' := G.Do(state, Sealing(state, t, g));
            G.Inv(state') && Later(state.gates, state'.gates) && !state'.gates[g].phase.Open?
  {
    var step := Sealing(state, t, g);
    G.StepKeeps(state, step);
  }

  lemma CreateKeeps(w: World)
    requires WorldOk(w)
    ensures WorldOk(After(w, Create)) && Later(w.state.gates, After(w, Create).state.gates)
  {
    G.StepKeeps(w.state, G.NewRoot);
    RootsStay(w, After(w, Create).state.gates);
  }

  lemma NestKeeps(w: World, root: nat, path: seq<nat>)
    requires WorldOk(w) && Enabled(w, Nest(root, path))
    ensures WorldOk(After(w, Nest(root, path))) && Later(w.state.gates, After(w, Nest(root, path)).state.gates)
  {
    var s := Reached(w, root, path);
    var state' := G.Do(w.state, G.NewChild(s.id));
    G.StepKeeps(w.state, G.NewChild(s.id));
    AtOk(w.roots[root], path, w.state.gates);
    TreeStays(s, w.state.gates, state'.gates);
    var s' := EffectScopeRuns.AddChild(s, |w.state.gates|, 1).value;
    assert TreeOk(NewScope(|w.state.gates|), state'.gates);
    ReplacedOk(w, root, path, s', state');
  }

  lemma TakeKeeps(w: World, root: nat, path: seq<nat>, t: nat)
    requires WorldOk(w) && Enabled(w, Take(root, path, t))
    ensures WorldOk(After(w, Take(root, path, t))) && Later(w.state.gates, After(w, Take(root, path, t)).state.gates)
  {
    var s, gates := Reached(w, root, path), w.state.gates;
    var taken := Turn(s, gates);
    AtOk(w.roots[root], path, gates);
    var state' := After(w, Take(root, path, t)).state;
    if taken.sealed.Some? { SealingOk(w.state, t, taken.sealed.value); }
    TreeStays(s, gates, state'.gates);
    TurnOk(s, gates, state'.gates);
    ReplacedOk(w, root, path, taken.scope, state');
  }

  lemma StepKeeps(w: World, a: Action)
    requires WorldOk(w) && Enabled(w, a)
    ensures WorldOk(After(w, a)) && Later(w.state.gates, After(w, a).state.gates)
  {
    match a
    case Gate(step) =>
      G.StepKeeps(w.state, step);
      RootsStay(w, After(w, a).state.gates);
    case Create => CreateKeeps(w);
    case Register(root, path, request) =>
      AtOk(w.roots[root], path, w.state.gates);
      ReplacedOk(w, root, path, EffectScopeRuns.Defer(Reached(w, root, path), request).value.0, w.state);
    case Nest(root, path) => NestKeeps(w, root, path);
    case Seal(root, path, t) =>
      var s := Reached(w, root, path);
      AtOk(w.roots[root], path, w.state.gates);
      SealingOk(w.state, t, s.id);
      TreeStays(s, w.state.gates, After(w, a).state.gates);
      ReplacedOk(w, root, path, Begin(s), After(w, a).state);
    case Take(root, path, t) => TakeKeeps(w, root, path, t);
  }

  lemma {:induction false} RunOk(worlds: seq<World>, actions: seq<Action>, k: nat)
    requires IsRun(worlds, actions) && k < |worlds|
    ensures WorldOk(worlds[k])
  {
    if k > 0 {
      RunOk(worlds, actions, k - 1);
      assert Steps(worlds, actions, k - 1);
      StepKeeps(worlds[k - 1], actions[k - 1]);
    }
  }

  lemma {:induction false} DrainedStays(worlds: seq<World>, actions: seq<Action>, k: nat, m: nat, g: nat)
    requires IsRun(worlds, actions) && k <= m < |worlds| && Drained(worlds[k].state.gates, g)
    ensures Drained(worlds[m].state.gates, g)
    decreases m
  {
    if k < m {
      DrainedStays(worlds, actions, k, m - 1, g);
      assert Steps(worlds, actions, m - 1);
      RunOk(worlds, actions, m - 1);
      StepKeeps(worlds[m - 1], actions[m - 1]);
    }
  }

  // ---------------------------------------------------------------------
  // What the fence guarantees
  // ---------------------------------------------------------------------

  /** Whenever a cleanup of any scope, at any depth, is invoked, that scope's own gate
      has drained; and no operation through that scope, or through any scope below it,
      is running at that moment or ever after. */
  lemma CleanupsExcludeOperations(worlds: seq<World>, actions: seq<Action>, k: nat, r: RegistrationId, m: nat, t: nat)
    requires IsRun(worlds, actions) && k < |actions| && Steps(worlds, actions, k) && r in InvokedBy(worlds[k], actions[k])
    requires k <= m < |worlds| && t < |worlds[m].state.threads| && worlds[m].state.threads[t].pc.Running?
    ensures Drained(worlds[k].state.gates, r.scope)
    ensures var gates := worlds[m].state.gates; var op := worlds[m].state.threads[t].pc.op;
            && G.WellParented(gates) && G.OpInRange(gates, op) && r.scope !in G.GatesOf(gates, op)
  {
    var w, a, s := worlds[k], actions[k], worlds[m].state;
    RunOk(worlds, actions, k);
    AtOk(w.roots[a.root], a.path, w.state.gates);
    TurnInvokesDrained(Reached(w, a.root, a.path), w.state.gates, r);
    DrainedStays(worlds, actions, k, m, r.scope);
    RunOk(worlds, actions, m);
    assert G.ThreadOk(s.gates, s.threads[t]) && G.GateOk(s, r.scope);
    G.LiveGuardsAtLeast(s.threads, t, r.scope);
  }

  /** While an operation runs, no turn invokes a cleanup of any scope it passes through:
      its own, and every ancestor up to the root of the tree. */
  lemma OperationsHoldOffCleanups(worlds: seq<World>, actions: seq<Action>, k: nat, root: nat, g: nat, t: nat, r: RegistrationId)
    requires IsRun(worlds, actions) && k < |actions| && t < |worlds[k].state.threads|
    requires worlds[k].state.threads[t].pc == G.Running(G.Activity(g))
    requires root in worlds[k].roots && Within(worlds[k].roots[root], g) && Steps(worlds, actions, k)
    ensures r in InvokedBy(worlds[k], actions[k]) ==>
              G.WellParented(worlds[k].state.gates) && g < |worlds[k].state.gates|
              && r.scope !in G.Lineage(worlds[k].state.gates, g) && r.scope != root
  {
    RunOk(worlds, actions, k);
    WithinIsBelow(worlds[k].roots[root], worlds[k].state.gates, g);
    if r in InvokedBy(worlds[k], actions[k]) { CleanupsExcludeOperations(worlds, actions, k, r, k, t); }
  }

  /** No teardown is stuck: once every thread is idle, every sealed tree that is not
      closed can take its next turn. */
  lemma IdleTeardownProceeds(worlds: seq<World>, actions: seq<Action>, k: nat, root: nat, t: nat)
    requires IsRun(worlds, actions) && k < |worlds| && root in worlds[k].roots && worlds[k].roots[root].storage.Draining?
    requires t < |worlds[k].state.threads|
    requires forall u :: 0 <= u < |worlds[k].state.threads| ==> worlds[k].state.threads[u].pc.Idle?
    ensures Enabled(worlds[k], Take(root, [], t))
  {
    RunOk(worlds, actions, k);
    var s, state := worlds[k].roots[root], worlds[k].state;
    RestsInTree(s, state.gates);
    IdleGateDrained(state, RestsOn(s).id);
    TurnSealsKnown(s, state.gates);
  }

  lemma IdleGateDrained(state: G.State, g: nat)
    requires G.Inv(state) && g < |state.gates| && !state.gates[g].phase.Open?
    requires forall u :: 0 <= u < |state.threads| ==> state.threads[u].pc.Idle?
    ensures state.gates[g].drained
  {
    assert G.GateOk(state, g);
    forall u: nat | u < |state.threads| ensures state.threads[u].guards == [] {
      assert G.ThreadOk(state.gates, state.threads[u]);
    }
    G.NoGuards(state.threads, g);
  }

  // ---------------------------------------------------------------------
  // What a sealed tree comes to
  // ---------------------------------------------------------------------

  /** The callbacks of one tree invoked from `j` up to `m`, in order. */
  ghost function Collected(worlds: seq<World>, actions: seq<Action>, root: nat, j: nat, m: nat): seq<RegistrationId>
    requires IsRun(worlds, actions) && j <= m < |worlds|
    decreases m
  {
    if m == j then []
    else
      assert Steps(worlds, actions, m - 1);
      Collected(worlds, actions, root, j, m - 1) + InvokedOf(worlds[m - 1], actions[m - 1], root)
  }

  function TurnsTaken(actions: seq<Action>, root: nat, j: nat, m: nat): nat
    requires j <= m <= |actions|
    decreases m
  {
    if m == j then 0 else TurnsTaken(actions, root, j, m - 1) + TurnOf(actions[m - 1], root)
  }

  /** A step either leaves a sealed tree alone or is one turn of it. */
  lemma SealedStep(w: World, a: Action, root: nat)
    requires WorldOk(w) && Enabled(w, a) && root in w.roots && !w.roots[root].storage.Open?
    ensures root in After(w, a).roots && !After(w, a).roots[root].storage.Open?
    ensures var s, s' := w.roots[root], After(w, a).roots[root];
            if a.Take? && a.root == root then
              Promised(s') == Promised(s) && InvokedBy(w, a) + Uninvoked(s') == Uninvoked(s) && Work(s') < Work(s)
            else s' == s
  {
    var s := w.roots[root];
    if a.Take? && a.root == root {
      assert a.path == [];
      TreeOwesDrains(s, w.state.gates);
      TurnLedger(s, w.state.gates);
    } else if a.Create? {
      assert root < |w.state.gates|;
    }
  }

  /** `s'` is what `s` comes to after `turns` turns that invoked `invoked`. */
  ghost predicate ComesTo(s: Scope, s': Scope, invoked: seq<RegistrationId>, turns: nat) {
    && !s'.storage.Open? && Promised(s') == Promised(s)
    && invoked + Uninvoked(s') == Uninvoked(s) && turns + Work(s') <= Work(s)
  }

  /** What one action adds to the callbacks invoked, and to the turns taken, of one tree. */
  function InvokedOf(w: World, a: Action, root: nat): seq<RegistrationId>
    requires Enabled(w, a)
  {
    if a.Take? && a.root == root then InvokedBy(w, a) else []
  }

  function TurnOf(a: Action, root: nat): nat { if a.Take? && a.root == root then 1 else 0 }

  lemma ComesToStep(s: Scope, w: World, a: Action, root: nat, invoked: seq<RegistrationId>, turns: nat)
    requires WorldOk(w) && Enabled(w, a) && root in w.roots && ComesTo(s, w.roots[root], invoked, turns)
    ensures root in After(w, a).roots
    ensures ComesTo(s, After(w, a).roots[root], invoked + InvokedOf(w, a, root), turns + TurnOf(a, root))
  {
    SealedStep(w, a, root);
    assert invoked + [] == invoked;
  }

  lemma {:induction false} SealedComesTo(worlds: seq<World>, actions: seq<Action>, root: nat, j: nat, m: nat)
    requires IsRun(worlds, actions) && j <= m < |worlds|
    requires root in worlds[j].roots && !worlds[j].roots[root].storage.Open?
    ensures root in worlds[m].roots
    ensures ComesTo(
              worlds[j].roots[root], worlds[m].roots[root],
              Collected(worlds, actions, root, j, m), TurnsTaken(actions, root, j, m))
    decreases m
  {
    if j < m {
      SealedComesTo(worlds, actions, root, j, m - 1);
      assert Steps(worlds, actions, m - 1);
      RunOk(worlds, actions, m - 1);
      ComesToStep(
        worlds[j].roots[root], worlds[m - 1], actions[m - 1], root,
        Collected(worlds, actions, root, j, m - 1), TurnsTaken(actions, root, j, m - 1));
    } else {
      assert [] + Uninvoked(worlds[j].roots[root]) == Uninvoked(worlds[j].roots[root]);
    }
  }

  /** From the moment a tree is sealed, whatever the threads do, its report and the
      order of its callbacks are fixed: they run in that order, each once, and when it
      is closed all have run and the report is the promised one. It takes no more
      turns than it had work. */
  lemma SealedTeardownExact(worlds: seq<World>, actions: seq<Action>, root: nat, j: nat, m: nat)
    requires IsRun(worlds, actions) && j <= m < |worlds|
    requires root in worlds[j].roots && !worlds[j].roots[root].storage.Open?
    ensures root in worlds[m].roots && !worlds[m].roots[root].storage.Open?
    ensures Promised(worlds[m].roots[root]) == Promised(worlds[j].roots[root])
    ensures Collected(worlds, actions, root, j, m) <= Uninvoked(worlds[j].roots[root])
    ensures TurnsTaken(actions, root, j, m) <= Work(worlds[j].roots[root])
    ensures worlds[m].roots[root].storage.Closed? ==>
              && worlds[m].roots[root].storage.report == Promised(worlds[j].roots[root])
              && Collected(worlds, actions, root, j, m) == Uninvoked(worlds[j].roots[root])
  {
    SealedComesTo(worlds, actions, root, j, m);
    var collected, s' := Collected(worlds, actions, root, j, m), worlds[m].roots[root];
    assert collected <= collected + Uninvoked(s');
    if s'.storage.Closed? { assert collected + [] == collected; }
  }
}
