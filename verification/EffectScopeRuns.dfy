/** Whole lives of an effect-scope tree: any order of registrations, child
    creations, seals and polls, anywhere in the tree, with close futures dropped
    and resumed at will. */
module EffectScopeRuns {
  import opened Common
  import opened EffectScopes

  // ---------------------------------------------------------------------
  // Registration
  // ---------------------------------------------------------------------

  datatype ScopeError = NotOpen | RegistrationIdExhausted | ScopeIncarnationExhausted

  datatype Result<+T> = Ok(value: T) | Err(error: ScopeError)

  /** A cleanup callback handed to the scope. */
  datatype Request =
    | DeferSync(answer: Answer)
    | DeferAsync(callPanics: bool, pending: nat, answer: Answer, dropPanics: bool)

  function EntryFor(id: RegistrationId, request: Request): Entry {
    match request
    case DeferSync(answer) => Sync(id, answer)
    case DeferAsync(callPanics, pending, answer, dropPanics) => Async(id, callPanics, pending, answer, dropPanics)
  }

  function Defer(s: Scope, request: Request): Result<(Scope, RegistrationId)> {
    if !s.storage.Open? then Err(NotOpen)
    else if s.next == U64_MAX then Err(RegistrationIdExhausted)
    else
      var id := RegistrationId(s.id, s.next);
      Ok((s.(next := s.next + 1, storage := Open(s.storage.entries + [EntryFor(id, request)])), id))
  }

  /** `incarnation` is the process-wide counter the child's identity is taken from. */
  function AddChild(s: Scope, incarnation: nat, drain: nat): Result<Scope> {
    if !s.storage.Open? then Err(NotOpen)
    else if incarnation == U64_MAX then Err(ScopeIncarnationExhausted)
    else Ok(s.(storage := Open(s.storage.entries + [Child(Scope(incarnation, 1, drain, Open([])))])))
  }

  // ---------------------------------------------------------------------
  // The owner of a tree
  // ---------------------------------------------------------------------

  /** The owner's view of its scope; subtrees are values inside `storage`. */
  class EffectScope {
    const id: nat
    const drain: nat
    var next: nat
    var storage: Storage

    ghost function Tree(): Scope
      reads this
    {
      Scope(id, next, drain, storage)
    }

    constructor (id: nat, drain: nat)
      ensures Tree() == Scope(id, 1, drain, Open([]))
    {
      this.id, this.drain, next, storage := id, drain, 1, Open([]);
    }

    method Register(request: Request) returns (r: Result<RegistrationId>)
      modifies this
      ensures match Defer(old(Tree()), request)
              case Ok((tree, id)) => Tree() == tree && r == Ok(id)
              case Err(error) => Tree() == old(Tree()) && r == Err(error)
    {
      if !storage.Open? { return Err(NotOpen); }
      if next == U64_MAX { return Err(RegistrationIdExhausted); }
      var registration := RegistrationId(id, next);
      next := next + 1;
      storage := Open(storage.entries + [EntryFor(registration, request)]);
      r := Ok(registration);
    }

    /** Creating the close future already seals the scope. */
    method Close()
      modifies this
      ensures Tree() == Begin(old(Tree()))
    {
      if storage.Open? { storage := Draining(Some(drain), storage.entries, None, []); }
    }

    method Poll() returns (poll: Poll<Report>, invoked: seq<RegistrationId>)
      modifies this
      ensures PollResult(old(Tree()), Tree(), poll, invoked)
    {
      var s;
      s, poll, invoked := PollClose(Scope(id, next, drain, storage));
      storage := s.storage;
      assert PendingLeft(Tree()) == PendingLeft(s) by { assert !s.storage.Open?; }
    }

    /** Polling until ready takes exactly one more poll than there are Pending
        answers; the report and the order of callbacks were fixed beforehand. */
    method Drive() returns (report: Report, polls: nat, invoked: seq<RegistrationId>)
      modifies this
      ensures report == Promised(old(Tree())) && storage == Closed(report)
      ensures invoked == Uninvoked(old(Tree()))
      ensures polls == PendingLeft(old(Tree())) + 1
    {
      polls, invoked := 0, [];
      ghost var start := Tree();
      while true
        invariant Promised(Tree()) == Promised(start)
        invariant invoked + Uninvoked(Tree()) == Uninvoked(start)
        invariant polls + PendingLeft(Tree()) == PendingLeft(start)
        decreases PendingLeft(Tree())
      {
        var poll, more := Poll();
        polls, invoked := polls + 1, invoked + more;
        if poll.Ready? { return poll.value, polls, invoked; }
      }
    }
  }

  // ---------------------------------------------------------------------
  // Events anywhere in the tree
  // ---------------------------------------------------------------------

  datatype Event =
    | Registered(id: RegistrationId, request: Request)
    | ChildCreated(child: nat, drain: nat)
    | Sealed
    | Polled(poll: Poll<Report>, invoked: seq<RegistrationId>)

  ghost predicate Local(s: Scope, s': Scope, event: Event) {
    match event
    case Registered(id, request) => Defer(s, request) == Ok((s', id))
    case ChildCreated(child, drain) => AddChild(s, child, drain) == Ok(s')
    case Sealed => s' == Begin(s)
    case Polled(poll, invoked) => PollResult(s, s', poll, invoked)
  }

  /** `event` happens in the scope reached by `path`, through open scopes only. */
  ghost predicate Evolves(s: Scope, s': Scope, path: seq<nat>, event: Event)
    decreases path
  {
    if path == [] then Local(s, s', event)
    else
      && s.storage.Open? && path[0] < |s.storage.entries| && s.storage.entries[path[0]].Child?
      && s'.storage.Open? && |s'.storage.entries| == |s.storage.entries| && s'.storage.entries[path[0]].Child?
      && s' == s.(storage := Open(s.storage.entries[path[0] := s'.storage.entries[path[0]]]))
      && Evolves(s.storage.entries[path[0]].scope, s'.storage.entries[path[0]].scope, path[1..], event)
  }

  /** A tree, the process-wide counter, and everything registered and invoked so far. */
  datatype World = World(root: Scope, counter: nat, registered: seq<RegistrationId>, invoked: seq<RegistrationId>)

  predicate Initial(w: World) {
    w == World(Scope(w.root.id, 1, w.root.drain, Open([])), w.counter, [], []) && w.root.id < w.counter
  }

  ghost predicate WorldStep(w: World, w': World, path: seq<nat>, event: Event) {
    && Evolves(w.root, w'.root, path, event)
    && w'.registered == w.registered + NewlyRegistered(event)
    && w'.invoked == w.invoked + NewlyInvoked(event)
    && (if event.ChildCreated? then event.child == w.counter && w'.counter == w.counter + 1
        else w'.counter == w.counter)
  }

  ghost predicate IsLife(worlds: seq<World>, paths: seq<seq<nat>>, events: seq<Event>) {
    && |worlds| == |events| + 1 == |paths| + 1 && Initial(worlds[0])
    && forall i :: 0 <= i < |events| ==> WorldStep(worlds[i], worlds[i + 1], paths[i], events[i])
  }

  // ---------------------------------------------------------------------
  // Conservation: registered = invoked + still owed
  // ---------------------------------------------------------------------

  function Count(ids: seq<RegistrationId>, r: RegistrationId): nat { multiset(ids)[r] }

  lemma {:induction false} CountReplace(entries: seq<Entry>, i: nat, entry: Entry, r: RegistrationId)
    requires i < |entries|
    ensures Count(UninvokedAll(entries[i := entry]), r) + Count(UninvokedEntry(entries[i]), r)
         == Count(UninvokedAll(entries), r) + Count(UninvokedEntry(entry), r)
  {
    var last, entries' := |entries| - 1, entries[i := entry];
    if i < last {
      CountReplace(entries[..last], i, entry, r);
      assert entries'[..last] == entries[..last][i := entry] && entries'[last] == entries[last];
      assert entries[..last][i] == entries[i];
    } else {
      assert entries'[..last] == entries[..last] && entries'[last] == entry;
    }
  }

  lemma UninvokedAppend(entries: seq<Entry>, entry: Entry)
    ensures UninvokedAll(entries + [entry]) == UninvokedEntry(entry) + UninvokedAll(entries)
  {
    assert (entries + [entry])[..|entries|] == entries;
  }

  /** A scope without entries owes nothing. */
  lemma EmptyScope(id: nat, drain: nat)
    ensures var s := Scope(id, 1, drain, Open([]));
            Uninvoked(s) == [] && Promised(s) == Report(id, []) && Erase(Promised(s)) == Report(id, [])
  {
    assert UninvokedAll([]) == [] && StepsOf([]) == [];
  }

  function NewlyRegistered(event: Event): seq<RegistrationId> { if event.Registered? then [event.id] else [] }

  function NewlyInvoked(event: Event): seq<RegistrationId> { if event.Polled? then event.invoked else [] }

  /** What one event in one scope does to the callbacks it owes. */
  lemma LocalOwed(s: Scope, s': Scope, event: Event, r: RegistrationId)
    requires Local(s, s', event)
    ensures Count(Uninvoked(s'), r) + Count(NewlyInvoked(event), r) == Count(Uninvoked(s), r) + Count(NewlyRegistered(event), r)
  {
    match event
    case Registered(id, request) =>
      UninvokedAppend(s.storage.entries, EntryFor(id, request));
      assert Uninvoked(s') == [id] + Uninvoked(s);
    case ChildCreated(child, drain) =>
      EmptyScope(child, drain);
      UninvokedAppend(s.storage.entries, Child(Scope(child, 1, drain, Open([]))));
    case Sealed => BeginKeeps(s);
    case Polled(poll, invoked) => assert Uninvoked(s) == invoked + Uninvoked(s');
  }

  lemma {:induction false} OwedConserved(s: Scope, s': Scope, path: seq<nat>, event: Event, r: RegistrationId)
    requires Evolves(s, s', path, event)
    ensures Count(Uninvoked(s'), r) + Count(NewlyInvoked(event), r) == Count(Uninvoked(s), r) + Count(NewlyRegistered(event), r)
    decreases path
  {
    if path == [] {
      LocalOwed(s, s', event, r);
    } else {
      var k, es, es' := path[0], s.storage.entries, s'.storage.entries;
      OwedConserved(es[k].scope, es'[k].scope, path[1..], event, r);
      assert UninvokedEntry(es[k]) == Uninvoked(es[k].scope) && UninvokedEntry(es'[k]) == Uninvoked(es'[k].scope);
      CountReplace(es, k, es'[k], r);
    }
  }

  // ---------------------------------------------------------------------
  // Registration identities never repeat
  // ---------------------------------------------------------------------

  /** Identities of the scopes that can still accept registrations. */
  ghost function Ids(s: Scope): set<nat>
    decreases s
  {
    {s.id} + (if s.storage.Open? then
                set i, x | 0 <= i < |s.storage.entries| && s.storage.entries[i].Child?
                           && x in Ids(s.storage.entries[i].scope) :: x
              else {})
  }

  ghost predicate Distinct(s: Scope)
    decreases s
  {
    s.storage.Open? ==>
      var es := s.storage.entries;
      && (forall i :: 0 <= i < |es| && es[i].Child? ==> Distinct(es[i].scope) && s.id !in Ids(es[i].scope))
      && (forall i, j :: 0 <= i < j < |es| && es[i].Child? && es[j].Child? ==> Ids(es[i].scope) !! Ids(es[j].scope))
  }

  /** Nothing registered so far carries an identity some open scope will hand out. */
  ghost predicate Fresh(s: Scope, registered: set<RegistrationId>)
    decreases s
  {
    && (forall r :: r in registered && r.scope == s.id ==> r.sequence < s.next)
    && (s.storage.Open? ==>
          forall i :: 0 <= i < |s.storage.entries| && s.storage.entries[i].Child? ==>
            Fresh(s.storage.entries[i].scope, registered))
  }

  lemma {:induction false} FreshExtend(s: Scope, registered: set<RegistrationId>, id: RegistrationId)
    requires Fresh(s, registered) && id.scope !in Ids(s)
    ensures Fresh(s, registered + {id})
    decreases s
  {
    if s.storage.Open? {
      forall i | 0 <= i < |s.storage.entries| && s.storage.entries[i].Child?
        ensures Fresh(s.storage.entries[i].scope, registered + {id})
      {
        FreshExtend(s.storage.entries[i].scope, registered, id);
      }
    }
  }

  ghost predicate Below(registered: set<RegistrationId>, counter: nat) {
    forall r :: r in registered ==> r.scope < counter
  }

  ghost function Extended(registered: set<RegistrationId>, event: Event): set<RegistrationId> {
    if event.Registered? then registered + {event.id} else registered
  }

  lemma LocalIds(s: Scope, s': Scope, event: Event, counter: nat, registered: set<RegistrationId>)
    requires Local(s, s', event) && Distinct(s) && Fresh(s, registered) && Below(registered, counter)
    requires forall x :: x in Ids(s) ==> x < counter
    requires event.ChildCreated? ==> event.child == counter
    ensures Distinct(s') && Fresh(s', Extended(registered, event))
    ensures Ids(s') <= Ids(s) + (if event.ChildCreated? then {counter} else {})
    ensures event.Registered? ==> event.id !in registered && event.id.scope in Ids(s)
  {
    match event
    case Registered(id, request) =>
      var es, es' := s.storage.entries, s'.storage.entries;
      forall i | 0 <= i < |es'| && es'[i].Child?
        ensures i < |es| && es[i] == es'[i] && Fresh(es[i].scope, registered + {id})
      {
        FreshExtend(es[i].scope, registered, id);
      }
    case ChildCreated(child, drain) =>
      var es, es' := s.storage.entries, s'.storage.entries;
      forall i | 0 <= i < |es| && es[i].Child? ensures Ids(es[i].scope) <= Ids(s) && es'[i] == es[i] { }
      assert Ids(es'[|es|].scope) == {counter};
      forall i | 0 <= i < |es'| && es'[i].Child?
        ensures Distinct(es'[i].scope) && s'.id !in Ids(es'[i].scope)
      {
        if i < |es| {
          assert Distinct(es[i].scope) && s.id !in Ids(es[i].scope);
        } else {
          assert s.id in Ids(s);
          assert es'[i].scope == Scope(counter, 1, drain, Open([]));
        }
      }
    case Sealed =>
    case Polled(poll, invoked) =>
  }

  lemma ChildIds(s: Scope, i: nat)
    requires s.storage.Open? && i < |s.storage.entries| && s.storage.entries[i].Child?
    ensures Ids(s.storage.entries[i].scope) <= Ids(s)
  {
  }

  /** `s'` is `s` with the child at `k` replaced by one that has at most the identities `extra` more. */
  ghost predicate ChildReplaced(s: Scope, s': Scope, k: nat, extra: set<nat>) {
    && s.storage.Open? && k < |s.storage.entries| && s.storage.entries[k].Child?
    && s'.storage.Open? && |s'.storage.entries| == |s.storage.entries| && s'.storage.entries[k].Child?
    && s' == s.(storage := Open(s.storage.entries[k := s'.storage.entries[k]]))
    && Ids(s'.storage.entries[k].scope) <= Ids(s.storage.entries[k].scope) + extra
  }

  lemma ReplacedIds(s: Scope, s': Scope, k: nat, extra: set<nat>)
    requires ChildReplaced(s, s', k, extra)
    ensures Ids(s') <= Ids(s) + extra
  {
    forall x | x in Ids(s') ensures x in Ids(s) + extra {
      if x != s.id {
        var i :| 0 <= i < |s'.storage.entries| && s'.storage.entries[i].Child? && x in Ids(s'.storage.entries[i].scope);
        if i == k { ChildIds(s, k); } else { ChildIds(s, i); }
      }
    }
  }

  lemma ReplacedFresh(s: Scope, s': Scope, k: nat, registered: set<RegistrationId>, event: Event)
    requires s.storage.Open? && k < |s.storage.entries| && s.storage.entries[k].Child?
    requires s'.storage.Open? && |s'.storage.entries| == |s.storage.entries| && s'.storage.entries[k].Child?
    requires s' == s.(storage := Open(s.storage.entries[k := s'.storage.entries[k]]))
    requires Distinct(s) && Fresh(s, registered) && Fresh(s'.storage.entries[k].scope, Extended(registered, event))
    requires event.Registered? ==> event.id.scope in Ids(s.storage.entries[k].scope)
    ensures Fresh(s', Extended(registered, event))
  {
    var es, es' := s.storage.entries, s'.storage.entries;
    forall i | 0 <= i < |es'| && es'[i].Child? ensures Fresh(es'[i].scope, Extended(registered, event)) {
      if i != k && event.Registered? {
        assert Ids(es[i].scope) !! Ids(es[k].scope);
        FreshExtend(es[i].scope, registered, event.id);
      }
    }
  }

  lemma {:induction false} IdsUnique(s: Scope, s': Scope, path: seq<nat>, event: Event, counter: nat,
                                     registered: set<RegistrationId>)
    requires Evolves(s, s', path, event) && Distinct(s) && Fresh(s, registered) && Below(registered, counter)
    requires forall x :: x in Ids(s) ==> x < counter
    requires event.ChildCreated? ==> event.child == counter
    ensures Distinct(s') && Fresh(s', Extended(registered, event))
    ensures Ids(s') <= Ids(s) + (if event.ChildCreated? then {counter} else {})
    ensures event.Registered? ==> event.id !in registered && event.id.scope in Ids(s)
    decreases path
  {
    if path == [] {
      LocalIds(s, s', event, counter, registered);
    } else {
      var k, extra := path[0], if event.ChildCreated? then {counter} else {};
      ChildIds(s, k);
      IdsUnique(s.storage.entries[k].scope, s'.storage.entries[k].scope, path[1..], event, counter, registered);
      ReplacedIds(s, s', k, extra);
      ReplacedFresh(s, s', k, registered, event);
    }
  }

  // ---------------------------------------------------------------------
  // The report mirrors the registration history
  // ---------------------------------------------------------------------

  datatype Item = Task(id: RegistrationId, outcome: Outcome) | Sub(plan: Plan)

  /** What was registered, in registration order; closing never touches it. */
  datatype Plan = Plan(scope: nat, items: seq<Item>)

  function Note(plan: Plan, path: seq<nat>, event: Event): Plan
    decreases path
  {
    if path == [] then
      match event
      case Registered(id, request) =>
        var outcome := match request
                       case DeferSync(answer) => OutcomeOf(answer)
                       case DeferAsync(callPanics, _, answer, dropPanics) =>
                         if callPanics then Failed(Panicked) else AfterDrop(OutcomeOf(answer), dropPanics);
        plan.(items := plan.items + [Task(id, outcome)])
      case ChildCreated(child, _) => plan.(items := plan.items + [Sub(Plan(child, []))])
      case _ => plan
    else if path[0] < |plan.items| && plan.items[path[0]].Sub? then
      plan.(items := plan.items[path[0] := Sub(Note(plan.items[path[0]].plan, path[1..], event))])
    else plan
  }

  function NoteAll(plan: Plan, paths: seq<seq<nat>>, events: seq<Event>): Plan
    requires |paths| == |events|
  {
    if events == [] then plan
    else Note(NoteAll(plan, paths[..|paths| - 1], events[..|events| - 1]), paths[|paths| - 1], events[|events| - 1])
  }

  /** The step an item leads to, and the steps of a plan: last registered first. */
  function MirrorItem(item: Item): CloseStep
    decreases item
  {
    match item
    case Task(id, outcome) => Cleanup(id, outcome)
    case Sub(plan) => ChildClosed(Report(plan.scope, MirrorAll(plan.items)), false)
  }

  function MirrorAll(items: seq<Item>): seq<CloseStep>
    decreases items
  {
    if items == [] then [] else [MirrorItem(items[|items| - 1])] + MirrorAll(items[..|items| - 1])
  }

  function Mirror(plan: Plan): Report { Report(plan.scope, MirrorAll(plan.items)) }

  /** A step with every `alreadyClosed` flag cleared. */
  function EraseStep(step: CloseStep): CloseStep
    decreases step
  {
    match step
    case Cleanup(_, _) => step
    case ChildClosed(report, _) => ChildClosed(Report(report.scope, EraseSteps(report.steps)), false)
  }

  function EraseSteps(steps: seq<CloseStep>): seq<CloseStep>
    decreases steps
  {
    if steps == [] then [] else [EraseStep(steps[0])] + EraseSteps(steps[1..])
  }

  function Erase(report: Report): Report { Report(report.scope, EraseSteps(report.steps)) }

  lemma {:induction false} StepsOfAt(entries: seq<Entry>, i: nat)
    requires i < |entries|
    ensures |StepsOf(entries)| == |entries| && StepsOf(entries)[|entries| - 1 - i] == StepOf(entries[i])
    decreases |entries|
  {
    var last := |entries| - 1;
    if last > 0 { StepsOfAt(entries[..last], if i < last then i else 0); }
  }

  lemma {:induction false} MirrorAllAt(items: seq<Item>, i: nat)
    requires i < |items|
    ensures |MirrorAll(items)| == |items| && MirrorAll(items)[|items| - 1 - i] == MirrorItem(items[i])
    decreases |items|
  {
    var last := |items| - 1;
    if last > 0 { MirrorAllAt(items[..last], if i < last then i else 0); }
  }

  lemma {:induction false} EraseStepsAt(steps: seq<CloseStep>, k: nat)
    requires k < |steps|
    ensures |EraseSteps(steps)| == |steps| && EraseSteps(steps)[k] == EraseStep(steps[k])
    decreases |steps|
  {
    if |steps| > 1 { EraseStepsAt(steps[1..], if k > 0 then k - 1 else 0); }
  }

  /** Entries and items agree position by position. */
  ghost predicate Aligned(entries: seq<Entry>, items: seq<Item>) {
    && |entries| == |items|
    && forall i :: 0 <= i < |entries| ==> EraseStep(StepOf(entries[i])) == MirrorItem(items[i])
  }

  lemma AlignedIff(entries: seq<Entry>, items: seq<Item>)
    ensures EraseSteps(StepsOf(entries)) == MirrorAll(items) <==> Aligned(entries, items)
  {
    forall i: nat | i < |entries|
      ensures |StepsOf(entries)| == |entries| == |EraseSteps(StepsOf(entries))|
      ensures EraseSteps(StepsOf(entries))[|entries| - 1 - i] == EraseStep(StepOf(entries[i]))
    {
      StepsOfAt(entries, i);
      EraseStepsAt(StepsOf(entries), |entries| - 1 - i);
    }
    forall i: nat | i < |items|
      ensures |MirrorAll(items)| == |items| && MirrorAll(items)[|items| - 1 - i] == MirrorItem(items[i])
    {
      MirrorAllAt(items, i);
    }
    if Aligned(entries, items) {
      assert |EraseSteps(StepsOf(entries))| == |MirrorAll(items)|;
      forall k: nat | k < |entries| ensures EraseSteps(StepsOf(entries))[k] == MirrorAll(items)[k] {
        var i := |entries| - 1 - k;
        assert EraseSteps(StepsOf(entries))[|entries| - 1 - i] == MirrorAll(items)[|items| - 1 - i];
      }
    }
  }

  lemma AppendMirrors(entries: seq<Entry>, items: seq<Item>, entry: Entry, item: Item)
    requires EraseSteps(StepsOf(entries)) == MirrorAll(items) && EraseStep(StepOf(entry)) == MirrorItem(item)
    ensures EraseSteps(StepsOf(entries + [entry])) == MirrorAll(items + [item])
  {
    AlignedIff(entries, items);
    AlignedIff(entries + [entry], items + [item]);
  }

  lemma {:induction false} MirrorKept(s: Scope, s': Scope, path: seq<nat>, event: Event, plan: Plan)
    requires Evolves(s, s', path, event) && Erase(Promised(s)) == Mirror(plan)
    ensures Erase(Promised(s')) == Mirror(Note(plan, path, event))
    decreases path
  {
    if path == [] {
      match event
      case Registered(id, request) =>
        AppendMirrors(s.storage.entries, plan.items, EntryFor(id, request), Note(plan, path, event).items[|plan.items|]);
      case ChildCreated(child, drain) =>
        EmptyScope(child, drain);
        AppendMirrors(s.storage.entries, plan.items, Child(Scope(child, 1, drain, Open([]))), Sub(Plan(child, [])));
      case Sealed => BeginKeeps(s);
      case Polled(poll, invoked) =>
    } else {
      var k, es, es' := path[0], s.storage.entries, s'.storage.entries;
      AlignedIff(es, plan.items);
      assert EraseStep(StepOf(es[k])) == MirrorItem(plan.items[k]);
      MirrorKept(es[k].scope, es'[k].scope, path[1..], event, plan.items[k].plan);
      AlignedIff(es', Note(plan, path, event).items);
    }
  }

  // ---------------------------------------------------------------------
  // Whole lives
  // ---------------------------------------------------------------------

  ghost predicate NoRepeats(ids: seq<RegistrationId>) {
    forall i, j :: 0 <= i < j < |ids| ==> ids[i] != ids[j]
  }

  ghost function Elements(ids: seq<RegistrationId>): set<RegistrationId> { set r | r in ids }

  ghost predicate LifeInv(w: World) {
    && (forall r :: Count(w.registered, r) == Count(w.invoked, r) + Count(Uninvoked(w.root), r))
    && NoRepeats(w.registered)
    && Distinct(w.root)
    && Fresh(w.root, Elements(w.registered))
    && Below(Elements(w.registered), w.counter)
    && forall x :: x in Ids(w.root) ==> x < w.counter
  }

  lemma LifeInvStep(w: World, w': World, path: seq<nat>, event: Event)
    requires LifeInv(w) && WorldStep(w, w', path, event)
    ensures LifeInv(w')
  {
    forall r ensures Count(w'.registered, r) == Count(w'.invoked, r) + Count(Uninvoked(w'.root), r) {
      OwedConserved(w.root, w'.root, path, event, r);
    }
    var before := Elements(w.registered);
    IdsUnique(w.root, w'.root, path, event, w.counter, before);
    assert Elements(w'.registered) == Extended(before, event);
  }

  /** A scope that was just created owes and has invoked nothing. */
  lemma LifeInvStart(w: World)
    requires Initial(w)
    ensures LifeInv(w) && Erase(Promised(w.root)) == Mirror(Plan(w.root.id, []))
  {
    EmptyScope(w.root.id, w.root.drain);
  }

  /** A history of the root scope alone: what was registered and invoked, and the plan it mirrors. */
  ghost predicate HistoryOk(root: Scope, registered: seq<RegistrationId>, invoked: seq<RegistrationId>, plan: Plan) {
    LifeInv(World(root, root.id + 1, registered, invoked)) && Erase(Promised(root)) == Mirror(plan)
  }

  lemma RootStep(w: World, root': Scope, event: Event)
    requires LifeInv(w) && Local(w.root, root', event) && !event.ChildCreated?
    ensures root'.id == w.root.id
    ensures LifeInv(World(root', w.counter, w.registered + NewlyRegistered(event), w.invoked + NewlyInvoked(event)))
  {
    LifeInvStep(
      w, World(root', w.counter, w.registered + NewlyRegistered(event), w.invoked + NewlyInvoked(event)), [], event);
  }

  lemma HistoryStep(root: Scope, root': Scope, event: Event, registered: seq<RegistrationId>, invoked: seq<RegistrationId>, plan: Plan)
    requires HistoryOk(root, registered, invoked, plan) && Local(root, root', event) && !event.ChildCreated?
    ensures HistoryOk(root', registered + NewlyRegistered(event), invoked + NewlyInvoked(event), Note(plan, [], event))
  {
    assert LifeInv(World(root', root'.id + 1, registered + NewlyRegistered(event), invoked + NewlyInvoked(event))) by {
      RootStep(World(root, root.id + 1, registered, invoked), root', event);
    }
    assert Erase(Promised(root')) == Mirror(Note(plan, [], event)) by { MirrorKept(root, root', [], event, plan); }
  }

  lemma {:induction false} LifeInvAlways(worlds: seq<World>, paths: seq<seq<nat>>, events: seq<Event>)
    requires IsLife(worlds, paths, events)
    ensures LifeInv(worlds[|events|])
    decreases |events|
  {
    LifeInvStart(worlds[0]);
    if events != [] {
      var n := |events| - 1;
      LifeInvAlways(worlds[..n + 1], paths[..n], events[..n]);
      LifeInvStep(worlds[n], worlds[n + 1], paths[n], events[n]);
    }
  }

  lemma {:induction false} MirrorAlways(worlds: seq<World>, paths: seq<seq<nat>>, events: seq<Event>)
    requires IsLife(worlds, paths, events)
    ensures Erase(Promised(worlds[|events|].root)) == Mirror(NoteAll(Plan(worlds[0].root.id, []), paths, events))
    decreases |events|
  {
    EmptyScope(worlds[0].root.id, worlds[0].root.drain);
    if events != [] {
      var n := |events| - 1;
      MirrorAlways(worlds[..n + 1], paths[..n], events[..n]);
      MirrorKept(worlds[n].root, worlds[n + 1].root, paths[n], events[n],
                 NoteAll(Plan(worlds[0].root.id, []), paths[..n], events[..n]));
    }
  }

  /** However a tree is used and however its teardown is scheduled, registration
      identities never repeat, no callback is invoked twice or without having been
      registered, and once the root is closed every one has been invoked. */
  lemma InvokedExactlyOnce(worlds: seq<World>, paths: seq<seq<nat>>, events: seq<Event>)
    requires IsLife(worlds, paths, events)
    ensures var w := worlds[|events|];
            && NoRepeats(w.registered) && NoRepeats(w.invoked)
            && (forall r :: r in w.invoked ==> r in w.registered)
            && (w.root.storage.Closed? ==> forall r :: r in w.registered ==> r in w.invoked)
  {
    LifeInvAlways(worlds, paths, events);
    InvokedOnce(worlds[|events|]);
  }

  lemma InvokedOnce(w: World)
    requires LifeInv(w)
    ensures NoRepeats(w.registered) && NoRepeats(w.invoked)
    ensures forall r :: r in w.invoked ==> r in w.registered
    ensures w.root.storage.Closed? ==> forall r :: r in w.registered ==> r in w.invoked
  {
    forall i, j | 0 <= i < j < |w.invoked| ensures w.invoked[i] != w.invoked[j] {
      if w.invoked[i] == w.invoked[j] {
        TwiceCounts(w.invoked, i, j);
        OnceCounts(w.registered, w.invoked[i]);
      }
    }
    forall r | r in w.invoked ensures r in w.registered { assert Count(w.invoked, r) > 0; }
    if w.root.storage.Closed? {
      forall r | r in w.registered ensures r in w.invoked { assert Count(w.registered, r) > 0; }
    }
  }

  lemma {:induction false} OnceCounts(s: seq<RegistrationId>, r: RegistrationId)
    requires NoRepeats(s)
    ensures Count(s, r) <= 1
    decreases |s|
  {
    if s != [] {
      assert s == [s[0]] + s[1..];
      OnceCounts(s[1..], r);
      if s[0] == r { assert r !in s[1..]; }
    }
  }

  /** The final report lists, at every level, the registrations and children of
      that scope in exact reverse order of registration and creation. */
  lemma ReportMirrorsRegistrations(worlds: seq<World>, paths: seq<seq<nat>>, events: seq<Event>)
    requires IsLife(worlds, paths, events) && worlds[|events|].root.storage.Closed?
    ensures Erase(worlds[|events|].root.storage.report)
         == Mirror(NoteAll(Plan(worlds[0].root.id, []), paths, events))
  {
    MirrorAlways(worlds, paths, events);
  }
}
