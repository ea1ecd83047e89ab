/** Scope visibility, the service registry, and resolving a component's
    requirements against it. */
module Registries {
  import opened Common
  import opened Lifecycles

  // ---------------------------------------------------------------------
  // Scopes
  // ---------------------------------------------------------------------

  /** Scope nodes in creation order; a node's position is its identity. */
  datatype ScopeNode = ScopeNode(id: string, parent: Option<nat>, realm: nat)

  type Forest = seq<ScopeNode>

  /** Children follow their parents and share their realm; each root has its own. */
  predicate ForestOk(f: Forest) {
    forall i :: 0 <= i < |f| ==>
                  match f[i].parent
                  case None => f[i].realm == i
                  case Some(p) => p < i && f[i].realm == f[p].realm
  }

  function AddRoot(f: Forest, id: string): Forest { f + [ScopeNode(id, None, |f|)] }

  /** A child may not reuse its parent's diagnostic identity. */
  function AddChild(f: Forest, id: string, parent: nat): (r: Option<Forest>)
    requires parent < |f|
  {
    if id == f[parent].id then None else Some(f + [ScopeNode(id, Some(parent), f[parent].realm)])
  }

  /** `a` is `n` or one of its ancestors. */
  predicate Above(f: Forest, a: nat, n: nat)
    requires ForestOk(f) && n < |f|
    decreases n
  {
    a == n || match f[n].parent case None => false case Some(p) => Above(f, a, p)
  }

  lemma {:induction false} AboveSharesRealm(f: Forest, a: nat, n: nat)
    requires ForestOk(f) && a < |f| && n < |f| && Above(f, a, n)
    ensures f[a].realm == f[n].realm
    decreases n
  {
    if a != n { AboveSharesRealm(f, a, f[n].parent.value); }
  }

  /** Growing the forest keeps it well formed and changes no visibility. */
  lemma {:induction false} VisibilityFixed(f: Forest, g: Forest, a: nat, n: nat)
    requires ForestOk(f) && ForestOk(g) && n < |f| && f <= g
    ensures Above(f, a, n) <==> Above(g, a, n)
    decreases n
  {
    if a != n && f[n].parent.Some? { VisibilityFixed(f, g, a, f[n].parent.value); }
  }

  lemma GrowthOk(f: Forest, id: string, parent: nat)
    requires ForestOk(f)
    ensures ForestOk(AddRoot(f, id))
    ensures parent < |f| && AddChild(f, id, parent).Some? ==> ForestOk(AddChild(f, id, parent).value)
  {
  }

  /** The realm shortcut and the walk up the parents decide exactly ancestry. */
  method IsVisibleFrom(f: Forest, owner: nat, consumer: nat) returns (visible: bool)
    requires ForestOk(f) && owner < |f| && consumer < |f|
    ensures visible <==> Above(f, owner, consumer)
  {
    if f[owner].realm != f[consumer].realm {
      if Above(f, owner, consumer) { AboveSharesRealm(f, owner, consumer); }
      return false;
    }
    var node: Option<nat> := Some(consumer);
    while node.Some?
      invariant node.Some? ==> node.value < |f| && (Above(f, owner, consumer) <==> Above(f, owner, node.value))
      invariant node.None? ==> !Above(f, owner, consumer)
      decreases if node.Some? then node.value + 1 else 0
    {
      if node.value == owner { return true; }
      node := f[node.value].parent;
    }
    visible := false;
  }

  // ---------------------------------------------------------------------
  // Contracts
  // ---------------------------------------------------------------------

  /** A contract is a Rust type identity. */
  type Contract = nat

  type Contracts = map<string, Contract>

  datatype Requirement = Requirement(service: string, contract: Contract)

  predicate Conflicts(contracts: Contracts, r: Requirement) {
    r.service in contracts && contracts[r.service] != r.contract
  }

  function Fixed(contracts: Contracts, r: Requirement): Contracts {
    if r.service in contracts then contracts else contracts[r.service := r.contract]
  }

  /** A fixed contract never changes. */
  predicate Extends(before: Contracts, after: Contracts) {
    forall s :: s in before ==> s in after && after[s] == before[s]
  }

  /** The contracts after fixing requirements in order up to the first conflict. */
  function FixAll(contracts: Contracts, requirements: seq<Requirement>): Contracts
    decreases |requirements|
  {
    if requirements == [] || Conflicts(contracts, requirements[0]) then contracts
    else FixAll(Fixed(contracts, requirements[0]), requirements[1..])
  }

  /** The position of the first conflicting requirement, or the number of requirements. */
  function FirstConflict(contracts: Contracts, requirements: seq<Requirement>): (n: nat)
    ensures n <= |requirements|
    decreases |requirements|
  {
    if requirements == [] || Conflicts(contracts, requirements[0]) then 0
    else 1 + FirstConflict(Fixed(contracts, requirements[0]), requirements[1..])
  }

  /** Every requirement agrees with what is fixed and with the requirements before it. */
  predicate Agrees(contracts: Contracts, requirements: seq<Requirement>) {
    && (forall i :: 0 <= i < |requirements| ==> !Conflicts(contracts, requirements[i]))
    && forall i, j :: 0 <= i < j < |requirements| && requirements[i].service == requirements[j].service ==>
                        requirements[i].contract == requirements[j].contract
  }

  /** Fixing requirements one by one meets no conflict exactly when they agree from the start. */
  lemma {:induction false} NoConflictIff(contracts: Contracts, requirements: seq<Requirement>)
    ensures FirstConflict(contracts, requirements) == |requirements| <==> Agrees(contracts, requirements)
    decreases |requirements|
  {
    if requirements != [] && !Conflicts(contracts, requirements[0]) {
      var first, rest := requirements[0], requirements[1..];
      NoConflictIff(Fixed(contracts, first), rest);
      if Agrees(contracts, requirements) {
        forall i | 0 <= i < |rest| ensures !Conflicts(Fixed(contracts, first), rest[i]) {
          assert rest[i] == requirements[i + 1];
        }
        forall i, j | 0 <= i < j < |rest| && rest[i].service == rest[j].service ensures rest[i].contract == rest[j].contract {
          assert rest[i] == requirements[i + 1] && rest[j] == requirements[j + 1];
        }
      }
    }
  }

  /** Fixing requirements leaves no trace exactly when every one ahead of the
      first conflict was fixed already. */
  lemma {:induction false} NoTraceIff(contracts: Contracts, requirements: seq<Requirement>)
    ensures Extends(contracts, FixAll(contracts, requirements))
    ensures FixAll(contracts, requirements) == contracts <==>
              forall i :: 0 <= i < FirstConflict(contracts, requirements) ==> requirements[i].service in contracts
    decreases |requirements|
  {
    if requirements != [] && !Conflicts(contracts, requirements[0]) {
      var first, rest := requirements[0], requirements[1..];
      var fixed := Fixed(contracts, first);
      NoTraceIff(fixed, rest);
      if first.service in contracts {
        forall i | 0 <= i < FirstConflict(contracts, requirements) && i > 0 ensures requirements[i] == rest[i - 1] { }
        forall i | 0 <= i < FirstConflict(fixed, rest) ensures rest[i] == requirements[i + 1] { }
      } else {
        assert first.service in FixAll(contracts, requirements);
      }
    }
  }

  /** So a refused inventory can leave a trace. */
  lemma RefusalLeavesTrace()
    ensures var contracts := map["b" := 1]; var requirements := [Requirement("a", 0), Requirement("b", 0)];
            !Agrees(contracts, requirements) && FixAll(contracts, requirements) == map["b" := 1, "a" := 0] != contracts
  {
    var contracts: Contracts := map["b" := 1];
    var requirements := [Requirement("a", 0), Requirement("b", 0)];
    assert Conflicts(contracts, requirements[1]);
    var fixed := Fixed(contracts, requirements[0]);
    assert requirements[1..] == [requirements[1]] && Conflicts(fixed, requirements[1]);
    assert FixAll(fixed, requirements[1..]) == fixed;
    assert "a" in fixed && "a" !in contracts;
  }

  // ---------------------------------------------------------------------
  // Providers
  // ---------------------------------------------------------------------

  /** `marker` identifies the provider and its gate; `value` is the type of the stored value. */
  datatype Entry = Entry(service: string, contract: Contract, marker: nat, owner: nat, value: Contract)

  type Providers = map<nat, Entry>

  datatype Error =
    | ProviderOwnerNotActive(state: StateKind)
    | ConsumerNotStarting(state: StateKind)
    | ActivationMismatch(component: Epoch, effects: Epoch)
    | ConsumerScopeNotOpen
    | ContractTypeMismatch(service: string, expected: Contract, received: Contract)
    | ScopeRefused
    | UnknownProvider(id: nat)
    | ProviderUnavailable(id: nat)
    | ProviderDoesNotSatisfy(id: nat, required: string, provided: string)
    | ValueTypeMismatch(id: nat, expected: Contract, stored: Contract)

  datatype Result<+T> = Ok(value: T) | Err(error: Error)

  /** Listed for one requirement: the service and contract, a provider whose gate
      and activity are open, and an owner at or above the consumer. */
  predicate Listed(providers: Providers, shut: set<nat>, r: Requirement, f: Forest, consumer: nat, id: nat)
    requires ForestOk(f) && consumer < |f|
  {
    && id in providers && providers[id].service == r.service && providers[id].contract == r.contract
    && providers[id].marker !in shut && Above(f, providers[id].owner, consumer)
  }

  /** Every stored value has its entry's contract, and that is the one fixed for its service. */
  predicate Sound(contracts: Contracts, providers: Providers) {
    forall id :: id in providers ==>
                   var e := providers[id];
                   e.value == e.contract && e.service in contracts && contracts[e.service] == e.contract
  }

  predicate MarkersDistinct(providers: Providers) {
    forall i, j :: i in providers && j in providers && providers[i].marker == providers[j].marker ==> i == j
  }

  predicate OwnersIn(providers: Providers, f: Forest) {
    forall id :: id in providers ==> providers[id].owner < |f|
  }

  predicate Increasing(ids: seq<nat>) { forall i, j :: 0 <= i < j < |ids| ==> ids[i] < ids[j] }

  predicate IsLeast(ids: set<nat>, m: nat) { m in ids && forall other :: other in ids ==> m <= other }

  lemma {:induction false} LeastExists(ids: set<nat>)
    requires ids != {}
    ensures exists m :: IsLeast(ids, m)
    decreases |ids|
  {
    var x :| x in ids;
    var rest := ids - {x};
    if rest == {} {
      assert ids == {x};
      assert IsLeast(ids, x);
    } else {
      LeastExists(rest);
      var m :| IsLeast(rest, m);
      assert ids == rest + {x};
      assert IsLeast(ids, if m < x then m else x);
    }
  }

  /** What the registry itself keeps. Whether a provider's own scope has been closed
      or cancelled is not among it: operations observe that as the set `closed`. */
  datatype Registry = Registry(contracts: Contracts, providers: Providers, revoked: set<nat>)

  const NEW_REGISTRY: Registry := Registry(map[], map[], {})

  /** A published provider's gate has not been revoked. */
  predicate RegistryOk(r: Registry) {
    && Sound(r.contracts, r.providers) && MarkersDistinct(r.providers)
    && forall id :: id in r.providers ==> r.providers[id].marker !in r.revoked
  }

  function ProvideRefusal(r: Registry, owner: State, effects: Epoch, requirement: Requirement, admitted: bool): Option<Error> {
    if !owner.Active? then Some(ProviderOwnerNotActive(Kind(owner)))
    else if owner.activation != effects then Some(ActivationMismatch(owner.activation, effects))
    else if Conflicts(r.contracts, requirement) then
      Some(ContractTypeMismatch(requirement.service, r.contracts[requirement.service], requirement.contract))
    else if !admitted then Some(ScopeRefused)
    else None
  }

  function Published(r: Registry, requirement: Requirement, id: nat, marker: nat, owner: nat): Registry {
    r.(contracts := Fixed(r.contracts, requirement),
       providers := r.providers[id := Entry(requirement.service, requirement.contract, marker, owner, requirement.contract)])
  }

  /** The marked entry goes and its gate is revoked; an unknown marker changes nothing. */
  function Withdrawn(r: Registry, marker: nat): Registry {
    if exists id :: id in r.providers && r.providers[id].marker == marker then
      r.(providers := map id | id in r.providers && r.providers[id].marker != marker :: r.providers[id],
         revoked := r.revoked + {marker})
    else r
  }

  function Markers(providers: Providers): set<nat> { set id | id in providers :: providers[id].marker }

  function Dropped(r: Registry): Registry { r.(providers := map[], revoked := r.revoked + Markers(r.providers)) }

  /** Looking a visible provider up fixes the requirement's contract, whether or not it is bound. */
  function LookedUp(r: Registry, requirement: Requirement, id: nat, f: Forest, consumer: nat): Contracts
    requires ForestOk(f) && consumer < |f|
  {
    if id in r.providers && Above(f, r.providers[id].owner, consumer) && !Conflicts(r.contracts, requirement)
    then Fixed(r.contracts, requirement) else r.contracts
  }

  predicate Eligible(state: State, effects: Epoch, open: bool) { state.Starting? && state.activation == effects && open }

  predicate CanBind(r: Registry, closed: set<nat>, state: State, effects: Epoch, open: bool, requirement: Requirement, id: nat,
                    f: Forest, consumer: nat)
    requires ForestOk(f) && consumer < |f|
  {
    && Eligible(state, effects, open)
    && Listed(r.providers, r.revoked + closed, requirement, f, consumer, id)
  }

  class ServiceRegistry {
    var contracts: Contracts
    var providers: Providers
    /** Gates this registry has revoked; handles keep consulting theirs. */
    var revoked: set<nat>

    ghost predicate Valid()
      reads this
    {
      RegistryOk(View())
    }

    ghost function View(): Registry
      reads this
    {
      Registry(contracts, providers, revoked)
    }

    constructor ()
      ensures Valid() && View() == NEW_REGISTRY
    {
      contracts, providers, revoked := map[], map[], {};
    }

    /** Check a contract against the fixed one, fixing it when the service is new. */
    method EnsureContract(r: Requirement) returns (refusal: Option<Error>)
      requires Valid()
      modifies this`contracts
      ensures Valid() && Extends(old(contracts), contracts)
      ensures refusal.Some? <==> Conflicts(old(contracts), r)
      ensures refusal.Some? ==>
                && refusal.value == ContractTypeMismatch(r.service, old(contracts)[r.service], r.contract)
                && contracts == old(contracts)
      ensures refusal.None? ==> contracts == Fixed(old(contracts), r) && contracts[r.service] == r.contract
    {
      if r.service in contracts && contracts[r.service] != r.contract {
        return Some(ContractTypeMismatch(r.service, contracts[r.service], r.contract));
      }
      if r.service !in contracts { contracts := contracts[r.service := r.contract]; }
      refusal := None;
    }

    /** Publish a provider of an active owner once its withdrawal is admitted to the
        owner's scope. Registration identities and markers are never reused. */
    method Provide(owner: State, effects: Epoch, scope: nat, r: Requirement, id: nat, marker: nat, admitted: bool)
      returns (refusal: Option<Error>)
      requires Valid() && id !in providers && marker !in revoked + Markers(providers)
      modifies this`contracts, this`providers
      ensures Valid() && Extends(old(contracts), contracts)
      ensures refusal == ProvideRefusal(old(View()), owner, effects, r, admitted)
      ensures View() == if refusal.None? then Published(old(View()), r, id, marker, scope) else old(View())
    {
      if !owner.Active? { return Some(ProviderOwnerNotActive(Kind(owner))); }
      if owner.activation != effects { return Some(ActivationMismatch(owner.activation, effects)); }
      if r.service in contracts && contracts[r.service] != r.contract {
        return Some(ContractTypeMismatch(r.service, contracts[r.service], r.contract));
      }
      if !admitted { return Some(ScopeRefused); }
      if r.service !in contracts { contracts := contracts[r.service := r.contract]; }
      providers := providers[id := Entry(r.service, r.contract, marker, scope, r.contract)];
      refusal := None;
    }

    /** Discoverable providers of one service, in identity order. */
    method Candidates(requirement: Requirement, closed: set<nat>, f: Forest, consumer: nat) returns (r: Result<seq<nat>>)
      requires Valid() && ForestOk(f) && consumer < |f| && OwnersIn(providers, f)
      modifies this`contracts
      ensures Valid() && contracts == FixAll(old(contracts), [requirement])
      ensures r.Err? <==> Conflicts(old(contracts), requirement)
      ensures r.Ok? ==> Increasing(r.value)
                        && forall id :: id in r.value <==> Listed(providers, revoked + closed, requirement, f, consumer, id)
    {
      assert [requirement][1..] == [];
      var refusal := EnsureContract(requirement);
      if refusal.Some? { return Err(refusal.value); }
      var ids := Filter(providers, revoked + closed, requirement.service, None, f, consumer);
      r := Ok(ids);
    }

    /** Every requirement with its candidates, under one lock; refused exactly when
        the requirements disagree with what is fixed or among themselves. */
    method Inventory(requirements: seq<Requirement>, closed: set<nat>, f: Forest, consumer: nat) returns (r: Result<seq<seq<nat>>>)
      requires Valid() && ForestOk(f) && consumer < |f| && OwnersIn(providers, f)
      modifies this`contracts
      ensures Valid() && contracts == FixAll(old(contracts), requirements)
      ensures r.Ok? <==> Agrees(old(contracts), requirements)
      ensures r.Ok? ==> |r.value| == |requirements|
                        && forall i :: 0 <= i < |requirements| ==>
                                         Increasing(r.value[i])
                                         && forall id :: id in r.value[i] <==> Listed(providers, revoked + closed, requirements[i], f, consumer, id)
      ensures r.Err? ==> r.error.ContractTypeMismatch?
    {
      var refusal := FixContracts(requirements);
      if refusal.Some? { return Err(refusal.value); }
      var groups := GroupCandidates(providers, revoked + closed, requirements, f, consumer);
      r := Ok(groups);
    }

    /** Requirements ahead of a conflicting one keep the contract they fixed. */
    method FixContracts(requirements: seq<Requirement>) returns (refusal: Option<Error>)
      requires Valid()
      modifies this`contracts
      ensures Valid() && contracts == FixAll(old(contracts), requirements)
      ensures refusal.None? <==> Agrees(old(contracts), requirements)
      ensures refusal.Some? ==> refusal.value.ContractTypeMismatch?
    {
      NoConflictIff(contracts, requirements);
      var i := 0;
      while i < |requirements|
        invariant 0 <= i <= |requirements| && Valid()
        invariant FixAll(old(contracts), requirements) == FixAll(contracts, requirements[i..])
        invariant FirstConflict(old(contracts), requirements) == i + FirstConflict(contracts, requirements[i..])
      {
        assert requirements[i..][0] == requirements[i] && requirements[i..][1..] == requirements[i + 1..];
        refusal := EnsureContract(requirements[i]);
        if refusal.Some? { return; }
        i := i + 1;
      }
      refusal := None;
    }

    /** Look one provider up under the lock. A stored value never has the wrong type. */
    method Binding(requirement: Requirement, id: nat, closed: set<nat>, f: Forest, consumer: nat) returns (r: Result<nat>)
      requires Valid() && ForestOk(f) && consumer < |f| && OwnersIn(providers, f)
      modifies this`contracts
      ensures Valid() && contracts == LookedUp(old(View()), requirement, id, f, consumer)
      ensures r.Err? ==> !r.error.ValueTypeMismatch?
      ensures r.Ok? <==> Listed(providers, revoked + closed, requirement, f, consumer, id)
      ensures r.Ok? ==> r.value == id && providers[id].value == requirement.contract
    {
      if id !in providers { return Err(UnknownProvider(id)); }
      var visible := IsVisibleFrom(f, providers[id].owner, consumer);
      if !visible { return Err(ProviderUnavailable(id)); }
      var refusal := EnsureContract(requirement);
      if refusal.Some? { return Err(refusal.value); }
      var entry := providers[id];
      if entry.service != requirement.service {
        return Err(ProviderDoesNotSatisfy(id, requirement.service, entry.service));
      }
      if entry.marker in revoked || entry.marker in closed { return Err(ProviderUnavailable(id)); }
      if entry.value != requirement.contract {
        return Err(ValueTypeMismatch(id, requirement.contract, entry.contract));
      }
      r := Ok(id);
    }

    /** Bind a starting consumer: it succeeds exactly for the consumer's own open
        activation and a listed provider that is still available when it is looked at
        again after the lock; `shut` holds the gates shut by then. */
    method Bind(state: State, effects: Epoch, open: bool, requirement: Requirement, id: nat, closed: set<nat>, shut: set<nat>,
                f: Forest, consumer: nat)
      returns (r: Result<Entry>)
      requires Valid() && ForestOk(f) && consumer < |f| && OwnersIn(providers, f)
      modifies this`contracts
      ensures Valid()
      ensures contracts == if Eligible(state, effects, open) then LookedUp(old(View()), requirement, id, f, consumer) else old(contracts)
      ensures r.Ok? <==>
                && CanBind(View(), closed, state, effects, open, requirement, id, f, consumer)
                && providers[id].marker !in shut
      ensures r.Ok? ==> r.value == providers[id] && r.value.value == requirement.contract
      ensures r.Err? ==> !r.error.ValueTypeMismatch?
    {
      if !state.Starting? { return Err(ConsumerNotStarting(Kind(state))); }
      if state.activation != effects { return Err(ActivationMismatch(state.activation, effects)); }
      if !open { return Err(ConsumerScopeNotOpen); }
      var bound := Binding(requirement, id, closed, f, consumer);
      if bound.Err? { return Err(bound.error); }
      if providers[id].marker in shut { return Err(ProviderUnavailable(id)); }
      r := Ok(providers[id]);
    }

    /** Remove the entry carrying this marker, if it is still there, and revoke its gate. */
    method Withdraw(marker: nat)
      requires Valid()
      modifies this`providers, this`revoked
      ensures Valid() && View() == Withdrawn(old(View()), marker)
    {
      var left := providers.Keys;
      while left != {}
        invariant left <= providers.Keys && providers == old(providers) && revoked == old(revoked)
        invariant forall id :: id in providers && id !in left ==> providers[id].marker != marker
        decreases left
      {
        var id :| id in left;
        if providers[id].marker == marker {
          providers := providers - {id};
          revoked := revoked + {marker};
          return;
        }
        left := left - {id};
      }
    }

    /** The registry is dropped: every provider's gate is revoked and nothing stays listed. */
    method RevokeAll()
      requires Valid()
      modifies this`providers, this`revoked
      ensures Valid() && View() == Dropped(old(View()))
    {
      var left, done := providers.Keys, {};
      while left != {}
        invariant left + done == providers.Keys && providers == old(providers) && done <= providers.Keys
        invariant revoked == old(revoked) + set id | id in done :: providers[id].marker
        decreases left
      {
        var id :| id in left;
        revoked := revoked + {providers[id].marker};
        left, done := left - {id}, done + {id};
      }
      providers := map[];
    }
  }

  predicate Picked(providers: Providers, shut: set<nat>, service: string, contract: Option<Contract>, f: Forest, consumer: nat, id: nat)
    requires ForestOk(f) && consumer < |f|
  {
    && id in providers && providers[id].service == service && (contract.Some? ==> providers[id].contract == contract.value)
    && providers[id].marker !in shut && Above(f, providers[id].owner, consumer)
  }

  method Pick(providers: Providers, shut: set<nat>, service: string, contract: Option<Contract>, f: Forest, consumer: nat, id: nat)
    returns (picked: bool)
    requires ForestOk(f) && consumer < |f| && id in providers && providers[id].owner < |f|
    ensures picked <==> Picked(providers, shut, service, contract, f, consumer, id)
  {
    var e := providers[id];
    var visible := IsVisibleFrom(f, e.owner, consumer);
    picked := e.service == service && (contract.None? || e.contract == contract.value) && e.marker !in shut && visible;
  }

  method TakeLeast(ids: set<nat>) returns (least: nat)
    requires ids != {}
    ensures IsLeast(ids, least)
  {
    LeastExists(ids);
    least :| IsLeast(ids, least);
  }

  method Filter(providers: Providers, shut: set<nat>, service: string, contract: Option<Contract>, f: Forest, consumer: nat)
    returns (ids: seq<nat>)
    requires ForestOk(f) && consumer < |f| && OwnersIn(providers, f)
    ensures Increasing(ids)
    ensures forall id :: id in ids <==> Picked(providers, shut, service, contract, f, consumer, id)
  {
    ids := [];
    var left := providers.Keys;
    while left != {}
      invariant left <= providers.Keys
      invariant forall i, later :: 0 <= i < |ids| && later in left ==> ids[i] < later
      invariant Increasing(ids)
      invariant forall id :: id in ids <==> id !in left && Picked(providers, shut, service, contract, f, consumer, id)
      decreases left
    {
      var id := TakeLeast(left);
      var picked := Pick(providers, shut, service, contract, f, consumer, id);
      if picked { ids := ids + [id]; }
      left := left - {id};
    }
  }

  method GroupCandidates(providers: Providers, shut: set<nat>, requirements: seq<Requirement>, f: Forest, consumer: nat)
    returns (groups: seq<seq<nat>>)
    requires ForestOk(f) && consumer < |f| && OwnersIn(providers, f)
    ensures |groups| == |requirements|
    ensures forall i :: 0 <= i < |requirements| ==>
                          && Increasing(groups[i])
                          && forall id :: id in groups[i] <==> Listed(providers, shut, requirements[i], f, consumer, id)
  {
    groups := [];
    var i := 0;
    while i < |requirements|
      invariant 0 <= i <= |requirements| && |groups| == i
      invariant forall k :: 0 <= k < i ==>
                              && Increasing(groups[k])
                              && forall id :: id in groups[k] <==> Listed(providers, shut, requirements[k], f, consumer, id)
    {
      var ids := Filter(providers, shut, requirements[i].service, Some(requirements[i].contract), f, consumer);
      groups := groups + [ids];
      i := i + 1;
    }
  }

  // ---------------------------------------------------------------------
  // Resolving a component's requirements
  // ---------------------------------------------------------------------

  datatype Issue =
    | MissingProvider(service: string)
    | Unassigned(service: string, candidate: nat)
    | Ambiguous(service: string, candidates: seq<nat>)
    | AssignedProviderUnavailable(service: string, wanted: nat, available: seq<nat>)

  datatype Resolution = Chosen(providers: seq<nat>) | Pending(issues: seq<Issue>)

  type Assignments = map<string, nat>

  /** The requirement's assignment names one of its candidates. */
  predicate Satisfied(r: Requirement, candidates: seq<nat>, assignments: Assignments) {
    r.service in assignments && assignments[r.service] in candidates
  }

  /** The one issue an unsatisfied requirement raises. */
  predicate Raises(r: Requirement, candidates: seq<nat>, assignments: Assignments, x: Issue) {
    match x
    case AssignedProviderUnavailable(service, wanted, available) =>
      && service == r.service && service in assignments && wanted == assignments[service]
      && available == candidates && wanted !in candidates
    case MissingProvider(service) => service == r.service && service !in assignments && candidates == []
    case Unassigned(service, candidate) => service == r.service && service !in assignments && candidates == [candidate]
    case Ambiguous(service, listed) =>
      service == r.service && service !in assignments && listed == candidates && |candidates| > 1
  }

  method ResolveOne(r: Requirement, candidates: seq<nat>, assignments: Assignments) returns (issue: Option<Issue>)
    ensures issue.None? <==> Satisfied(r, candidates, assignments)
    ensures issue.Some? ==> Raises(r, candidates, assignments, issue.value)
  {
    if r.service in assignments {
      if assignments[r.service] in candidates { return None; }
      return Some(AssignedProviderUnavailable(r.service, assignments[r.service], candidates));
    }
    if |candidates| == 0 { return Some(MissingProvider(r.service)); }
    if |candidates| == 1 { return Some(Unassigned(r.service, candidates[0])); }
    issue := Some(Ambiguous(r.service, candidates));
  }

  /** Ready exactly when every requirement's assigned provider is a candidate, and
      then naming that provider for each; otherwise exactly the issues raised. */
  method Resolve(requirements: seq<Requirement>, groups: seq<seq<nat>>, assignments: Assignments) returns (r: Resolution)
    requires |groups| == |requirements|
    ensures r.Chosen? <==> forall i :: 0 <= i < |requirements| ==> Satisfied(requirements[i], groups[i], assignments)
    ensures r.Chosen? ==> |r.providers| == |requirements|
                          && forall i :: 0 <= i < |requirements| ==>
                                           Satisfied(requirements[i], groups[i], assignments)
                                           && r.providers[i] == assignments[requirements[i].service]
    ensures r.Pending? ==>
              forall x :: x in r.issues <==>
                            exists i :: 0 <= i < |requirements| && Raises(requirements[i], groups[i], assignments, x)
  {
    var providers: seq<nat> := [];
    var issues: seq<Issue> := [];
    var i := 0;
    while i < |requirements|
      invariant 0 <= i <= |requirements|
      invariant issues == [] <==> forall k :: 0 <= k < i ==> Satisfied(requirements[k], groups[k], assignments)
      invariant issues == [] ==> |providers| == i
                                 && forall k :: 0 <= k < i ==> Satisfied(requirements[k], groups[k], assignments)
                                                               && providers[k] == assignments[requirements[k].service]
      invariant forall x :: x in issues <==> exists k :: 0 <= k < i && Raises(requirements[k], groups[k], assignments, x)
    {
      var issue := ResolveOne(requirements[i], groups[i], assignments);
      if issue.None? {
        providers := providers + [assignments[requirements[i].service]];
      } else {
        issues := issues + [issue.value];
      }
      i := i + 1;
    }
    r := if issues == [] then Chosen(providers) else Resolution.Pending(issues);
  }

  /** Resolve against the registry, then bind every chosen provider. This succeeds
      exactly when the requirements agree and each assigned provider is listed, so
      with nothing changed in between every bind of a ready resolution succeeds. */
  method ResolveAndBind(registry: ServiceRegistry, requirements: seq<Requirement>, closed: set<nat>, f: Forest, consumer: nat, assignments: Assignments)
    returns (bound: Option<seq<nat>>)
    requires registry.Valid() && ForestOk(f) && consumer < |f| && OwnersIn(registry.providers, f)
    modifies registry`contracts
    ensures registry.Valid()
    ensures bound.Some? <==>
              && Agrees(old(registry.contracts), requirements)
              && forall i :: 0 <= i < |requirements| ==>
                   && requirements[i].service in assignments
                   && Listed(registry.providers, registry.revoked + closed, requirements[i], f, consumer, assignments[requirements[i].service])
    ensures bound.Some? ==> |bound.value| == |requirements|
                            && forall i :: 0 <= i < |requirements| ==> bound.value[i] == assignments[requirements[i].service]
  {
    var inventory := registry.Inventory(requirements, closed, f, consumer);
    if inventory.Err? { return None; }
    var resolution := Resolve(requirements, inventory.value, assignments);
    assert forall i :: 0 <= i < |requirements| ==>
      (Satisfied(requirements[i], inventory.value[i], assignments) <==>
         requirements[i].service in assignments
         && Listed(registry.providers, registry.revoked + closed, requirements[i], f, consumer, assignments[requirements[i].service]));
    if resolution.Pending? { return None; }
    var handles: seq<nat> := [];
    var i := 0;
    while i < |requirements|
      invariant 0 <= i <= |requirements| && registry.Valid() && handles == resolution.providers[..i]
    {
      assert Satisfied(requirements[i], inventory.value[i], assignments);
      var b := registry.Binding(requirements[i], resolution.providers[i], closed, f, consumer);
      if b.Err? { return None; }
      handles := handles + [b.value];
      i := i + 1;
    }
    bound := Some(handles);
  }

  // ---------------------------------------------------------------------
  // Whole runs: what becomes of a handle
  // ---------------------------------------------------------------------

  /** A bound handle: the exact provider and its gate, the contract, and the consumer's activation. */
  datatype Handle = Handle(id: nat, marker: nat, contract: Contract, consumer: Epoch)

  /** The registry, the scopes, the provider scopes that have closed, the consumer
      activations that are over, and every handle ever bound. */
  datatype World = World(registry: Registry, forest: Forest, closed: set<nat>, over: set<Epoch>, handles: seq<Handle>)

  datatype Op =
    | GrowOp(forest: Forest)
    | ProvideOp(owner: State, effects: Epoch, scope: nat, requirement: Requirement, id: nat, marker: nat, admitted: bool)
    | DiscoverOp(requirements: seq<Requirement>)
    | BindOp(state: State, effects: Epoch, requirement: Requirement, id: nat, shut: set<nat>, consumer: nat)
    | WithdrawOp(marker: nat)
    | CloseProviderOp(marker: nat)
    | EndConsumerOp(activation: Epoch)
    | DropOp

  ghost predicate CanDo(w: World, op: Op) {
    match op
    case GrowOp(forest) => ForestOk(forest) && w.forest <= forest
    case ProvideOp(_, _, scope, _, id, marker, _) =>
      && scope < |w.forest| && id !in w.registry.providers
      && marker !in w.registry.revoked + Markers(w.registry.providers) + w.closed
    case BindOp(_, _, _, _, _, consumer) => ForestOk(w.forest) && consumer < |w.forest|
    case _ => true
  }

  ghost predicate Binds(w: World, op: Op)
    requires CanDo(w, op) && op.BindOp?
  {
    && CanBind(w.registry, w.closed, op.state, op.effects, op.effects !in w.over, op.requirement, op.id, w.forest, op.consumer)
    && w.registry.providers[op.id].marker !in op.shut
  }

  ghost function After(w: World, op: Op): World
    requires CanDo(w, op)
  {
    match op
    case GrowOp(forest) => w.(forest := forest)
    case ProvideOp(owner, effects, scope, requirement, id, marker, admitted) =>
      if ProvideRefusal(w.registry, owner, effects, requirement, admitted).None?
      then w.(registry := Published(w.registry, requirement, id, marker, scope)) else w
    case DiscoverOp(requirements) => w.(registry := w.registry.(contracts := FixAll(w.registry.contracts, requirements)))
    case BindOp(state, effects, requirement, id, _, consumer) =>
      var contracts := if Eligible(state, effects, effects !in w.over)
                       then LookedUp(w.registry, requirement, id, w.forest, consumer) else w.registry.contracts;
      w.(registry := w.registry.(contracts := contracts),
         handles := if Binds(w, op)
                    then w.handles + [Handle(id, w.registry.providers[id].marker, requirement.contract, effects)] else w.handles)
    case WithdrawOp(marker) => w.(registry := Withdrawn(w.registry, marker))
    case CloseProviderOp(marker) => w.(closed := w.closed + {marker})
    case EndConsumerOp(activation) => w.(over := w.over + {activation})
    case DropOp => w.(registry := Dropped(w.registry))
  }

  ghost predicate IsRun(worlds: seq<World>, ops: seq<Op>) {
    && |worlds| == |ops| + 1 && worlds[0] == World(NEW_REGISTRY, [], {}, {}, [])
    && forall i :: 0 <= i < |ops| ==> CanDo(worlds[i], ops[i]) && worlds[i + 1] == After(worlds[i], ops[i])
  }

  /** What a call through the handle consults: its gate, its provider's scope, its consumer's activation. */
  predicate Usable(w: World, h: Handle) { h.marker !in w.registry.revoked && h.marker !in w.closed && h.consumer !in w.over }

  /** The very provider the handle was bound to is still published, with a value of the handle's contract. */
  predicate StillPublished(w: World, h: Handle) {
    && h.id in w.registry.providers && w.registry.providers[h.id].marker == h.marker
    && w.registry.providers[h.id].value == h.contract
  }

  ghost predicate HandleOk(w: World, h: Handle) { StillPublished(w, h) <==> h.marker !in w.registry.revoked }

  ghost predicate WorldOk(w: World) {
    && RegistryOk(w.registry) && ForestOk(w.forest) && OwnersIn(w.registry.providers, w.forest)
    && forall h :: h in w.handles ==> HandleOk(w, h)
  }

  /** What every operation leaves behind for good. */
  ghost predicate Grows(w: World, w': World) {
    && Extends(w.registry.contracts, w'.registry.contracts)
    && w.registry.revoked <= w'.registry.revoked && w.closed <= w'.closed && w.over <= w'.over && w.handles <= w'.handles
    && forall h :: h in w'.handles && h !in w.handles ==> h.marker !in w.registry.revoked && h.marker !in w.closed
  }

  lemma WithdrawKeeps(w: World, marker: nat)
    requires WorldOk(w)
    ensures WorldOk(After(w, WithdrawOp(marker))) && Grows(w, After(w, WithdrawOp(marker)))
  {
    var w' := After(w, WithdrawOp(marker));
    forall h | h in w'.handles ensures HandleOk(w', h) { assert HandleOk(w, h); }
  }

  lemma DropKeeps(w: World)
    requires WorldOk(w)
    ensures WorldOk(After(w, DropOp)) && Grows(w, After(w, DropOp))
  {
    var w' := After(w, DropOp);
    forall h | h in w'.handles ensures HandleOk(w', h) {
      assert HandleOk(w, h);
      if StillPublished(w, h) { assert h.marker in Markers(w.registry.providers); }
    }
  }

  lemma ProvideKeeps(w: World, op: Op)
    requires WorldOk(w) && CanDo(w, op) && op.ProvideOp?
    ensures WorldOk(After(w, op)) && Grows(w, After(w, op))
  {
    var w' := After(w, op);
    forall id | id in w.registry.providers ensures w.registry.providers[id].marker != op.marker {
      assert w.registry.providers[id].marker in Markers(w.registry.providers);
    }
    forall h | h in w'.handles ensures HandleOk(w', h) {
      assert HandleOk(w, h);
    }
  }

  lemma LookKeeps(w: World, op: Op)
    requires WorldOk(w) && CanDo(w, op) && (op.BindOp? || op.DiscoverOp?)
    ensures WorldOk(After(w, op)) && Grows(w, After(w, op))
  {
    var w' := After(w, op);
    if op.DiscoverOp? { NoTraceIff(w.registry.contracts, op.requirements); }
    forall h | h in w'.handles ensures HandleOk(w', h) {
      if h in w.handles { assert HandleOk(w, h); }
    }
  }

  lemma OpKeeps(w: World, op: Op)
    requires WorldOk(w) && CanDo(w, op)
    ensures WorldOk(After(w, op)) && Grows(w, After(w, op))
  {
    match op
    case ProvideOp(_, _, _, _, _, _, _) => ProvideKeeps(w, op);
    case DiscoverOp(_) => LookKeeps(w, op);
    case BindOp(_, _, _, _, _, _) => LookKeeps(w, op);
    case WithdrawOp(marker) => WithdrawKeeps(w, marker);
    case DropOp => DropKeeps(w);
    case _ =>
      forall h | h in w.handles ensures HandleOk(After(w, op), h) { assert HandleOk(w, h); }
  }

  lemma {:induction false} RunOk(worlds: seq<World>, ops: seq<Op>, k: nat)
    requires IsRun(worlds, ops) && k < |worlds|
    ensures WorldOk(worlds[k])
  {
    if k > 0 {
      RunOk(worlds, ops, k - 1);
      OpKeeps(worlds[k - 1], ops[k - 1]);
    }
  }

  lemma {:induction false} RunGrows(worlds: seq<World>, ops: seq<Op>, k: nat, m: nat)
    requires IsRun(worlds, ops) && k <= m < |worlds|
    ensures Grows(worlds[k], worlds[m])
    decreases m
  {
    if k < m {
      RunGrows(worlds, ops, k, m - 1);
      RunOk(worlds, ops, m - 1);
      OpKeeps(worlds[m - 1], ops[m - 1]);
    }
  }

  /** In every run, a handle can be used exactly while the very provider it was bound
      to is published, that provider's scope is open and its own consumer is not
      over; and what it reaches then has the contract it was bound under. */
  lemma UsableIff(worlds: seq<World>, ops: seq<Op>, k: nat, h: Handle)
    requires IsRun(worlds, ops) && k < |worlds| && h in worlds[k].handles
    ensures Usable(worlds[k], h) <==>
              StillPublished(worlds[k], h) && h.marker !in worlds[k].closed && h.consumer !in worlds[k].over
  {
    RunOk(worlds, ops, k);
    assert HandleOk(worlds[k], h);
  }

  /** Whatever refused a handle once refuses it for good: a handle is never switched to a replacement. */
  lemma RefusedForever(worlds: seq<World>, ops: seq<Op>, k: nat, m: nat, h: Handle)
    requires IsRun(worlds, ops) && k <= m < |worlds| && h in worlds[k].handles && !Usable(worlds[k], h)
    ensures h in worlds[m].handles && !Usable(worlds[m], h)
  {
    RunGrows(worlds, ops, k, m);
  }

  /** After a provider is withdrawn, or the registry is dropped, every handle bound to
      it is refused at every later moment, and none is bound to it again. */
  lemma WithdrawnForever(worlds: seq<World>, ops: seq<Op>, k: nat, m: nat, h: Handle)
    requires IsRun(worlds, ops) && k < m < |worlds| && h in worlds[m].handles
    requires ops[k].DropOp? || ops[k] == WithdrawOp(h.marker)
    requires exists id :: id in worlds[k].registry.providers && worlds[k].registry.providers[id].marker == h.marker
    ensures !Usable(worlds[m], h) && h in worlds[k].handles
  {
    var id :| id in worlds[k].registry.providers && worlds[k].registry.providers[id].marker == h.marker;
    assert h.marker in Markers(worlds[k].registry.providers);
    assert worlds[k + 1] == After(worlds[k], ops[k]);
    assert h.marker in worlds[k + 1].registry.revoked;
    RunGrows(worlds, ops, k + 1, m);
  }

  /** The contract a service was first used with is its contract at every later moment. */
  lemma ContractsForever(worlds: seq<World>, ops: seq<Op>, k: nat, m: nat, service: string)
    requires IsRun(worlds, ops) && k <= m < |worlds| && service in worlds[k].registry.contracts
    ensures service in worlds[m].registry.contracts
    ensures worlds[m].registry.contracts[service] == worlds[k].registry.contracts[service]
  {
    RunGrows(worlds, ops, k, m);
  }
}
