/** The commit funnel: one command is one transaction over a graph of rows with
    unique keys, an address book caches where rows live, and a scan of the graph
    is the auditor's view of it. */
module FunnelStore {
  import opened Common
  import opened Decimals

  datatype Kind =
    Dispatch | LeaseRenewal | ProgressRollup | ToolCompletion | ReviewEvidence | Cancellation | OwnerDecision

  datatype Phase = Ready | Working | Reviewing | Terminal

  datatype EffectState = Prepared | Dispatched | Succeeded | Failed | Unknown

  datatype Standing = Active | Cancelled | Decided

  datatype Planned = PlannedStaleLease | PlannedStaleHolder

  datatype Payload = Payload(kind: Kind, unit: nat, writer: nat, step: nat, filler: string)

  /** Content digests are collision free. */
  datatype Digest = Digest(of: Payload)

  datatype SemanticEvent =
    SemanticEvent(id: nat, aggregate: nat, version: nat, ordinal: nat, kind: Kind, payload: Payload, causation: Option<nat>)

  datatype EffectIntent = EffectIntent(id: nat, operation: string, state: EffectState)

  /** One transaction's obligations. */
  datatype CommitSpec = CommitSpec(
    writer: nat, step: nat, kind: Kind, slot: nat, unit: nat, expected: nat, epoch: nat, holder: nat, phase: Phase,
    planned: Option<Planned>, command: nat, digest: Digest, event: SemanticEvent,
    effect: Option<EffectIntent>, artifact: Option<Digest>)

  datatype Rejection =
    | UnknownUnit(unit: nat)
    | StaleVersion(unit: nat, expected: nat, actual: nat)
    | StaleLease(unit: nat, claimedEpoch: nat, currentEpoch: nat)
    | StaleHolder(unit: nat, claimedHolder: nat, currentHolder: nat)

  datatype Outcome = Applied | Rejected(why: Rejection) | DuplicateKey | AttemptMissing

  // ---------------------------------------------------------------------
  // Rows, keys, and the two scans
  // ---------------------------------------------------------------------

  datatype Node =
    | Unit(id: nat, phase: Phase, version: nat, epoch: nat, holder: nat, artifact: Option<Digest>)
    | Attempt(key: string, unit: nat, epoch: nat, holder: nat, standing: Standing)
    | Lease(key: string, holder: nat, expiry: nat, renewed: nat)
    | Event(id: nat, key: string, aggregate: nat, version: nat, ordinal: nat, kind: Kind, payload: Payload, causation: nat)
    | Receipt(key: string, digest: Digest, transition: nat)
    | Effect(id: nat, operation: string, state: EffectState, unit: nat, epoch: nat)
    | Artifact(digest: Digest)

  /** Two rows of one type share a unique property. */
  predicate Clash(a: Node, b: Node) {
    || (a.Unit? && b.Unit? && a.id == b.id)
    || (a.Attempt? && b.Attempt? && a.key == b.key)
    || (a.Lease? && b.Lease? && a.key == b.key)
    || (a.Event? && b.Event? && (a.id == b.id || a.key == b.key))
    || (a.Receipt? && b.Receipt? && a.key == b.key)
    || (a.Effect? && b.Effect? && a.id == b.id)
    || (a.Artifact? && b.Artifact? && a.digest == b.digest)
  }

  predicate UniqueKeys(g: seq<Node>) {
    forall i, j :: 0 <= i < j < |g| ==> !Clash(g[i], g[j])
  }

  /** Composite key text agrees with the columns it is derived from. */
  predicate KeyOk(n: Node) {
    match n
    case Attempt(key, unit, epoch, _, _) => key == Pair(unit, epoch)
    case Lease(key, _, _, _) => IsLease(n) && key == Pair(LeaseAt(n).0, LeaseAt(n).1)
    case Event(_, key, aggregate, version, ordinal, _, _, _) => key == Triple(aggregate, version, ordinal)
    case _ => true
  }

  predicate KeysOk(g: seq<Node>) { forall i :: 0 <= i < |g| ==> KeyOk(g[i]) }

  type Place = (nat, nat)

  /** Where each unit, event, attempt and lease lives. */
  datatype Books = Books(units: map<nat, nat>, events: map<nat, nat>, attempts: map<Place, nat>, leases: map<Place, nat>)

  const NO_BOOKS: Books := Books(map[], map[], map[], map[])

  function UnitBook(g: seq<Node>): map<nat, nat> {
    if g == [] then map[]
    else
      var last := |g| - 1;
      if g[last].Unit? then UnitBook(g[..last])[g[last].id := last] else UnitBook(g[..last])
  }

  function EventBook(g: seq<Node>): map<nat, nat> {
    if g == [] then map[]
    else
      var last := |g| - 1;
      if g[last].Event? then EventBook(g[..last])[g[last].id := last] else EventBook(g[..last])
  }

  function AttemptBook(g: seq<Node>): map<Place, nat> {
    if g == [] then map[]
    else
      var last := |g| - 1;
      if g[last].Attempt? then AttemptBook(g[..last])[(g[last].unit, g[last].epoch) := last] else AttemptBook(g[..last])
  }

  /** Leases carry no unit or epoch column: their place is parsed back from the key text. */
  function LeaseBook(g: seq<Node>): map<Place, nat> {
    if g == [] then map[]
    else
      var last := |g| - 1;
      if IsLease(g[last]) then LeaseBook(g[..last])[LeaseAt(g[last]) := last] else LeaseBook(g[..last])
  }

  predicate IsLease(n: Node) { n.Lease? && ParsePair(n.key).Some? }

  function LeaseAt(n: Node): Place
    requires IsLease(n)
  {
    ParsePair(n.key).value
  }

  /** The address book a scan of the graph rebuilds. */
  function Rebuild(g: seq<Node>): Books { Books(UnitBook(g), EventBook(g), AttemptBook(g), LeaseBook(g)) }

  datatype UnitRow = UnitRow(phase: Phase, version: nat, epoch: nat, holder: nat, artifact: Option<Digest>)

  datatype AttemptRow = AttemptRow(holder: nat, standing: Standing)

  datatype LeaseRow = LeaseRow(holder: nat, expiry: nat, renewed: nat)

  datatype EventRow = EventRow(aggregate: nat, version: nat, ordinal: nat, payload: Payload)

  datatype ReceiptRow = ReceiptRow(digest: Digest, transition: nat)

  datatype EffectRow = EffectRow(operation: string, state: EffectState, unit: nat, epoch: nat)

  /** The rows of a store by key. */
  datatype Tables = Tables(
    units: map<nat, UnitRow>, attempts: map<Place, AttemptRow>, leases: map<Place, LeaseRow>,
    events: map<nat, EventRow>, receipts: map<string, ReceiptRow>, effects: map<nat, EffectRow>, artifacts: set<Digest>)

  const NO_ROWS: Tables := Tables(map[], map[], map[], map[], map[], map[], {})

  function UnitRowOf(n: Node): UnitRow
    requires n.Unit?
  {
    UnitRow(n.phase, n.version, n.epoch, n.holder, n.artifact)
  }

  function AttemptRowOf(n: Node): AttemptRow
    requires n.Attempt?
  {
    AttemptRow(n.holder, n.standing)
  }

  function LeaseRowOf(n: Node): LeaseRow
    requires n.Lease?
  {
    LeaseRow(n.holder, n.expiry, n.renewed)
  }

  function UnitsOf(g: seq<Node>): map<nat, UnitRow> {
    if g == [] then map[]
    else
      var n, rest := g[|g| - 1], UnitsOf(g[..|g| - 1]);
      if n.Unit? then rest[n.id := UnitRowOf(n)] else rest
  }

  function AttemptsOf(g: seq<Node>): map<Place, AttemptRow> {
    if g == [] then map[]
    else
      var n, rest := g[|g| - 1], AttemptsOf(g[..|g| - 1]);
      if n.Attempt? then rest[(n.unit, n.epoch) := AttemptRowOf(n)] else rest
  }

  function LeasesOf(g: seq<Node>): map<Place, LeaseRow> {
    if g == [] then map[]
    else
      var n, rest := g[|g| - 1], LeasesOf(g[..|g| - 1]);
      if IsLease(n) then rest[LeaseAt(n) := LeaseRowOf(n)] else rest
  }

  function EventsOf(g: seq<Node>): map<nat, EventRow> {
    if g == [] then map[]
    else
      var n, rest := g[|g| - 1], EventsOf(g[..|g| - 1]);
      if n.Event? then rest[n.id := EventRow(n.aggregate, n.version, n.ordinal, n.payload)] else rest
  }

  function ReceiptsOf(g: seq<Node>): map<string, ReceiptRow> {
    if g == [] then map[]
    else
      var n, rest := g[|g| - 1], ReceiptsOf(g[..|g| - 1]);
      if n.Receipt? then rest[n.key := ReceiptRow(n.digest, n.transition)] else rest
  }

  function EffectsOf(g: seq<Node>): map<nat, EffectRow> {
    if g == [] then map[]
    else
      var n, rest := g[|g| - 1], EffectsOf(g[..|g| - 1]);
      if n.Effect? then rest[n.id := EffectRow(n.operation, n.state, n.unit, n.epoch)] else rest
  }

  function ArtifactsOf(g: seq<Node>): set<Digest> {
    if g == [] then {}
    else
      var n, rest := g[|g| - 1], ArtifactsOf(g[..|g| - 1]);
      if n.Artifact? then rest + {n.digest} else rest
  }

  function Scan(g: seq<Node>): Tables {
    Tables(UnitsOf(g), AttemptsOf(g), LeasesOf(g), EventsOf(g), ReceiptsOf(g), EffectsOf(g), ArtifactsOf(g))
  }

  function Add(t: Tables, n: Node): Tables {
    match n
    case Unit(id, _, _, _, _, _) => t.(units := t.units[id := UnitRowOf(n)])
    case Attempt(_, unit, epoch, _, _) => t.(attempts := t.attempts[(unit, epoch) := AttemptRowOf(n)])
    case Lease(_, _, _, _) => if IsLease(n) then t.(leases := t.leases[LeaseAt(n) := LeaseRowOf(n)]) else t
    case Event(id, _, aggregate, version, ordinal, _, payload, _) =>
      t.(events := t.events[id := EventRow(aggregate, version, ordinal, payload)])
    case Receipt(key, digest, transition) => t.(receipts := t.receipts[key := ReceiptRow(digest, transition)])
    case Effect(id, operation, state, unit, epoch) =>
      t.(effects := t.effects[id := EffectRow(operation, state, unit, epoch)])
    case Artifact(digest) => t.(artifacts := t.artifacts + {digest})
  }

  function AddAll(t: Tables, rows: seq<Node>): Tables
    decreases |rows|
  {
    if rows == [] then t else AddAll(Add(t, rows[0]), rows[1..])
  }

  // ---------------------------------------------------------------------
  // One command, over tables
  // ---------------------------------------------------------------------

  /** The compare-and-swap checks, in order. */
  function Verdict(t: Tables, spec: CommitSpec): Option<Rejection> {
    if spec.unit in t.units then
      var row := t.units[spec.unit];
      if row.version != spec.expected then Some(StaleVersion(spec.unit, spec.expected, row.version))
      else if spec.epoch != (if spec.kind.Dispatch? then row.epoch + 1 else row.epoch) then
        Some(StaleLease(spec.unit, spec.epoch, row.epoch))
      else if !spec.kind.Dispatch? && spec.holder != row.holder then
        Some(StaleHolder(spec.unit, spec.holder, row.holder))
      else None
    else if !spec.kind.Dispatch? || spec.expected != 0 then Some(UnknownUnit(spec.unit))
    else None
  }

  function Advanced(row: UnitRow, spec: CommitSpec): UnitRow {
    UnitRow(
      spec.phase, spec.expected + 1,
      if spec.kind.Dispatch? then spec.epoch else row.epoch,
      if spec.kind.Dispatch? then spec.holder else row.holder,
      if spec.artifact.Some? then spec.artifact else row.artifact)
  }

  predicate Closes(kind: Kind) { kind.Cancellation? || kind.OwnerDecision? }

  function ClosedAs(kind: Kind): Standing { if kind.Cancellation? then Cancelled else Decided }

  function TouchUnits(units: map<nat, UnitRow>, spec: CommitSpec): map<nat, UnitRow> {
    if spec.unit in units then units[spec.unit := Advanced(units[spec.unit], spec)] else units
  }

  function TouchAttempts(attempts: map<Place, AttemptRow>, spec: CommitSpec): map<Place, AttemptRow> {
    var place := (spec.unit, spec.epoch);
    if Closes(spec.kind) && place in attempts then
      attempts[place := attempts[place].(standing := ClosedAs(spec.kind))]
    else attempts
  }

  function TouchLeases(leases: map<Place, LeaseRow>, spec: CommitSpec): map<Place, LeaseRow> {
    var place := (spec.unit, spec.epoch);
    if spec.kind.LeaseRenewal? && place in leases then
      leases[place := leases[place].(expiry := spec.step + 100, renewed := spec.step)]
    else leases
  }

  /** Rows a command updates in place: its unit, its lease, its attempt. */
  function Touch(t: Tables, spec: CommitSpec): Tables {
    t.(units := TouchUnits(t.units, spec), attempts := TouchAttempts(t.attempts, spec), leases := TouchLeases(t.leases, spec))
  }

  function UnitNode(spec: CommitSpec): Node { Unit(spec.unit, spec.phase, 1, spec.epoch, spec.holder, None) }

  function AttemptNode(spec: CommitSpec): Node { Attempt(Pair(spec.unit, spec.epoch), spec.unit, spec.epoch, spec.holder, Active) }

  function LeaseNode(spec: CommitSpec): Node { Lease(Pair(spec.unit, spec.epoch), spec.holder, spec.step + 100, spec.step) }

  function EventNode(spec: CommitSpec): Node {
    var e := spec.event;
    Event(
      e.id, Triple(e.aggregate, e.version, e.ordinal), e.aggregate, e.version, e.ordinal, e.kind, e.payload,
      if e.causation.Some? then e.causation.value else 0)
  }

  function ReceiptKey(spec: CommitSpec): string { Pair(spec.unit, spec.command) }

  function ReceiptNode(spec: CommitSpec): Node { Receipt(ReceiptKey(spec), spec.digest, spec.event.id) }

  function EffectNode(spec: CommitSpec): Node
    requires spec.effect.Some?
  {
    var e := spec.effect.value;
    Effect(e.id, e.operation, e.state, spec.unit, spec.epoch)
  }

  predicate EventFree(events: map<nat, EventRow>, e: SemanticEvent) {
    && e.id !in events
    && forall other :: other in events ==>
         var row := events[other];
         !(row.aggregate == e.aggregate && row.version == e.version && row.ordinal == e.ordinal)
  }

  /** No key of the write set is already taken. */
  predicate Fresh(t: Tables, spec: CommitSpec) {
    && (spec.kind.Dispatch? ==> (spec.unit, spec.epoch) !in t.attempts && (spec.unit, spec.epoch) !in t.leases)
    && EventFree(t.events, spec.event)
    && ReceiptKey(spec) !in t.receipts
    && (spec.effect.Some? ==> spec.effect.value.id !in t.effects)
    && (spec.artifact.Some? ==> spec.artifact.value !in t.artifacts)
  }

  function AddUnit(units: map<nat, UnitRow>, known: bool, spec: CommitSpec): map<nat, UnitRow> {
    if known then units else units[spec.unit := UnitRowOf(UnitNode(spec))]
  }

  function AddAttempt(attempts: map<Place, AttemptRow>, spec: CommitSpec): map<Place, AttemptRow> {
    if spec.kind.Dispatch? then attempts[(spec.unit, spec.epoch) := AttemptRowOf(AttemptNode(spec))] else attempts
  }

  function AddLease(leases: map<Place, LeaseRow>, spec: CommitSpec): map<Place, LeaseRow> {
    if spec.kind.Dispatch? then leases[(spec.unit, spec.epoch) := LeaseRowOf(LeaseNode(spec))] else leases
  }

  function AddLineage(t: Tables, known: bool, spec: CommitSpec): Tables {
    t.(units := AddUnit(t.units, known, spec), attempts := AddAttempt(t.attempts, spec), leases := AddLease(t.leases, spec))
  }

  function EventRowFor(e: SemanticEvent): EventRow { EventRow(e.aggregate, e.version, e.ordinal, e.payload) }

  function AddJournal(t: Tables, spec: CommitSpec): Tables {
    t.(
    events := t.events[spec.event.id := EventRowFor(spec.event)],
    receipts := t.receipts[ReceiptKey(spec) := ReceiptRow(spec.digest, spec.event.id)])
  }

  function AddEffect(effects: map<nat, EffectRow>, spec: CommitSpec): map<nat, EffectRow> {
    if spec.effect.Some? then
      effects[spec.effect.value.id := EffectRow(spec.effect.value.operation, spec.effect.value.state, spec.unit, spec.epoch)]
    else effects
  }

  function AddExtra(t: Tables, spec: CommitSpec): Tables {
    t.(
    effects := AddEffect(t.effects, spec),
    artifacts := if spec.artifact.Some? then t.artifacts + {spec.artifact.value} else t.artifacts)
  }

  function Decide(t: Tables, spec: CommitSpec): Outcome {
    var verdict := Verdict(t, spec);
    if verdict.Some? then Rejected(verdict.value) else if Fresh(t, spec) then Applied else DuplicateKey
  }

  /** What the store holds after a command: all of the write set or none of it. */
  function Next(t: Tables, spec: CommitSpec): Tables {
    if Decide(t, spec).Applied? then
      AddExtra(AddJournal(AddLineage(Touch(t, spec), spec.unit in t.units, spec), spec), spec)
    else t
  }

  /** Every unit's current attempt and lease are on record. */
  predicate LineageOk(t: Tables) {
    forall u :: u in t.units ==> (u, t.units[u].epoch) in t.attempts && (u, t.units[u].epoch) in t.leases
  }

  // ---------------------------------------------------------------------
  // The same write set as rows appended to a graph
  // ---------------------------------------------------------------------

  function LineageRows(known: bool, spec: CommitSpec): seq<Node> {
    (if known then [] else [UnitNode(spec)]) + (if spec.kind.Dispatch? then [AttemptNode(spec), LeaseNode(spec)] else [])
  }

  function ExtraRows(spec: CommitSpec): seq<Node> {
    (if spec.effect.Some? then [EffectNode(spec)] else []) + (if spec.artifact.Some? then [Artifact(spec.artifact.value)] else [])
  }

  function JournalRows(spec: CommitSpec): seq<Node> { [EventNode(spec), ReceiptNode(spec)] }

  /** Rows a command creates, in creation order. */
  function NewRows(known: bool, spec: CommitSpec): seq<Node> {
    LineageRows(known, spec) + (JournalRows(spec) + ExtraRows(spec))
  }

  predicate KeyFree(t: Tables, n: Node) {
    match n
    case Unit(id, _, _, _, _, _) => id !in t.units
    case Attempt(_, unit, epoch, _, _) => (unit, epoch) !in t.attempts
    case Lease(_, _, _, _) => IsLease(n) ==> LeaseAt(n) !in t.leases
    case Event(id, _, aggregate, version, ordinal, _, _, _) =>
      && id !in t.events
      && forall other :: other in t.events ==>
           var row := t.events[other];
           !(row.aggregate == aggregate && row.version == version && row.ordinal == ordinal)
    case Receipt(key, _, _) => key !in t.receipts
    case Effect(id, _, _, _, _) => id !in t.effects
    case Artifact(digest) => digest !in t.artifacts
  }

  predicate AllFree(t: Tables, rows: seq<Node>)
    decreases |rows|
  {
    rows == [] || (KeyFree(t, rows[0]) && AllFree(Add(t, rows[0]), rows[1..]))
  }

  // ---------------------------------------------------------------------
  // Lemmas about appending and updating rows
  // ---------------------------------------------------------------------

  /** The rebuilt book and the scanned tables name the same unit rows; likewise attempts and leases below. */
  lemma {:induction false} UnitPlace(g: seq<Node>, u: nat)
    ensures u in UnitBook(g) <==> u in UnitsOf(g)
    ensures u in UnitBook(g) ==>
              UnitBook(g)[u] < |g| && g[UnitBook(g)[u]].Unit? && g[UnitBook(g)[u]].id == u
              && UnitsOf(g)[u] == UnitRowOf(g[UnitBook(g)[u]])
  {
    if g != [] { UnitPlace(g[..|g| - 1], u); }
  }

  lemma {:induction false} AttemptPlace(g: seq<Node>, p: Place)
    ensures p in AttemptBook(g) <==> p in AttemptsOf(g)
    ensures p in AttemptBook(g) ==>
              AttemptBook(g)[p] < |g| && g[AttemptBook(g)[p]].Attempt?
              && (g[AttemptBook(g)[p]].unit, g[AttemptBook(g)[p]].epoch) == p
              && AttemptsOf(g)[p] == AttemptRowOf(g[AttemptBook(g)[p]])
  {
    if g != [] { AttemptPlace(g[..|g| - 1], p); }
  }

  lemma {:induction false} LeasePlace(g: seq<Node>, p: Place)
    ensures p in LeaseBook(g) <==> p in LeasesOf(g)
    ensures p in LeaseBook(g) ==>
              LeaseBook(g)[p] < |g| && IsLease(g[LeaseBook(g)[p]]) && LeaseAt(g[LeaseBook(g)[p]]) == p
              && LeasesOf(g)[p] == LeaseRowOf(g[LeaseBook(g)[p]])
  {
    if g != [] { LeasePlace(g[..|g| - 1], p); }
  }

  predicate SameKey(a: Node, b: Node) {
    || (a.Unit? && b.Unit? && a.id == b.id)
    || (a.Attempt? && b.Attempt? && a.key == b.key && a.unit == b.unit && a.epoch == b.epoch)
    || (a.Lease? && b.Lease? && a.key == b.key)
  }

  lemma {:induction false} UpdateKeepsBooks(g: seq<Node>, i: nat, n: Node)
    requires i < |g| && SameKey(g[i], n)
    ensures Rebuild(g[i := n]) == Rebuild(g)
  {
    var last := |g| - 1;
    if i < last {
      UpdateKeepsBooks(g[..last], i, n);
      assert g[i := n][..last] == g[..last][i := n];
    } else {
      assert g[i := n][..last] == g[..last];
    }
  }

  lemma UpdateKeepsKeys(g: seq<Node>, i: nat, n: Node)
    requires i < |g| && SameKey(g[i], n) && UniqueKeys(g) && KeysOk(g)
    ensures UniqueKeys(g[i := n]) && KeysOk(g[i := n])
  {
    var h := g[i := n];
    forall a, b | 0 <= a < b < |h| ensures !Clash(h[a], h[b]) { assert !Clash(g[a], g[b]); }
  }

  /** An in-place update leaves the tables of every other row type alone. */
  lemma {:induction false} UpdateKeepsOthers(g: seq<Node>, i: nat, n: Node)
    requires i < |g| && SameKey(g[i], n)
    ensures !n.Unit? ==> UnitsOf(g[i := n]) == UnitsOf(g)
    ensures !n.Attempt? ==> AttemptsOf(g[i := n]) == AttemptsOf(g)
    ensures !n.Lease? ==> LeasesOf(g[i := n]) == LeasesOf(g)
    ensures EventsOf(g[i := n]) == EventsOf(g) && ReceiptsOf(g[i := n]) == ReceiptsOf(g)
    ensures EffectsOf(g[i := n]) == EffectsOf(g) && ArtifactsOf(g[i := n]) == ArtifactsOf(g)
  {
    var last := |g| - 1;
    if i < last {
      UpdateKeepsOthers(g[..last], i, n);
      assert g[i := n][..last] == g[..last][i := n];
    } else {
      assert g[i := n][..last] == g[..last];
    }
  }

  lemma {:induction false} UpdateUnit(g: seq<Node>, u: nat, n: Node)
    requires u in UnitBook(g) && n.Unit? && n.id == u
    ensures UnitBook(g)[u] < |g| && UnitsOf(g[UnitBook(g)[u] := n]) == UnitsOf(g)[u := UnitRowOf(n)]
  {
    UnitPlace(g, u);
    var i, last := UnitBook(g)[u], |g| - 1;
    if i < last {
      UpdateUnit(g[..last], u, n);
      assert g[i := n][..last] == g[..last][i := n];
    } else {
      assert g[i := n][..last] == g[..last];
    }
  }

  lemma {:induction false} UpdateAttempt(g: seq<Node>, p: Place, n: Node)
    requires p in AttemptBook(g) && n.Attempt? && (n.unit, n.epoch) == p
    ensures AttemptBook(g)[p] < |g| && AttemptsOf(g[AttemptBook(g)[p] := n]) == AttemptsOf(g)[p := AttemptRowOf(n)]
  {
    AttemptPlace(g, p);
    var i, last := AttemptBook(g)[p], |g| - 1;
    if i < last {
      UpdateAttempt(g[..last], p, n);
      assert g[i := n][..last] == g[..last][i := n];
    } else {
      assert g[i := n][..last] == g[..last];
    }
  }

  lemma LeaseBookLast(g: seq<Node>, p: Place)
    requires g != [] && p in LeaseBook(g) && LeaseBook(g)[p] < |g| - 1
    ensures p in LeaseBook(g[..|g| - 1]) && LeaseBook(g[..|g| - 1])[p] == LeaseBook(g)[p]
    ensures IsLease(g[|g| - 1]) ==> LeaseAt(g[|g| - 1]) != p
  {
  }

  lemma {:induction false} UpdateLeaseAt(g: seq<Node>, p: Place, n: Node, i: nat)
    requires p in LeaseBook(g) && LeaseBook(g)[p] == i < |g| && IsLease(n) && LeaseAt(n) == p
    ensures LeasesOf(g[i := n]) == LeasesOf(g)[p := LeaseRowOf(n)]
  {
    var last := |g| - 1;
    if i < last {
      LeaseBookLast(g, p);
      UpdateLeaseAt(g[..last], p, n, i);
      assert g[i := n][..last] == g[..last][i := n];
    } else {
      LeasePlace(g, p);
      assert g[i := n][..last] == g[..last];
    }
  }

  lemma UpdateLease(g: seq<Node>, p: Place, n: Node)
    requires p in LeaseBook(g) && IsLease(n) && LeaseAt(n) == p
    ensures LeaseBook(g)[p] < |g| && LeasesOf(g[LeaseBook(g)[p] := n]) == LeasesOf(g)[p := LeaseRowOf(n)]
  {
    LeasePlace(g, p);
    UpdateLeaseAt(g, p, n, LeaseBook(g)[p]);
  }

  ghost predicate Crowded(g: seq<Node>, n: Node) { exists i :: 0 <= i < |g| && Clash(g[i], n) }

  /** Over tables, a key is free exactly when no row of the graph clashes with it. */
  lemma {:induction false} FreeMeansNoClash(g: seq<Node>, n: Node)
    requires UniqueKeys(g) && KeysOk(g) && KeyOk(n)
    ensures KeyFree(Scan(g), n) <==> !Crowded(g, n)
  {
    if g != [] {
      var init, last := g[..|g| - 1], g[|g| - 1];
      assert UniqueKeys(init);
      FreeMeansNoClash(init, n);
      assert Crowded(g, n) <==> Crowded(init, n) || Clash(last, n) by {
        if Crowded(g, n) {
          var i :| 0 <= i < |g| && Clash(g[i], n);
          if i < |init| { assert Clash(init[i], n); }
        }
        if Crowded(init, n) {
          var i :| 0 <= i < |init| && Clash(init[i], n);
          assert Clash(g[i], n);
        }
      }
      if last.Event? {
        FreeMeansNoClash(init, last);
        assert !Crowded(init, last) by { assert forall i :: 0 <= i < |init| ==> !Clash(g[i], g[|init|]); }
      }
      FreeAfterAdd(Scan(init), last, n);
    }
  }

  /** Adding a row occupies exactly its own keys. */
  lemma FreeAfterAdd(t: Tables, m: Node, n: Node)
    requires KeyOk(m) && KeyOk(n) && (m.Event? ==> KeyFree(t, m))
    ensures KeyFree(Add(t, m), n) <==> KeyFree(t, n) && !Clash(m, n)
  {
    if m.Attempt? && n.Attempt? {
      PairRoundTrip(m.unit, m.epoch);
      PairRoundTrip(n.unit, n.epoch);
    } else if m.Event? && n.Event? {
      EventFreeAfterAdd(t, m, n);
    }
  }

  lemma EventFreeAfterAdd(t: Tables, m: Node, n: Node)
    requires m.Event? && n.Event? && KeyOk(m) && KeyOk(n) && KeyFree(t, m)
    ensures KeyFree(Add(t, m), n) <==> KeyFree(t, n) && !Clash(m, n)
  {
    if m.key == n.key { TripleInjective(m.aggregate, m.version, m.ordinal, n.aggregate, n.version, n.ordinal); }
    var t' := Add(t, m);
    assert t'.events[m.id] == EventRow(m.aggregate, m.version, m.ordinal, m.payload);
    assert forall other :: other in t.events ==> other in t'.events && t'.events[other] == t.events[other];
  }

  /** Appending rows: uniqueness, tables and book all follow from the rows appended. */
  lemma {:induction false} AppendRows(g: seq<Node>, rows: seq<Node>)
    requires UniqueKeys(g) && KeysOk(g) && KeysOk(rows)
    ensures UniqueKeys(g + rows) <==> AllFree(Scan(g), rows)
    ensures KeysOk(g + rows)
    ensures Scan(g + rows) == AddAll(Scan(g), rows)
    decreases |rows|
  {
    if rows == [] {
      assert g + rows == g;
    } else {
      var h := g + [rows[0]];
      assert h[..|g|] == g;
      assert h + rows[1..] == g + rows;
      FreeMeansNoClash(g, rows[0]);
      assert UniqueKeys(h) <==> !Crowded(g, rows[0]) by {
        if Crowded(g, rows[0]) {
          var i :| 0 <= i < |g| && Clash(g[i], rows[0]);
          assert Clash(h[i], h[|g|]);
        }
      }
      if UniqueKeys(h) {
        AppendRows(h, rows[1..]);
      } else {
        var i, j :| 0 <= i < j < |h| && Clash(h[i], h[j]);
        assert Clash((g + rows)[i], (g + rows)[j]);
        AddAllAppends(h, rows[1..]);
      }
    }
  }

  lemma {:induction false} AddAllAppends(g: seq<Node>, rows: seq<Node>)
    ensures Scan(g + rows) == AddAll(Scan(g), rows)
    decreases |rows|
  {
    if rows == [] {
      assert g + rows == g;
    } else {
      var h := g + [rows[0]];
      assert h[..|g|] == g && h + rows[1..] == g + rows;
      AddAllAppends(h, rows[1..]);
    }
  }

  // ---------------------------------------------------------------------
  // What one accepted command adds, table by table
  // ---------------------------------------------------------------------

  lemma {:induction false} AddAllSplits(t: Tables, a: seq<Node>, b: seq<Node>)
    ensures AddAll(t, a + b) == AddAll(AddAll(t, a), b)
    ensures AllFree(t, a + b) <==> AllFree(t, a) && AllFree(AddAll(t, a), b)
    decreases |a|
  {
    if a == [] {
      assert a + b == b;
    } else {
      assert (a + b)[1..] == a[1..] + b;
      AddAllSplits(Add(t, a[0]), a[1..], b);
    }
  }

  lemma LineageAdded(t: Tables, known: bool, spec: CommitSpec)
    ensures AddAll(t, LineageRows(known, spec)) == AddLineage(t, known, spec)
    ensures AllFree(t, LineageRows(known, spec)) <==>
              && (!known ==> spec.unit !in t.units)
              && (spec.kind.Dispatch? ==> (spec.unit, spec.epoch) !in t.attempts && (spec.unit, spec.epoch) !in t.leases)
  {
    PairRoundTrip(spec.unit, spec.epoch);
    var first := if known then [] else [UnitNode(spec)];
    var second := if spec.kind.Dispatch? then [AttemptNode(spec), LeaseNode(spec)] else [];
    AddAllSplits(t, first, second);
    if spec.kind.Dispatch? {
      var u := AddAll(t, first);
      assert second == [AttemptNode(spec)] + [LeaseNode(spec)];
      AddAllSplits(u, [AttemptNode(spec)], [LeaseNode(spec)]);
    }
  }

  lemma JournalAdded(t: Tables, spec: CommitSpec)
    ensures AddAll(t, JournalRows(spec)) == AddJournal(t, spec)
    ensures AllFree(t, JournalRows(spec)) <==> EventFree(t.events, spec.event) && ReceiptKey(spec) !in t.receipts
  {
    assert JournalRows(spec) == [EventNode(spec)] + [ReceiptNode(spec)];
    AddAllSplits(t, [EventNode(spec)], [ReceiptNode(spec)]);
  }

  lemma ExtraAdded(t: Tables, spec: CommitSpec)
    ensures AddAll(t, ExtraRows(spec)) == AddExtra(t, spec)
    ensures AllFree(t, ExtraRows(spec)) <==>
              && (spec.effect.Some? ==> spec.effect.value.id !in t.effects)
              && (spec.artifact.Some? ==> spec.artifact.value !in t.artifacts)
  {
    var first := if spec.effect.Some? then [EffectNode(spec)] else [];
    AddAllSplits(t, first, if spec.artifact.Some? then [Artifact(spec.artifact.value)] else []);
  }

  lemma AddAllThree(t: Tables, a: seq<Node>, b: seq<Node>, c: seq<Node>)
    ensures AddAll(t, a + (b + c)) == AddAll(AddAll(AddAll(t, a), b), c)
    ensures AllFree(t, a + (b + c)) <==>
              AllFree(t, a) && AllFree(AddAll(t, a), b) && AllFree(AddAll(AddAll(t, a), b), c)
  {
    AddAllSplits(t, a, b + c);
    AddAllSplits(AddAll(t, a), b, c);
  }

  /** Appending the new rows writes exactly the write set, and succeeds exactly on new keys. */
  lemma RowsAdded(t: Tables, known: bool, spec: CommitSpec)
    ensures AddAll(t, NewRows(known, spec)) == AddExtra(AddJournal(AddLineage(t, known, spec), spec), spec)
    ensures AllFree(t, NewRows(known, spec)) <==> (!known ==> spec.unit !in t.units) && Fresh(t, spec)
  {
    AddAllThree(t, LineageRows(known, spec), JournalRows(spec), ExtraRows(spec));
    LineageAdded(t, known, spec);
    JournalAdded(AddLineage(t, known, spec), spec);
    ExtraAdded(AddJournal(AddLineage(t, known, spec), spec), spec);
  }

  function UnitAfter(t: Tables, spec: CommitSpec): UnitRow {
    if spec.unit in t.units then Advanced(t.units[spec.unit], spec) else UnitRowOf(UnitNode(spec))
  }

  /** What changes, and that nothing else does, when a command is applied. */
  lemma AppliedRows(t: Tables, spec: CommitSpec)
    requires Decide(t, spec).Applied?
    ensures var r := Next(t, spec);
            && r.units == t.units[spec.unit := UnitAfter(t, spec)]
            && r.events == t.events[spec.event.id := EventRowFor(spec.event)]
            && r.receipts == t.receipts[ReceiptKey(spec) := ReceiptRow(spec.digest, spec.event.id)]
            && r.effects == AddEffect(t.effects, spec)
            && r.artifacts == (if spec.artifact.Some? then t.artifacts + {spec.artifact.value} else t.artifacts)
            && r.attempts == AddAttempt(TouchAttempts(t.attempts, spec), spec)
            && r.leases == AddLease(TouchLeases(t.leases, spec), spec)
  {
  }

  lemma LineageKept(t: Tables, spec: CommitSpec)
    requires LineageOk(t)
    ensures LineageOk(Next(t, spec))
  {
    if Decide(t, spec).Applied? {
      AppliedRows(t, spec);
      var r := Next(t, spec);
      forall u | u in r.units
        ensures (u, r.units[u].epoch) in r.attempts && (u, r.units[u].epoch) in r.leases
      {
      }
    }
  }
}
