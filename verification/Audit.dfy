/** The auditor: scores a snapshot against the confirmed commits, and its verdict
    is empty exactly when the snapshot is whole. */
module Audits {
  import opened Common
  import opened FunnelStore
  import opened Stores

  datatype Confirmed = Confirmed(spec: CommitSpec, staleAccepted: bool)

  datatype Violation =
    | StaleAccepted(unit: nat, epoch: nat)
    | EventLost(event: nat)
    | PayloadDiffers(event: nat)
    | ReceiptLost(key: string)
    | ReceiptDisagrees(key: string)
    | UnitLost(unit: nat)
    | UnitBehind(unit: nat, version: nat, confirmed: nat)
    | JournalGap(unit: nat)
    | ArtifactUnpublished(unit: nat, digest: Digest)
    | OrphanEvents(aggregate: nat)
    | ReceiptMissing(event: nat)
    | ReceiptCount(event: nat, count: nat)
    | ReceiptsDangling(event: nat, count: nat)

  datatype Report = Report(
    violations: seq<Violation>, nonterminal: seq<nat>, unitsChecked: nat, eventsChecked: nat, confirmedChecked: nat)

  // ---------------------------------------------------------------------
  // What a whole store looks like
  // ---------------------------------------------------------------------

  /** The events of one aggregate at one version. */
  ghost function EventsAt(events: map<nat, EventRow>, aggregate: nat, version: nat): set<nat> {
    set id | id in events && events[id].aggregate == aggregate && events[id].version == version
  }

  ghost function ReceiptsFor(receipts: map<string, ReceiptRow>, event: nat): set<string> {
    set key | key in receipts && receipts[key].transition == event
  }

  /** The unit's journal has exactly one event at each version from 1 to its own, and no other. */
  ghost predicate JournalExact(snap: Snapshot, unit: nat)
    requires unit in snap.units
  {
    forall v: nat :: |EventsAt(snap.events, unit, v)| == if 1 <= v <= snap.units[unit].version then 1 else 0
  }

  ghost predicate Consistent(snap: Snapshot) {
    && (forall u :: u in snap.units ==> JournalExact(snap, u))
    && (forall id :: id in snap.events ==> snap.events[id].aggregate in snap.units)
    && (forall id :: id in snap.events ==> |ReceiptsFor(snap.receipts, id)| == 1)
    && (forall key :: key in snap.receipts ==> snap.receipts[key].transition in snap.events)
    && (forall u :: u in snap.units && snap.units[u].artifact.Some? ==> snap.units[u].artifact.value in snap.artifacts)
  }

  /** A confirmed commit is wholly present. */
  predicate Present(snap: Snapshot, spec: CommitSpec) {
    && spec.event.id in snap.events && snap.events[spec.event.id].payload == spec.event.payload
    && ReceiptKey(spec) in snap.receipts && snap.receipts[ReceiptKey(spec)] == ReceiptRow(spec.digest, spec.event.id)
    && spec.unit in snap.units && snap.units[spec.unit].version >= spec.event.version
  }

  ghost predicate AuditOk(snap: Snapshot, confirmed: seq<Confirmed>) {
    && (forall i :: 0 <= i < |confirmed| ==> !confirmed[i].staleAccepted && Present(snap, confirmed[i].spec))
    && Consistent(snap)
  }

  // ---------------------------------------------------------------------
  // Which violations a snapshot earns
  // ---------------------------------------------------------------------

  predicate EventLoss(snap: Snapshot, spec: CommitSpec, x: Violation) {
    var id := spec.event.id;
    || (x == EventLost(id) && id !in snap.events)
    || (x == PayloadDiffers(id) && id in snap.events && snap.events[id].payload != spec.event.payload)
  }

  predicate ReceiptLoss(snap: Snapshot, spec: CommitSpec, x: Violation) {
    var key := ReceiptKey(spec);
    || (x == ReceiptLost(key) && key !in snap.receipts)
    || (x == ReceiptDisagrees(key) && key in snap.receipts && snap.receipts[key] != ReceiptRow(spec.digest, spec.event.id))
  }

  predicate UnitLoss(snap: Snapshot, spec: CommitSpec, x: Violation) {
    var u := spec.unit;
    || (x == UnitLost(u) && u !in snap.units)
    || (u in snap.units && snap.units[u].version < spec.event.version && x == UnitBehind(u, snap.units[u].version, spec.event.version))
  }

  predicate LossViolation(snap: Snapshot, rec: Confirmed, x: Violation) {
    || (rec.staleAccepted && x == StaleAccepted(rec.spec.unit, rec.spec.epoch))
    || EventLoss(snap, rec.spec, x) || ReceiptLoss(snap, rec.spec, x) || UnitLoss(snap, rec.spec, x)
  }

  ghost predicate UnitViolation(snap: Snapshot, u: nat, x: Violation)
    requires u in snap.units
  {
    || (x == JournalGap(u) && !JournalExact(snap, u))
    || (x.ArtifactUnpublished? && x.unit == u && snap.units[u].artifact == Some(x.digest) && x.digest !in snap.artifacts)
  }

  predicate CountViolation(id: nat, n: nat, x: Violation) {
    || (x == ReceiptMissing(id) && n == 0)
    || (x == ReceiptCount(id, n) && n > 1)
  }

  ghost predicate EventViolation(snap: Snapshot, id: nat, x: Violation) {
    CountViolation(id, |ReceiptsFor(snap.receipts, id)|, x)
  }

  ghost predicate ConfirmedViolation(snap: Snapshot, confirmed: seq<Confirmed>, x: Violation) {
    exists i :: 0 <= i < |confirmed| && LossViolation(snap, confirmed[i], x)
  }

  ghost predicate JournalViolation(snap: Snapshot, x: Violation) {
    || (exists u :: u in snap.units && UnitViolation(snap, u, x))
    || (x.OrphanEvents? && x.aggregate !in snap.units && exists id :: id in snap.events && snap.events[id].aggregate == x.aggregate)
  }

  ghost predicate ReceiptViolation(snap: Snapshot, x: Violation) {
    || (exists id :: id in snap.events && EventViolation(snap, id, x))
    || (x.ReceiptsDangling? && x.event !in snap.events && x.count == |ReceiptsFor(snap.receipts, x.event)| && x.count > 0)
  }

  ghost predicate Violates(snap: Snapshot, confirmed: seq<Confirmed>, x: Violation) {
    ConfirmedViolation(snap, confirmed, x) || JournalViolation(snap, x) || ReceiptViolation(snap, x)
  }

  ghost predicate Nonterminal(snap: Snapshot, id: nat) {
    && id in snap.effects && Pending(snap.effects[id].state)
    && forall other :: other in snap.effects && !Pending(snap.effects[other].state) ==>
         snap.effects[other].operation != snap.effects[id].operation
  }

  predicate Pending(state: EffectState) { state.Prepared? || state.Dispatched? }

  /** No violation is earned exactly when the snapshot is whole. */
  lemma NoViolationIff(snap: Snapshot, confirmed: seq<Confirmed>)
    ensures (forall x :: !Violates(snap, confirmed, x)) <==> AuditOk(snap, confirmed)
  {
    if forall x :: !Violates(snap, confirmed, x) {
      forall i | 0 <= i < |confirmed| ensures !confirmed[i].staleAccepted && Present(snap, confirmed[i].spec) {
        CleanRecord(snap, confirmed, i);
      }
      CleanStore(snap, confirmed);
    }
    if AuditOk(snap, confirmed) {
      forall x ensures !Violates(snap, confirmed, x) { WholeIsClean(snap, confirmed, x); }
    }
  }

  lemma CleanRecord(snap: Snapshot, confirmed: seq<Confirmed>, i: nat)
    requires i < |confirmed| && forall x :: !Violates(snap, confirmed, x)
    ensures !confirmed[i].staleAccepted && Present(snap, confirmed[i].spec)
  {
    var spec := confirmed[i].spec;
    var key := ReceiptKey(spec);
    assert !LossViolation(snap, confirmed[i], StaleAccepted(spec.unit, spec.epoch)) by { assert !Violates(snap, confirmed, StaleAccepted(spec.unit, spec.epoch)); }
    assert !LossViolation(snap, confirmed[i], EventLost(spec.event.id)) by { assert !Violates(snap, confirmed, EventLost(spec.event.id)); }
    assert !LossViolation(snap, confirmed[i], PayloadDiffers(spec.event.id)) by { assert !Violates(snap, confirmed, PayloadDiffers(spec.event.id)); }
    assert !LossViolation(snap, confirmed[i], ReceiptLost(key)) by { assert !Violates(snap, confirmed, ReceiptLost(key)); }
    assert !LossViolation(snap, confirmed[i], ReceiptDisagrees(key)) by { assert !Violates(snap, confirmed, ReceiptDisagrees(key)); }
    assert !LossViolation(snap, confirmed[i], UnitLost(spec.unit)) by { assert !Violates(snap, confirmed, UnitLost(spec.unit)); }
    if spec.unit in snap.units {
      var behind := UnitBehind(spec.unit, snap.units[spec.unit].version, spec.event.version);
      assert !LossViolation(snap, confirmed[i], behind) by { assert !Violates(snap, confirmed, behind); }
    }
  }

  lemma CleanStore(snap: Snapshot, confirmed: seq<Confirmed>)
    requires forall x :: !Violates(snap, confirmed, x)
    ensures Consistent(snap)
  {
    forall u | u in snap.units
      ensures JournalExact(snap, u)
      ensures snap.units[u].artifact.Some? ==> snap.units[u].artifact.value in snap.artifacts
    {
      assert !UnitViolation(snap, u, JournalGap(u)) by { assert !Violates(snap, confirmed, JournalGap(u)); }
      if snap.units[u].artifact.Some? {
        var x := ArtifactUnpublished(u, snap.units[u].artifact.value);
        assert !UnitViolation(snap, u, x) by { assert !Violates(snap, confirmed, x); }
      }
    }
    forall id | id in snap.events
      ensures snap.events[id].aggregate in snap.units && |ReceiptsFor(snap.receipts, id)| == 1
    {
      assert !Violates(snap, confirmed, OrphanEvents(snap.events[id].aggregate));
      assert !EventViolation(snap, id, ReceiptMissing(id)) by { assert !Violates(snap, confirmed, ReceiptMissing(id)); }
      var many := ReceiptCount(id, |ReceiptsFor(snap.receipts, id)|);
      assert !EventViolation(snap, id, many) by { assert !Violates(snap, confirmed, many); }
    }
    forall key | key in snap.receipts ensures snap.receipts[key].transition in snap.events {
      var id := snap.receipts[key].transition;
      assert key in ReceiptsFor(snap.receipts, id);
      assert !Violates(snap, confirmed, ReceiptsDangling(id, |ReceiptsFor(snap.receipts, id)|));
    }
  }

  lemma WholeIsClean(snap: Snapshot, confirmed: seq<Confirmed>, x: Violation)
    requires AuditOk(snap, confirmed)
    ensures !Violates(snap, confirmed, x)
  {
    if x.ReceiptsDangling? && x.event !in snap.events {
      assert ReceiptsFor(snap.receipts, x.event) == {};
    }
  }

  // ---------------------------------------------------------------------
  // Scoring the confirmed records
  // ---------------------------------------------------------------------

  method ScoreRecordEvent(snap: Snapshot, spec: CommitSpec) returns (v: seq<Violation>)
    ensures forall x :: x in v <==> EventLoss(snap, spec, x)
  {
    v := [];
    var e := spec.event;
    if e.id !in snap.events {
      v := [EventLost(e.id)];
    } else if snap.events[e.id].payload != e.payload {
      v := [PayloadDiffers(e.id)];
    }
  }

  method ScoreRecordReceipt(snap: Snapshot, spec: CommitSpec) returns (v: seq<Violation>)
    ensures forall x :: x in v <==> ReceiptLoss(snap, spec, x)
  {
    v := [];
    var key := ReceiptKey(spec);
    if key !in snap.receipts {
      v := [ReceiptLost(key)];
    } else if snap.receipts[key].digest != spec.digest || snap.receipts[key].transition != spec.event.id {
      v := [ReceiptDisagrees(key)];
    }
  }

  method ScoreRecordUnit(snap: Snapshot, spec: CommitSpec) returns (v: seq<Violation>)
    ensures forall x :: x in v <==> UnitLoss(snap, spec, x)
  {
    v := [];
    if spec.unit !in snap.units {
      v := [UnitLost(spec.unit)];
    } else if snap.units[spec.unit].version < spec.event.version {
      v := [UnitBehind(spec.unit, snap.units[spec.unit].version, spec.event.version)];
    }
  }

  method ScoreRecord(snap: Snapshot, rec: Confirmed) returns (v: seq<Violation>)
    ensures forall x :: x in v <==> LossViolation(snap, rec, x)
  {
    v := [];
    if rec.staleAccepted { v := [StaleAccepted(rec.spec.unit, rec.spec.epoch)]; }
    var events := ScoreRecordEvent(snap, rec.spec);
    var receipts := ScoreRecordReceipt(snap, rec.spec);
    var units := ScoreRecordUnit(snap, rec.spec);
    v := v + events + receipts + units;
  }

  method ScoreConfirmed(snap: Snapshot, confirmed: seq<Confirmed>) returns (v: seq<Violation>)
    ensures forall x :: x in v <==> ConfirmedViolation(snap, confirmed, x)
  {
    v := [];
    var k := 0;
    while k < |confirmed|
      invariant 0 <= k <= |confirmed|
      invariant forall x :: x in v <==> exists i :: 0 <= i < k && LossViolation(snap, confirmed[i], x)
    {
      var more := ScoreRecord(snap, confirmed[k]);
      v := v + more;
      k := k + 1;
    }
  }

  // ---------------------------------------------------------------------
  // Scoring units against the journal
  // ---------------------------------------------------------------------

  ghost function EventsIn(events: map<nat, EventRow>, done: set<nat>, aggregate: nat, version: nat): set<nat> {
    set id | id in done && id in events && events[id].aggregate == aggregate && events[id].version == version
  }

  lemma EventsInStep(events: map<nat, EventRow>, done: set<nat>, id: nat, aggregate: nat, version: nat)
    requires id in events && id !in done
    ensures |EventsIn(events, done + {id}, aggregate, version)|
            == |EventsIn(events, done, aggregate, version)|
               + if events[id].aggregate == aggregate && events[id].version == version then 1 else 0
  {
    var before, after := EventsIn(events, done, aggregate, version), EventsIn(events, done + {id}, aggregate, version);
    if events[id].aggregate == aggregate && events[id].version == version {
      assert after == before + {id};
    } else {
      assert after == before;
    }
  }

  function Times(groups: map<nat, seq<nat>>, aggregate: nat, version: nat): nat {
    if aggregate in groups then multiset(groups[aggregate])[version] else 0
  }

  function Joined(groups: map<nat, seq<nat>>, row: EventRow): map<nat, seq<nat>> {
    groups[row.aggregate := (if row.aggregate in groups then groups[row.aggregate] else []) + [row.version]]
  }

  lemma GroupStep(events: map<nat, EventRow>, groups: map<nat, seq<nat>>, done: set<nat>, id: nat, a: nat, v: nat)
    requires id in events && id !in done && Times(groups, a, v) == |EventsIn(events, done, a, v)|
    ensures Times(Joined(groups, events[id]), a, v) == |EventsIn(events, done + {id}, a, v)|
  {
    EventsInStep(events, done, id, a, v);
  }

  /** Some event among `ids` belongs to the aggregate. */
  ghost predicate HasEvent(events: map<nat, EventRow>, ids: set<nat>, a: nat) {
    exists id :: id in ids && id in events && events[id].aggregate == a
  }

  lemma HasEventStep(events: map<nat, EventRow>, done: set<nat>, id: nat, a: nat)
    requires id in events
    ensures HasEvent(events, done + {id}, a) <==> HasEvent(events, done, a) || events[id].aggregate == a
  {
    if HasEvent(events, done, a) {
      var other :| other in done && other in events && events[other].aggregate == a;
      assert other in done + {id};
    }
    if events[id].aggregate == a { assert id in done + {id}; }
  }

  method GroupVersions(events: map<nat, EventRow>) returns (groups: map<nat, seq<nat>>)
    ensures forall a, v :: Times(groups, a, v) == |EventsAt(events, a, v)|
    ensures forall a :: a in groups <==> HasEvent(events, events.Keys, a)
  {
    groups := map[];
    var left, done := events.Keys, {};
    while left != {}
      invariant left + done == events.Keys && left !! done
      invariant forall a, v :: Times(groups, a, v) == |EventsIn(events, done, a, v)|
      invariant forall a :: a in groups <==> HasEvent(events, done, a)
      decreases left
    {
      var id :| id in left;
      ghost var was := groups;
      groups := Joined(groups, events[id]);
      forall a, v ensures Times(groups, a, v) == |EventsIn(events, done + {id}, a, v)| {
        GroupStep(events, was, done, id, a, v);
      }
      forall a ensures a in groups <==> HasEvent(events, done + {id}, a) { HasEventStep(events, done, id, a); }
      left, done := left - {id}, done + {id};
    }
    assert done == events.Keys;
    forall a, v ensures Times(groups, a, v) == |EventsAt(events, a, v)| {
      assert EventsIn(events, done, a, v) == EventsAt(events, a, v);
    }
  }

  function InsertVersion(v: nat, s: seq<nat>): seq<nat> {
    if s == [] || v <= s[0] then [v] + s else [s[0]] + InsertVersion(v, s[1..])
  }

  function SortVersions(s: seq<nat>): seq<nat> {
    if s == [] then [] else InsertVersion(s[0], SortVersions(s[1..]))
  }

  predicate Ascending(s: seq<nat>) { forall i, j :: 0 <= i < j < |s| ==> s[i] <= s[j] }

  lemma {:induction false} InsertVersionPermutes(v: nat, s: seq<nat>)
    ensures multiset(InsertVersion(v, s)) == multiset(s) + multiset{v}
  {
    if s != [] && v > s[0] {
      InsertVersionPermutes(v, s[1..]);
      assert s == [s[0]] + s[1..];
    }
  }

  lemma {:induction false} InsertVersionOk(v: nat, s: seq<nat>)
    requires Ascending(s)
    ensures Ascending(InsertVersion(v, s))
  {
    if s != [] && v > s[0] {
      InsertVersionOk(v, s[1..]);
      InsertVersionPermutes(v, s[1..]);
      var r := InsertVersion(v, s[1..]);
      forall i | 0 <= i < |r| ensures s[0] <= r[i] {
        assert r[i] in multiset(r);
        assert r[i] == v || r[i] in s[1..];
      }
    }
  }

  lemma {:induction false} SortVersionsOk(s: seq<nat>)
    ensures Ascending(SortVersions(s)) && multiset(SortVersions(s)) == multiset(s)
  {
    if s != [] {
      SortVersionsOk(s[1..]);
      InsertVersionOk(s[0], SortVersions(s[1..]));
      InsertVersionPermutes(s[0], SortVersions(s[1..]));
      assert s == [s[0]] + s[1..];
    }
  }

  function UpTo(n: nat): seq<nat> { if n == 0 then [] else UpTo(n - 1) + [n] }

  lemma {:induction false} UpToAt(n: nat)
    ensures |UpTo(n)| == n && forall i :: 0 <= i < n ==> UpTo(n)[i] == i + 1
  {
    if n > 0 { UpToAt(n - 1); }
  }

  lemma {:induction false} UpToCounts(n: nat, v: nat)
    ensures multiset(UpTo(n))[v] == if 1 <= v <= n then 1 else 0
  {
    if n > 0 { UpToCounts(n - 1, v); }
  }

  lemma UpToOk(n: nat)
    ensures |UpTo(n)| == n && Ascending(UpTo(n))
    ensures forall v: nat :: multiset(UpTo(n))[v] == if 1 <= v <= n then 1 else 0
  {
    UpToAt(n);
    forall v: nat ensures multiset(UpTo(n))[v] == if 1 <= v <= n then 1 else 0 { UpToCounts(n, v); }
  }

  lemma {:induction false} AscendingUnique(a: seq<nat>, b: seq<nat>)
    requires Ascending(a) && Ascending(b) && multiset(a) == multiset(b)
    ensures a == b
  {
    assert |multiset(a)| == |a| && |multiset(b)| == |b|;
    if a != [] {
      assert a[0] in multiset(b) && b[0] in multiset(a);
      assert a[0] == b[0];
      assert multiset(a[1..]) == multiset(a) - multiset{a[0]} by { assert a == [a[0]] + a[1..]; }
      assert multiset(b[1..]) == multiset(b) - multiset{b[0]} by { assert b == [b[0]] + b[1..]; }
      AscendingUnique(a[1..], b[1..]);
      assert a == [a[0]] + a[1..] && b == [b[0]] + b[1..];
    }
  }

  /** The sorted versions read 1, 2, ..., n exactly when each of those occurs once and nothing else does. */
  lemma VersionsExactIff(s: seq<nat>, n: nat)
    ensures SortVersions(s) == UpTo(n) <==> forall v: nat :: multiset(s)[v] == if 1 <= v <= n then 1 else 0
  {
    SortVersionsOk(s);
    UpToOk(n);
    if forall v: nat :: multiset(s)[v] == if 1 <= v <= n then 1 else 0 {
      assert forall v: nat :: multiset(s)[v] == multiset(UpTo(n))[v];
      AscendingUnique(SortVersions(s), UpTo(n));
    }
  }

  method ScoreUnit(snap: Snapshot, u: nat, versions: seq<nat>) returns (v: seq<Violation>)
    requires u in snap.units
    requires forall k: nat :: multiset(versions)[k] == |EventsAt(snap.events, u, k)|
    ensures forall x :: x in v <==> UnitViolation(snap, u, x)
  {
    v := [];
    VersionsExactIff(versions, snap.units[u].version);
    if SortVersions(versions) != UpTo(snap.units[u].version) { v := v + [JournalGap(u)]; }
    var artifact := snap.units[u].artifact;
    if artifact.Some? && artifact.value !in snap.artifacts { v := v + [ArtifactUnpublished(u, artifact.value)]; }
  }

  /** Each unit takes its own group of journal versions; groups nobody takes are orphans. */
  method ScoreUnits(snap: Snapshot, grouped: map<nat, seq<nat>>) returns (v: seq<Violation>, rest: map<nat, seq<nat>>)
    requires forall a, k :: Times(grouped, a, k) == |EventsAt(snap.events, a, k)|
    ensures forall x :: x in v <==> exists u :: u in snap.units && UnitViolation(snap, u, x)
    ensures rest.Keys == grouped.Keys - snap.units.Keys
  {
    v, rest := [], grouped;
    var left, done := snap.units.Keys, {};
    while left != {}
      invariant left + done == snap.units.Keys && left !! done
      invariant forall x :: x in v <==> exists u :: u in done && UnitViolation(snap, u, x)
      invariant rest == grouped - done
      decreases left
    {
      var u :| u in left;
      var versions := if u in rest then rest[u] else [];
      forall k: nat ensures multiset(versions)[k] == |EventsAt(snap.events, u, k)| { assert Times(grouped, u, k) == |EventsAt(snap.events, u, k)|; }
      rest := rest - {u};
      var more := ScoreUnit(snap, u, versions);
      v := v + more;
      left, done := left - {u}, done + {u};
    }
  }

  method ScoreOrphans(rest: map<nat, seq<nat>>) returns (v: seq<Violation>)
    ensures forall x :: x in v <==> x.OrphanEvents? && x.aggregate in rest
  {
    v := [];
    var left, done := rest.Keys, {};
    while left != {}
      invariant left + done == rest.Keys && left !! done
      invariant forall x :: x in v <==> x.OrphanEvents? && x.aggregate in done
      decreases left
    {
      var a :| a in left;
      v := v + [OrphanEvents(a)];
      left, done := left - {a}, done + {a};
    }
  }

  // ---------------------------------------------------------------------
  // Scoring events against receipts
  // ---------------------------------------------------------------------

  ghost function ReceiptsIn(receipts: map<string, ReceiptRow>, done: set<string>, event: nat): set<string> {
    set key | key in done && key in receipts && receipts[key].transition == event
  }

  lemma ReceiptsInStep(receipts: map<string, ReceiptRow>, done: set<string>, key: string, event: nat)
    requires key in receipts && key !in done
    ensures |ReceiptsIn(receipts, done + {key}, event)|
            == |ReceiptsIn(receipts, done, event)| + if receipts[key].transition == event then 1 else 0
  {
    var before, after := ReceiptsIn(receipts, done, event), ReceiptsIn(receipts, done + {key}, event);
    if receipts[key].transition == event {
      assert after == before + {key};
    } else {
      assert after == before;
    }
  }

  function Tally(counts: map<nat, nat>, event: nat): nat { if event in counts then counts[event] else 0 }

  method CountReceipts(receipts: map<string, ReceiptRow>) returns (counts: map<nat, nat>)
    ensures forall id :: Tally(counts, id) == |ReceiptsFor(receipts, id)|
    ensures forall id :: id in counts ==> counts[id] > 0
  {
    counts := map[];
    var left, done := receipts.Keys, {};
    while left != {}
      invariant left + done == receipts.Keys && left !! done
      invariant forall id :: Tally(counts, id) == |ReceiptsIn(receipts, done, id)|
      invariant forall id :: id in counts ==> counts[id] > 0
      decreases left
    {
      var key :| key in left;
      var id := receipts[key].transition;
      var was := counts;
      counts := counts[id := Tally(counts, id) + 1];
      forall e ensures Tally(counts, e) == |ReceiptsIn(receipts, done + {key}, e)| {
        ReceiptsInStep(receipts, done, key, e);
        assert Tally(was, e) == |ReceiptsIn(receipts, done, e)|;
      }
      left, done := left - {key}, done + {key};
    }
    forall id ensures Tally(counts, id) == |ReceiptsFor(receipts, id)| {
      assert ReceiptsIn(receipts, done, id) == ReceiptsFor(receipts, id);
    }
  }

  ghost predicate CountViolationAmong(counts: map<nat, nat>, ids: set<nat>, x: Violation) {
    exists id :: id in ids && CountViolation(id, Tally(counts, id), x)
  }

  method ScoreEvent(id: nat, counts: map<nat, nat>) returns (v: seq<Violation>)
    requires forall e :: e in counts ==> counts[e] > 0
    ensures forall x :: x in v <==> CountViolation(id, Tally(counts, id), x)
  {
    v := [];
    if id !in counts {
      v := [ReceiptMissing(id)];
    } else if counts[id] != 1 {
      v := [ReceiptCount(id, counts[id])];
    }
  }

  /** Each event takes its receipt count; counts nobody takes dangle. */
  method ScoreEvents(ids: set<nat>, counted: map<nat, nat>) returns (v: seq<Violation>, rest: map<nat, nat>)
    requires forall e :: e in counted ==> counted[e] > 0
    ensures forall x :: x in v <==> CountViolationAmong(counted, ids, x)
    ensures rest == counted - ids
  {
    v, rest := [], counted;
    var left, done := ids, {};
    while left != {}
      invariant left + done == ids && left !! done
      invariant forall x :: x in v <==> CountViolationAmong(counted, done, x)
      invariant rest == counted - done
      decreases left
    {
      var id :| id in left;
      var more := ScoreEvent(id, rest);
      assert Tally(rest, id) == Tally(counted, id);
      assert rest - {id} == counted - (done + {id});
      rest := rest - {id};
      v := v + more;
      left, done := left - {id}, done + {id};
    }
  }

  method ScoreDangling(rest: map<nat, nat>) returns (v: seq<Violation>)
    ensures forall x :: x in v <==> x.ReceiptsDangling? && x.event in rest && x.count == rest[x.event]
  {
    v := [];
    var left, done := rest.Keys, {};
    while left != {}
      invariant left + done == rest.Keys && left !! done
      invariant forall x :: x in v <==> x.ReceiptsDangling? && x.event in done && x.count == rest[x.event]
      decreases left
    {
      var id :| id in left;
      v := v + [ReceiptsDangling(id, rest[id])];
      left, done := left - {id}, done + {id};
    }
  }

  // ---------------------------------------------------------------------
  // Nonterminal intents
  // ---------------------------------------------------------------------

  method TerminalOperations(effects: map<nat, EffectRow>) returns (terminal: set<string>)
    ensures forall op :: op in terminal <==> exists id :: id in effects && !Pending(effects[id].state) && effects[id].operation == op
  {
    terminal := {};
    var left, done := effects.Keys, {};
    while left != {}
      invariant left + done == effects.Keys && left !! done
      invariant forall op :: op in terminal <==> exists id :: id in done && !Pending(effects[id].state) && effects[id].operation == op
      decreases left
    {
      var id :| id in left;
      if !effects[id].state.Prepared? && !effects[id].state.Dispatched? {
        terminal := terminal + {effects[id].operation};
      }
      left, done := left - {id}, done + {id};
    }
  }

  method NonterminalIntents(snap: Snapshot) returns (ids: seq<nat>)
    ensures forall id :: id in ids <==> Nonterminal(snap, id)
    ensures forall i, j :: 0 <= i < j < |ids| ==> ids[i] != ids[j]
  {
    var terminal := TerminalOperations(snap.effects);
    ids := [];
    var left, done := snap.effects.Keys, {};
    while left != {}
      invariant left + done == snap.effects.Keys && left !! done
      invariant forall id :: id in ids <==> id in done && Nonterminal(snap, id)
      invariant forall i, j :: 0 <= i < j < |ids| ==> ids[i] != ids[j]
      decreases left
    {
      var id :| id in left;
      var e := snap.effects[id];
      if (e.state.Prepared? || e.state.Dispatched?) && e.operation !in terminal {
        ids := ids + [id];
      }
      left, done := left - {id}, done + {id};
    }
  }

  // ---------------------------------------------------------------------
  // The auditor
  // ---------------------------------------------------------------------

  method ScoreJournal(snap: Snapshot) returns (v: seq<Violation>)
    ensures forall x :: x in v <==> JournalViolation(snap, x)
  {
    var groups := GroupVersions(snap.events);
    var units, rest := ScoreUnits(snap, groups);
    var orphans := ScoreOrphans(rest);
    v := units + orphans;
  }

  method ScoreReceipts(snap: Snapshot) returns (v: seq<Violation>)
    ensures forall x :: x in v <==> ReceiptViolation(snap, x)
  {
    var counts := CountReceipts(snap.receipts);
    var events, rest := ScoreEvents(snap.events.Keys, counts);
    var dangling := ScoreDangling(rest);
    v := events + dangling;
    forall x ensures x in v <==> ReceiptViolation(snap, x) {
      if x.ReceiptsDangling? { assert Tally(counts, x.event) == |ReceiptsFor(snap.receipts, x.event)|; }
    }
  }

  /** The report lists exactly the violations earned, is empty exactly on whole
      stores, and names exactly the intents left open. */
  method Score(snap: Snapshot, confirmed: seq<Confirmed>) returns (r: Report)
    ensures forall x :: x in r.violations <==> Violates(snap, confirmed, x)
    ensures r.violations == [] <==> AuditOk(snap, confirmed)
    ensures forall id :: id in r.nonterminal <==> Nonterminal(snap, id)
    ensures forall i, j :: 0 <= i < j < |r.nonterminal| ==> r.nonterminal[i] != r.nonterminal[j]
    ensures r.unitsChecked == |snap.units| && r.eventsChecked == |snap.events| && r.confirmedChecked == |confirmed|
  {
    var losses := ScoreConfirmed(snap, confirmed);
    var journal := ScoreJournal(snap);
    var receipts := ScoreReceipts(snap);
    var ids := NonterminalIntents(snap);
    var v := losses + journal + receipts;
    assert forall x :: x in v <==> Violates(snap, confirmed, x);
    NoViolationIff(snap, confirmed);
    EmptyIff(v, snap, confirmed);
    r := Report(v, ids, |snap.units|, |snap.events|, |confirmed|);
  }

  lemma EmptyIff(v: seq<Violation>, snap: Snapshot, confirmed: seq<Confirmed>)
    requires forall x :: x in v <==> Violates(snap, confirmed, x)
    ensures v == [] <==> forall x :: !Violates(snap, confirmed, x)
  {
    if v != [] { assert v[0] in v; }
  }
}
