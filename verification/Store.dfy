/** The store itself: a graph updated by transactions, with its address book kept
    beside it. Every method is proved against the tables of FunnelStore. */
module Stores {
  import opened Common
  import opened Decimals
  import opened FunnelStore

  /** What the auditor reads back: every row map except attempts and leases. */
  datatype Snapshot = Snapshot(
    units: map<nat, UnitRow>, events: map<nat, EventRow>, receipts: map<string, ReceiptRow>,
    effects: map<nat, EffectRow>, artifacts: set<Digest>)

  function SnapshotOf(t: Tables): Snapshot { Snapshot(t.units, t.events, t.receipts, t.effects, t.artifacts) }

  ghost predicate Coherent(g: seq<Node>, books: Books) {
    books == Rebuild(g) && UniqueKeys(g) && KeysOk(g) && LineageOk(Scan(g))
  }

  lemma BooksAppend(g: seq<Node>, n: Node)
    ensures var b, r := Rebuild(g), Rebuild(g + [n]);
            && r.units == (if n.Unit? then b.units[n.id := |g|] else b.units)
            && r.events == (if n.Event? then b.events[n.id := |g|] else b.events)
            && r.attempts == (if n.Attempt? then b.attempts[(n.unit, n.epoch) := |g|] else b.attempts)
            && r.leases == (if IsLease(n) then b.leases[LeaseAt(n) := |g|] else b.leases)
  {
    assert (g + [n])[..|g|] == g;
  }

  lemma LineageKeysOk(known: bool, spec: CommitSpec)
    ensures KeysOk(LineageRows(known, spec))
  {
    PairRoundTrip(spec.unit, spec.epoch);
    assert KeyOk(UnitNode(spec)) && KeyOk(AttemptNode(spec)) && KeyOk(LeaseNode(spec));
  }

  lemma NewRowsKeysOk(known: bool, spec: CommitSpec)
    ensures KeysOk(NewRows(known, spec))
  {
    LineageKeysOk(known, spec);
  }

  class Store {
    var graph: seq<Node>
    var books: Books

    ghost predicate Valid()
      reads this
    {
      Coherent(graph, books)
    }

    ghost function View(): Tables
      reads this
    {
      Scan(graph)
    }

    constructor ()
      ensures Valid() && View() == NO_ROWS
    {
      graph, books := [], NO_BOOKS;
    }

    /** Reopen over the graph a crash left behind. */
    constructor Recover(durable: seq<Node>)
      requires UniqueKeys(durable) && KeysOk(durable) && LineageOk(Scan(durable))
      ensures Valid() && graph == durable
    {
      graph, books := durable, NO_BOOKS;
      new;
      RebuildBooks();
    }

    /** Scan the live rows into an address book, reading lease places back from key text. */
    method RebuildBooks()
      modifies this`books
      ensures books == Rebuild(graph)
      ensures old(Valid()) ==> books == old(books)
    {
      var b := NO_BOOKS;
      var i := 0;
      while i < |graph|
        invariant 0 <= i <= |graph| && b == Rebuild(graph[..i])
      {
        var n := graph[i];
        assert graph[..i + 1] == graph[..i] + [n];
        BooksAppend(graph[..i], n);
        match n {
          case Unit(id, _, _, _, _, _) => b := b.(units := b.units[id := i]);
          case Event(id, _, _, _, _, _, _, _) => b := b.(events := b.events[id := i]);
          case Attempt(_, unit, epoch, _, _) => b := b.(attempts := b.attempts[(unit, epoch) := i]);
          case Lease(key, _, _, _) =>
            var place := ParsePair(key);
            if place.Some? { b := b.(leases := b.leases[place.value := i]); }
          case _ =>
        }
        i := i + 1;
      }
      assert graph[..i] == graph;
      books := b;
    }

    /** The compare-and-swap checks against the rows as they stand. */
    method Check(spec: CommitSpec) returns (rejection: Option<Rejection>)
      requires Valid()
      ensures rejection == Verdict(View(), spec)
    {
      UnitPlace(graph, spec.unit);
      if spec.unit in books.units {
        var row := graph[books.units[spec.unit]];
        if row.version != spec.expected {
          return Some(StaleVersion(spec.unit, spec.expected, row.version));
        }
        var current := if spec.kind.Dispatch? then spec.epoch == row.epoch + 1 else spec.epoch == row.epoch;
        if !current {
          return Some(StaleLease(spec.unit, spec.epoch, row.epoch));
        }
        if !spec.kind.Dispatch? && spec.holder != row.holder {
          return Some(StaleHolder(spec.unit, spec.holder, row.holder));
        }
      } else if !spec.kind.Dispatch? || spec.expected != 0 {
        return Some(UnknownUnit(spec.unit));
      }
      rejection := None;
    }

    /** The rows a command changes in place. The attempt a closing command
        settles is always on the books. */
    method UpdateRows(spec: CommitSpec) returns (g: seq<Node>, missing: bool)
      requires Valid() && Verdict(View(), spec).None?
      ensures !missing
      ensures Scan(g) == Touch(View(), spec)
      ensures Rebuild(g) == books && UniqueKeys(g) && KeysOk(g)
    {
      g, missing := graph, false;
      var place := (spec.unit, spec.epoch);
      UnitPlace(graph, spec.unit);
      if spec.unit in books.units {
        g := UpdateUnitRow(spec);
      }
      if spec.kind.LeaseRenewal? {
        g := UpdateLeaseRow(g, books.leases, spec);
      } else if spec.kind.Cancellation? || spec.kind.OwnerDecision? {
        AttemptPlace(graph, place);
        if place in books.attempts {
          g := UpdateAttemptRow(g, books.attempts, spec);
        } else {
          missing := true;
        }
      }
    }

    method UpdateUnitRow(spec: CommitSpec) returns (g: seq<Node>)
      requires Valid() && spec.unit in books.units
      ensures Scan(g) == View().(units := TouchUnits(View().units, spec))
      ensures Rebuild(g) == books && UniqueKeys(g) && KeysOk(g)
    {
      UnitPlace(graph, spec.unit);
      var at := books.units[spec.unit];
      var row := graph[at];
      var epoch, holder := row.epoch, row.holder;
      if spec.kind.Dispatch? { epoch, holder := spec.epoch, spec.holder; }
      var artifact := if spec.artifact.Some? then spec.artifact else row.artifact;
      var n := Unit(row.id, spec.phase, spec.expected + 1, epoch, holder, artifact);
      UpdateUnit(graph, spec.unit, n);
      UpdateKeepsBooks(graph, at, n);
      UpdateKeepsKeys(graph, at, n);
      UpdateKeepsOthers(graph, at, n);
      g := graph[at := n];
    }

    /** The write set of a current command, staged beside the committed rows. */
    method Stage(spec: CommitSpec) returns (g: seq<Node>, b: Books, missing: bool)
      requires Valid() && Verdict(View(), spec).None?
      ensures !missing && b == Rebuild(g) && KeysOk(g)
      ensures UniqueKeys(g) <==> Decide(View(), spec).Applied?
      ensures UniqueKeys(g) ==> Scan(g) == Next(View(), spec) && LineageOk(Scan(g))
    {
      var known := spec.unit in books.units;
      UnitPlace(graph, spec.unit);
      var base;
      base, missing := UpdateRows(spec);
      if missing { return graph, books, true; }
      g, b := CreateLineage(base, books, known, spec);
      g, b := CreateJournal(g, b, spec);
      g := CreateExtras(g, spec);
      var lineage, journal, extra := LineageRows(known, spec), JournalRows(spec), ExtraRows(spec);
      ConcatAssociates(base + lineage, journal, extra);
      ConcatAssociates(base, lineage, journal + extra);
      CommitOk(graph, base, g, known, spec);
    }

    /** One command as one transaction: either the whole write set is committed
        and booked, or nothing changes. */
    method Apply(spec: CommitSpec) returns (outcome: Outcome)
      requires Valid()
      modifies this
      ensures Valid()
      ensures outcome == Decide(old(View()), spec)
      ensures View() == Next(old(View()), spec)
      ensures !outcome.Applied? ==> graph == old(graph) && books == old(books)
    {
      var rejection := Check(spec);
      if rejection.Some? { return Rejected(rejection.value); }
      var g, b, missing := Stage(spec);
      if missing { return AttemptMissing; }
      if !UniqueKeys(g) { return DuplicateKey; }
      graph, books := g, b;
      outcome := Applied;
    }

    /** One coherent scan of the rows for the auditor. */
    method AuditSnapshot() returns (snap: Snapshot)
      ensures snap == SnapshotOf(View())
    {
      snap := Snapshot(map[], map[], map[], map[], {});
      var i := 0;
      while i < |graph|
        invariant 0 <= i <= |graph| && snap == SnapshotOf(Scan(graph[..i]))
      {
        var n := graph[i];
        assert graph[..i + 1] == graph[..i] + [n];
        match n {
          case Unit(id, phase, version, epoch, holder, artifact) =>
            snap := snap.(units := snap.units[id := UnitRow(phase, version, epoch, holder, artifact)]);
          case Event(id, _, aggregate, version, ordinal, _, payload, _) =>
            snap := snap.(events := snap.events[id := EventRow(aggregate, version, ordinal, payload)]);
          case Receipt(key, digest, transition) =>
            snap := snap.(receipts := snap.receipts[key := ReceiptRow(digest, transition)]);
          case Effect(id, operation, state, unit, epoch) =>
            snap := snap.(effects := snap.effects[id := EffectRow(operation, state, unit, epoch)]);
          case Artifact(digest) => snap := snap.(artifacts := snap.artifacts + {digest});
          case _ =>
        }
        i := i + 1;
      }
      assert graph[..i] == graph;
    }
  }

  /** Extend a lease that is on the books; a missing one is left alone. */
  method UpdateLeaseRow(g: seq<Node>, leases: map<Place, nat>, spec: CommitSpec) returns (g': seq<Node>)
    requires leases == LeaseBook(g) && UniqueKeys(g) && KeysOk(g) && spec.kind.LeaseRenewal?
    ensures Scan(g') == Scan(g).(leases := TouchLeases(Scan(g).leases, spec))
    ensures Rebuild(g') == Rebuild(g) && UniqueKeys(g') && KeysOk(g')
  {
    var place := (spec.unit, spec.epoch);
    LeasePlace(g, place);
    g' := g;
    if place in leases {
      var at := leases[place];
      var n := Lease(g[at].key, g[at].holder, spec.step + 100, spec.step);
      LeaseRowUpdated(g, place, n);
      g' := g[at := n];
    }
  }

  /** Replacing a lease row under its own key changes that lease and nothing else. */
  lemma LeaseRowUpdated(g: seq<Node>, p: Place, n: Node)
    requires p in LeaseBook(g) && LeaseBook(g)[p] < |g| && UniqueKeys(g) && KeysOk(g)
    requires n.Lease? && SameKey(g[LeaseBook(g)[p]], n) && IsLease(n) && LeaseAt(n) == p
    ensures var g' := g[LeaseBook(g)[p] := n];
            && Scan(g') == Scan(g).(leases := Scan(g).leases[p := LeaseRowOf(n)])
            && Rebuild(g') == Rebuild(g) && UniqueKeys(g') && KeysOk(g')
  {
    var at := LeaseBook(g)[p];
    UpdateLease(g, p, n);
    UpdateKeepsBooks(g, at, n);
    UpdateKeepsKeys(g, at, n);
    UpdateKeepsOthers(g, at, n);
  }

  /** Settle the attempt a closing command acts under. */
  method UpdateAttemptRow(g: seq<Node>, attempts: map<Place, nat>, spec: CommitSpec) returns (g': seq<Node>)
    requires attempts == AttemptBook(g) && UniqueKeys(g) && KeysOk(g)
    requires Closes(spec.kind) && (spec.unit, spec.epoch) in attempts
    ensures Scan(g') == Scan(g).(attempts := TouchAttempts(Scan(g).attempts, spec))
    ensures Rebuild(g') == Rebuild(g) && UniqueKeys(g') && KeysOk(g')
  {
    var place := (spec.unit, spec.epoch);
    AttemptPlace(g, place);
    var at := attempts[place];
    var standing := if spec.kind.Cancellation? then Cancelled else Decided;
    var n := Attempt(g[at].key, g[at].unit, g[at].epoch, g[at].holder, standing);
    UpdateAttempt(g, place, n);
    UpdateKeepsBooks(g, at, n);
    UpdateKeepsKeys(g, at, n);
    UpdateKeepsOthers(g, at, n);
    g' := g[at := n];
  }

  method CreateLineage(base: seq<Node>, books: Books, known: bool, spec: CommitSpec) returns (g: seq<Node>, b: Books)
    requires books == Rebuild(base)
    ensures g == base + LineageRows(known, spec) && b == Rebuild(g)
  {
    g, b := base, books;
    if !known {
      BooksAppend(g, UnitNode(spec));
      b := b.(units := b.units[spec.unit := |g|]);
      g := g + [UnitNode(spec)];
    }
    assert g == base + if known then [] else [UnitNode(spec)];
    if spec.kind.Dispatch? {
      PairRoundTrip(spec.unit, spec.epoch);
      BooksAppend(g, AttemptNode(spec));
      b := b.(attempts := b.attempts[(spec.unit, spec.epoch) := |g|]);
      g := g + [AttemptNode(spec)];
      BooksAppend(g, LeaseNode(spec));
      b := b.(leases := b.leases[(spec.unit, spec.epoch) := |g|]);
      g := g + [LeaseNode(spec)];
    }
  }

  method CreateJournal(base: seq<Node>, books: Books, spec: CommitSpec) returns (g: seq<Node>, b: Books)
    requires books == Rebuild(base)
    ensures g == base + JournalRows(spec) && b == Rebuild(g)
  {
    BooksAppend(base, EventNode(spec));
    b := books.(events := books.events[spec.event.id := |base|]);
    g := base + [EventNode(spec)];
    BooksAppend(g, ReceiptNode(spec));
    g := g + [ReceiptNode(spec)];
  }

  /** Effect and artifact rows are not on the books. */
  method CreateExtras(base: seq<Node>, spec: CommitSpec) returns (g: seq<Node>)
    ensures g == base + ExtraRows(spec) && Rebuild(g) == Rebuild(base)
  {
    g := base;
    if spec.effect.Some? {
      BooksAppend(g, EffectNode(spec));
      g := g + [EffectNode(spec)];
    }
    assert g == base + if spec.effect.Some? then [EffectNode(spec)] else [];
    if spec.artifact.Some? {
      BooksAppend(g, Artifact(spec.artifact.value));
      g := g + [Artifact(spec.artifact.value)];
    }
  }

  /** The commit check on the new graph decides exactly freshness, and what it
      then holds is the whole write set. */
  lemma CommitOk(graph: seq<Node>, base: seq<Node>, g: seq<Node>, known: bool, spec: CommitSpec)
    requires LineageOk(Scan(graph)) && Verdict(Scan(graph), spec).None?
    requires known <==> spec.unit in Scan(graph).units
    requires Scan(base) == Touch(Scan(graph), spec) && UniqueKeys(base) && KeysOk(base)
    requires g == base + NewRows(known, spec)
    ensures UniqueKeys(g) <==> Decide(Scan(graph), spec).Applied?
    ensures KeysOk(g)
    ensures UniqueKeys(g) ==> Scan(g) == Next(Scan(graph), spec) && LineageOk(Scan(g))
  {
    NewRowsKeysOk(known, spec);
    AppendRows(base, NewRows(known, spec));
    RowsAdded(Scan(base), known, spec);
    LineageKept(Scan(graph), spec);
  }

}
