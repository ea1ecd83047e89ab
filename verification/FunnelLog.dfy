/** Whole histories of the store: any sequence of submitted commands, accepted or
    not, and any crash that keeps a prefix of it. */
module FunnelLogs {
  import opened Common
  import opened FunnelStore
  import opened Stores
  import opened Audits

  /** The journal event of a command describes the transition the command makes. */
  predicate WellFormed(spec: CommitSpec) {
    spec.event.aggregate == spec.unit && spec.event.version == spec.expected + 1
  }

  /** The tables after a history; refused commands leave them alone. */
  function Replay(log: seq<CommitSpec>): Tables {
    if log == [] then NO_ROWS else Next(Replay(log[..|log| - 1]), log[|log| - 1])
  }

  predicate Accepted(log: seq<CommitSpec>, i: nat)
    requires i < |log|
  {
    Decide(Replay(log[..i]), log[i]).Applied?
  }

  // ---------------------------------------------------------------------
  // Every history leaves a consistent store
  // ---------------------------------------------------------------------

  lemma EventAdded(events: map<nat, EventRow>, id: nat, row: EventRow, a: nat, v: nat)
    requires id !in events
    ensures |EventsAt(events[id := row], a, v)|
            == |EventsAt(events, a, v)| + if row.aggregate == a && row.version == v then 1 else 0
  {
    var before, after := EventsAt(events, a, v), EventsAt(events[id := row], a, v);
    if row.aggregate == a && row.version == v {
      assert after == before + {id};
    } else {
      assert after == before;
    }
  }

  lemma ReceiptAdded(receipts: map<string, ReceiptRow>, key: string, row: ReceiptRow, id: nat)
    requires key !in receipts
    ensures |ReceiptsFor(receipts[key := row], id)| == |ReceiptsFor(receipts, id)| + if row.transition == id then 1 else 0
  {
    var before, after := ReceiptsFor(receipts, id), ReceiptsFor(receipts[key := row], id);
    if row.transition == id {
      assert after == before + {key};
    } else {
      assert after == before;
    }
  }

  lemma JournalKept(t: Tables, spec: CommitSpec, u: nat)
    requires Consistent(SnapshotOf(t)) && WellFormed(spec) && Decide(t, spec).Applied?
    requires u in Next(t, spec).units
    ensures JournalExact(SnapshotOf(Next(t, spec)), u)
  {
    AppliedRows(t, spec);
    var r := Next(t, spec);
    forall v: nat
      ensures |EventsAt(r.events, u, v)| == if 1 <= v <= r.units[u].version then 1 else 0
    {
      EventAdded(t.events, spec.event.id, EventRowFor(spec.event), u, v);
      if u in t.units {
        assert JournalExact(SnapshotOf(t), u);
      } else {
        assert EventsAt(t.events, u, v) == {};
      }
    }
  }

  lemma ReceiptsKept(t: Tables, spec: CommitSpec)
    requires Consistent(SnapshotOf(t)) && Decide(t, spec).Applied?
    ensures var r := Next(t, spec);
            && (forall id :: id in r.events ==> |ReceiptsFor(r.receipts, id)| == 1)
            && (forall key :: key in r.receipts ==> r.receipts[key].transition in r.events)
  {
    AppliedRows(t, spec);
    var r := Next(t, spec);
    forall id | id in r.events ensures |ReceiptsFor(r.receipts, id)| == 1 {
      ReceiptAdded(t.receipts, ReceiptKey(spec), ReceiptRow(spec.digest, spec.event.id), id);
      if id == spec.event.id { assert ReceiptsFor(t.receipts, id) == {}; }
    }
  }

  lemma ConsistentKept(t: Tables, spec: CommitSpec)
    requires Consistent(SnapshotOf(t)) && WellFormed(spec)
    ensures Consistent(SnapshotOf(Next(t, spec)))
  {
    if Decide(t, spec).Applied? {
      AppliedRows(t, spec);
      var r := Next(t, spec);
      forall u | u in r.units ensures JournalExact(SnapshotOf(r), u) { JournalKept(t, spec, u); }
      ReceiptsKept(t, spec);
    }
  }

  /** Whatever is submitted, in whatever order, the rows agree with each other. */
  lemma {:induction false} HistoryConsistent(log: seq<CommitSpec>)
    requires forall i :: 0 <= i < |log| ==> WellFormed(log[i])
    ensures Consistent(SnapshotOf(Replay(log)))
  {
    if log != [] {
      HistoryConsistent(log[..|log| - 1]);
      ConsistentKept(Replay(log[..|log| - 1]), log[|log| - 1]);
    }
  }

  // ---------------------------------------------------------------------
  // An accepted command stays present
  // ---------------------------------------------------------------------

  lemma {:induction false} AcceptedPresent(log: seq<CommitSpec>, i: nat)
    requires i < |log| && Accepted(log, i) && WellFormed(log[i])
    ensures Present(SnapshotOf(Replay(log)), log[i])
  {
    var last := |log| - 1;
    if i < last {
      assert log[..last][..i] == log[..i];
      AcceptedPresent(log[..last], i);
    }
  }

  ghost predicate AcceptedIn(log: seq<CommitSpec>, k: nat, spec: CommitSpec)
    requires k <= |log|
  {
    exists i :: 0 <= i < k && log[i] == spec && Accepted(log, i)
  }

  /** For every history and every crash that keeps a prefix holding all confirmed
      commits, the auditor has nothing to report. */
  lemma CrashKeepsWhole(log: seq<CommitSpec>, k: nat, confirmed: seq<Confirmed>)
    requires k <= |log| && forall i :: 0 <= i < |log| ==> WellFormed(log[i])
    requires forall i :: 0 <= i < |confirmed| ==> !confirmed[i].staleAccepted && AcceptedIn(log, k, confirmed[i].spec)
    ensures AuditOk(SnapshotOf(Replay(log[..k])), confirmed)
  {
    HistoryConsistent(log[..k]);
    forall i | 0 <= i < |confirmed| ensures Present(SnapshotOf(Replay(log[..k])), confirmed[i].spec) {
      var j :| 0 <= j < k && log[j] == confirmed[i].spec && Accepted(log, j);
      assert log[..k][..j] == log[..j];
      AcceptedPresent(log[..k], j);
    }
  }

  // ---------------------------------------------------------------------
  // Every row comes from an accepted command
  // ---------------------------------------------------------------------

  ghost predicate FromAccepted(log: seq<CommitSpec>, i: int) { 0 <= i < |log| && Accepted(log, i) }

  lemma EarlierAccepted(log: seq<CommitSpec>, k: nat, i: nat)
    requires k <= |log| && i < k
    ensures FromAccepted(log[..k], i) <==> FromAccepted(log, i)
  {
    assert log[..k][..i] == log[..i];
  }

  lemma {:induction false} EventOrigin(log: seq<CommitSpec>, id: nat)
    requires id in Replay(log).events
    ensures exists i :: FromAccepted(log, i) && log[i].event.id == id
  {
    var last := |log| - 1;
    var t := Replay(log[..last]);
    if Decide(t, log[last]).Applied? { AppliedRows(t, log[last]); }
    if id in t.events {
      EventOrigin(log[..last], id);
      var i :| FromAccepted(log[..last], i) && log[..last][i].event.id == id;
      EarlierAccepted(log, last, i);
    } else {
      assert FromAccepted(log, last);
    }
  }

  lemma {:induction false} ReceiptOrigin(log: seq<CommitSpec>, key: string)
    requires key in Replay(log).receipts
    ensures exists i :: FromAccepted(log, i) && ReceiptKey(log[i]) == key
  {
    var last := |log| - 1;
    var t := Replay(log[..last]);
    if Decide(t, log[last]).Applied? { AppliedRows(t, log[last]); }
    if key in t.receipts {
      ReceiptOrigin(log[..last], key);
      var i :| FromAccepted(log[..last], i) && ReceiptKey(log[..last][i]) == key;
      EarlierAccepted(log, last, i);
    } else {
      assert FromAccepted(log, last);
    }
  }

  ghost predicate Wrote(spec: CommitSpec, id: nat, row: EffectRow) {
    && spec.effect.Some? && spec.effect.value.id == id
    && row == EffectRow(spec.effect.value.operation, spec.effect.value.state, spec.unit, spec.epoch)
  }

  lemma {:induction false} EffectOrigin(log: seq<CommitSpec>, id: nat)
    requires id in Replay(log).effects
    ensures exists i :: FromAccepted(log, i) && Wrote(log[i], id, Replay(log).effects[id])
  {
    var last := |log| - 1;
    var t := Replay(log[..last]);
    if Decide(t, log[last]).Applied? { AppliedRows(t, log[last]); }
    if id in t.effects {
      EffectOrigin(log[..last], id);
      var i :| FromAccepted(log[..last], i) && Wrote(log[..last][i], id, t.effects[id]);
      EarlierAccepted(log, last, i);
      assert Wrote(log[i], id, Replay(log).effects[id]);
    } else {
      assert FromAccepted(log, last) && Wrote(log[last], id, Replay(log).effects[id]);
    }
  }

  lemma {:induction false} ArtifactOrigin(log: seq<CommitSpec>, digest: Digest)
    requires digest in Replay(log).artifacts
    ensures exists i :: FromAccepted(log, i) && log[i].artifact == Some(digest)
  {
    var last := |log| - 1;
    var t := Replay(log[..last]);
    if Decide(t, log[last]).Applied? { AppliedRows(t, log[last]); }
    if digest in t.artifacts {
      ArtifactOrigin(log[..last], digest);
      var i :| FromAccepted(log[..last], i) && log[..last][i].artifact == Some(digest);
      EarlierAccepted(log, last, i);
    } else {
      assert FromAccepted(log, last);
    }
  }

  /** What an accepted command wrote stays on record: its receipt, its attempt, its effect. */
  lemma {:induction false} ReceiptStays(log: seq<CommitSpec>, i: nat)
    requires FromAccepted(log, i)
    ensures ReceiptKey(log[i]) in Replay(log).receipts
  {
    var last := |log| - 1;
    if i < last {
      EarlierAccepted(log, last, i);
      ReceiptStays(log[..last], i);
    }
  }

  lemma {:induction false} AttemptStays(log: seq<CommitSpec>, i: nat)
    requires FromAccepted(log, i) && log[i].kind.Dispatch?
    ensures (log[i].unit, log[i].epoch) in Replay(log).attempts
  {
    var last := |log| - 1;
    if i < last {
      EarlierAccepted(log, last, i);
      AttemptStays(log[..last], i);
    }
  }

  lemma {:induction false} EffectStays(log: seq<CommitSpec>, i: nat)
    requires FromAccepted(log, i) && log[i].effect.Some?
    ensures var id := log[i].effect.value.id;
            id in Replay(log).effects && Wrote(log[i], id, Replay(log).effects[id])
  {
    var last := |log| - 1;
    if i < last {
      EarlierAccepted(log, last, i);
      EffectStays(log[..last], i);
    }
  }

  /** No two accepted commands claim one receipt, and no two dispatches one attempt. */
  lemma AcceptedDistinct(log: seq<CommitSpec>, i: nat, j: nat)
    requires FromAccepted(log, i) && FromAccepted(log, j) && i < j
    ensures ReceiptKey(log[i]) != ReceiptKey(log[j])
    ensures log[i].kind.Dispatch? && log[j].kind.Dispatch? ==> (log[i].unit, log[i].epoch) != (log[j].unit, log[j].epoch)
  {
    EarlierAccepted(log, j, i);
    ReceiptStays(log[..j], i);
    if log[i].kind.Dispatch? { AttemptStays(log[..j], i); }
  }

  /** Attempts and leases exist only up to their unit's current epoch. */
  ghost predicate PlacesBounded(t: Tables) {
    forall p: Place :: p in t.attempts || p in t.leases ==> p.0 in t.units && p.1 <= t.units[p.0].epoch
  }

  lemma {:induction false} HistoryBounded(log: seq<CommitSpec>)
    ensures PlacesBounded(Replay(log))
  {
    if log != [] {
      var t, spec := Replay(log[..|log| - 1]), log[|log| - 1];
      HistoryBounded(log[..|log| - 1]);
      if Decide(t, spec).Applied? {
        AppliedRows(t, spec);
      }
    }
  }
}
