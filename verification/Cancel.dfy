/** Frozen cancellation scopes: canonical leaf-first order, validation,
    partitioned lookup, and request status over write-once delivery rows. */
module Cancellation {
  import opened Common

  const MAX_SCOPE_MEMBERS: nat := 4096

  /** The ownership tree, root first. */
  datatype Kind = Run | ExecutionUnit | Attempt | EffectIntent

  function Depth(k: Kind): nat {
    match k
    case Run => 0
    case ExecutionUnit => 1
    case Attempt => 2
    case EffectIntent => 3
  }

  predicate Contains(k: Kind, other: Kind) { Depth(k) < Depth(other) }

  datatype Attachment = Attached | Detached

  datatype Input = Input(kind: Kind, id: string, attachment: Attachment)

  datatype Member = Member(kind: Kind, id: string, attachment: Attachment, order: nat)

  datatype Scope = Scope(rootKind: Kind, rootId: string, members: seq<Member>)

  datatype ScopeError = TooLarge(count: nat) | Duplicate(id: string) | NotUnderRoot(kind: Kind, id: string)

  datatype Result<+T> = Ok(value: T) | Err(error: ScopeError)

  // ---------------------------------------------------------------------
  // The canonical order
  // ---------------------------------------------------------------------

  /** Byte-wise lexicographic order. */
  predicate Less(a: string, b: string) {
    b != [] && (a == [] || a[0] < b[0] || (a[0] == b[0] && Less(a[1..], b[1..])))
  }

  lemma {:induction false} LessTransitive(a: string, b: string, c: string)
    requires Less(a, b) && Less(b, c)
    ensures Less(a, c)
  {
    if a != [] && a[0] == b[0] == c[0] { LessTransitive(a[1..], b[1..], c[1..]); }
  }

  lemma {:induction false} LessIrreflexive(a: string)
    ensures !Less(a, a)
  {
    if a != [] { LessIrreflexive(a[1..]); }
  }

  lemma {:induction false} LessTotal(a: string, b: string)
    ensures a == b || Less(a, b) || Less(b, a)
  {
    if a != [] && b != [] && a[0] == b[0] {
      LessTotal(a[1..], b[1..]);
      if a[1..] == b[1..] { assert a == [a[0]] + a[1..] == b; }
    }
  }

  datatype Key = Key(kind: Kind, id: string)

  /** Leaf first; ties broken by identifier. */
  predicate Precedes(a: Key, b: Key) {
    Depth(a.kind) > Depth(b.kind) || (a.kind == b.kind && Less(a.id, b.id))
  }

  lemma PrecedesTransitive(a: Key, b: Key, c: Key)
    requires Precedes(a, b) && Precedes(b, c)
    ensures Precedes(a, c)
  {
    if a.kind == b.kind == c.kind { LessTransitive(a.id, b.id, c.id); }
  }

  lemma PrecedesAsymmetric(a: Key, b: Key)
    requires Precedes(a, b)
    ensures !Precedes(b, a) && a != b
  {
    if Precedes(b, a) { PrecedesTransitive(a, b, a); }
    LessIrreflexive(a.id);
  }

  lemma PrecedesTotal(a: Key, b: Key)
    ensures a == b || Precedes(a, b) || Precedes(b, a)
  {
    LessTotal(a.id, b.id);
  }

  function KeyOf(m: Input): Key { Key(m.kind, m.id) }

  predicate Ordered(s: seq<Input>) {
    forall i, j :: 0 <= i < j < |s| ==> Precedes(KeyOf(s[i]), KeyOf(s[j]))
  }

  /** Adjacent order is enough. */
  lemma {:induction false} OrderedFromAdjacent(s: seq<Input>)
    requires forall i :: 0 <= i < |s| - 1 ==> Precedes(KeyOf(s[i]), KeyOf(s[i + 1]))
    ensures Ordered(s)
  {
    if |s| > 1 {
      var init := s[..|s| - 1];
      OrderedFromAdjacent(init);
      var last := |s| - 1;
      forall i, j | 0 <= i < j < |s| ensures Precedes(KeyOf(s[i]), KeyOf(s[j])) {
        if j < last {
          assert Precedes(KeyOf(init[i]), KeyOf(init[j]));
        } else if i < last - 1 {
          assert Precedes(KeyOf(init[i]), KeyOf(init[last - 1]));
          assert Precedes(KeyOf(s[last - 1]), KeyOf(s[last]));
          PrecedesTransitive(KeyOf(s[i]), KeyOf(s[last - 1]), KeyOf(s[last]));
        }
      }
    }
  }

  /** One multiset of members has at most one ordered arrangement. */
  lemma {:induction false} OrderedUnique(a: seq<Input>, b: seq<Input>)
    requires Ordered(a) && Ordered(b) && multiset(a) == multiset(b)
    ensures a == b
    decreases |a|
  {
    if a == [] {
      assert |multiset(b)| == |b|;
    } else {
      SameHead(a, b);
      TailOf(a);
      TailOf(b);
      OrderedUnique(a[1..], b[1..]);
    }
  }

  lemma TailOf(a: seq<Input>)
    requires a != []
    ensures a == [a[0]] + a[1..] && multiset(a[1..]) == multiset(a) - multiset{a[0]}
  {
    assert a == [a[0]] + a[1..];
  }

  lemma SameHead(a: seq<Input>, b: seq<Input>)
    requires Ordered(a) && Ordered(b) && multiset(a) == multiset(b) && a != []
    ensures b != [] && a[0] == b[0]
  {
    assert a[0] in multiset(b);
    assert b[0] in multiset(a);
    if KeyOf(a[0]) != KeyOf(b[0]) { PrecedesAsymmetric(KeyOf(a[0]), KeyOf(b[0])); }
    SameKeySame(a, b[0]);
  }

  /** Keys identify members of an ordered sequence. */
  lemma SameKeySame(a: seq<Input>, x: Input)
    requires Ordered(a) && a != [] && x in a && KeyOf(a[0]) == KeyOf(x)
    ensures x == a[0]
  {
    var i :| 0 <= i < |a| && a[i] == x;
    if i > 0 { PrecedesAsymmetric(KeyOf(a[0]), KeyOf(a[i])); }
  }

  // ---------------------------------------------------------------------
  // Sorting
  // ---------------------------------------------------------------------

  function Insert(m: Input, s: seq<Input>): seq<Input> {
    if s == [] || Precedes(KeyOf(m), KeyOf(s[0])) then [m] + s else [s[0]] + Insert(m, s[1..])
  }

  function Sort(s: seq<Input>): seq<Input> {
    if s == [] then [] else Insert(s[|s| - 1], Sort(s[..|s| - 1]))
  }

  lemma {:induction false} InsertPermutes(m: Input, s: seq<Input>)
    ensures multiset(Insert(m, s)) == multiset(s) + multiset{m}
  {
    if s != [] && !Precedes(KeyOf(m), KeyOf(s[0])) {
      InsertPermutes(m, s[1..]);
      assert s == [s[0]] + s[1..];
    }
  }

  lemma {:induction false} InsertOrders(m: Input, s: seq<Input>)
    requires Ordered(s) && forall i :: 0 <= i < |s| ==> KeyOf(s[i]) != KeyOf(m)
    ensures Ordered(Insert(m, s))
  {
    if s != [] {
      var r := Insert(m, s);
      PrecedesTotal(KeyOf(m), KeyOf(s[0]));
      if Precedes(KeyOf(m), KeyOf(s[0])) {
        forall j | 0 < j < |r| ensures Precedes(KeyOf(r[0]), KeyOf(r[j])) {
          if j > 1 { PrecedesTransitive(KeyOf(m), KeyOf(s[0]), KeyOf(s[j - 1])); }
        }
      } else {
        InsertOrders(m, s[1..]);
        InsertPermutes(m, s[1..]);
        forall j | 0 < j < |r| ensures Precedes(KeyOf(r[0]), KeyOf(r[j])) {
          assert r[j] in multiset(Insert(m, s[1..]));
          assert r[j] == m || r[j] in s[1..];
        }
      }
    }
  }

  predicate KeysDistinct(s: seq<Input>) {
    forall i, j :: 0 <= i < j < |s| ==> KeyOf(s[i]) != KeyOf(s[j])
  }

  lemma {:induction false} SortPermutes(s: seq<Input>)
    ensures multiset(Sort(s)) == multiset(s) && |Sort(s)| == |s|
  {
    if s != [] {
      var init := s[..|s| - 1];
      SortPermutes(init);
      InsertPermutes(s[|s| - 1], Sort(init));
      assert s == init + [s[|s| - 1]];
    }
    assert |multiset(Sort(s))| == |Sort(s)| && |multiset(s)| == |s|;
  }

  lemma {:induction false} SortOrders(s: seq<Input>)
    requires KeysDistinct(s)
    ensures Ordered(Sort(s))
  {
    if s != [] {
      var init, m := s[..|s| - 1], s[|s| - 1];
      SortOrders(init);
      SortPermutes(init);
      forall i | 0 <= i < |Sort(init)| ensures KeyOf(Sort(init)[i]) != KeyOf(m) {
        assert Sort(init)[i] in multiset(init);
      }
      InsertOrders(m, Sort(init));
    }
  }

  lemma SortOfOrdered(s: seq<Input>)
    requires Ordered(s)
    ensures Sort(s) == s
  {
    forall i, j | 0 <= i < j < |s| ensures KeyOf(s[i]) != KeyOf(s[j]) { PrecedesAsymmetric(KeyOf(s[i]), KeyOf(s[j])); }
    SortOrders(s);
    SortPermutes(s);
    OrderedUnique(Sort(s), s);
  }

  // ---------------------------------------------------------------------
  // Freezing
  // ---------------------------------------------------------------------

  predicate UnderRoot(rootKind: Kind, rootId: string, m: Input) {
    (m.id == rootId && m.kind == rootKind) || Contains(rootKind, m.kind)
  }

  /** The first proposed member the root cannot own. */
  function FirstOutside(rootKind: Kind, rootId: string, s: seq<Input>): Option<Input> {
    if s == [] then None
    else if !UnderRoot(rootKind, rootId, s[0]) then Some(s[0])
    else FirstOutside(rootKind, rootId, s[1..])
  }

  /** The first identifier already seen earlier in the proposal. */
  function FirstRepeat(s: seq<Input>, seen: set<string>): Option<string> {
    if s == [] then None
    else if s[0].id in seen then Some(s[0].id)
    else FirstRepeat(s[1..], seen + {s[0].id})
  }

  function Numbered(s: seq<Input>): seq<Member> {
    seq(|s|, i requires 0 <= i < |s| => Member(s[i].kind, s[i].id, s[i].attachment, i))
  }

  function Frozen(rootKind: Kind, rootId: string, proposed: seq<Input>): Result<Scope> {
    if |proposed| > MAX_SCOPE_MEMBERS then Err(TooLarge(|proposed|))
    else
      var outside := FirstOutside(rootKind, rootId, proposed);
      if outside.Some? then Err(NotUnderRoot(outside.value.kind, outside.value.id))
      else
        var again := FirstRepeat(proposed, {});
        if again.Some? then Err(Duplicate(again.value))
        else Ok(Scope(rootKind, rootId, Numbered(Sort(proposed))))
  }

  method FindOutside(rootKind: Kind, rootId: string, proposed: seq<Input>) returns (outside: Option<Input>)
    ensures outside == FirstOutside(rootKind, rootId, proposed)
  {
    var i := 0;
    while i < |proposed|
      invariant 0 <= i <= |proposed|
      invariant FirstOutside(rootKind, rootId, proposed) == FirstOutside(rootKind, rootId, proposed[i..])
    {
      var m := proposed[i];
      if !(m.id == rootId && m.kind == rootKind) && !Contains(rootKind, m.kind) { return Some(m); }
      i := i + 1;
    }
    outside := None;
  }

  method FindRepeat(proposed: seq<Input>) returns (again: Option<string>)
    ensures again == FirstRepeat(proposed, {})
  {
    var seen: set<string> := {};
    var i := 0;
    while i < |proposed|
      invariant 0 <= i <= |proposed|
      invariant FirstRepeat(proposed, {}) == FirstRepeat(proposed[i..], seen)
    {
      if proposed[i].id in seen { return Some(proposed[i].id); }
      seen := seen + {proposed[i].id};
      i := i + 1;
    }
    again := None;
  }

  method Arrange(proposed: seq<Input>) returns (ordered: seq<Input>)
    ensures ordered == Sort(proposed)
  {
    ordered := [];
    var i := 0;
    while i < |proposed|
      invariant 0 <= i <= |proposed| && ordered == Sort(proposed[..i])
    {
      assert proposed[..i + 1][..i] == proposed[..i];
      ordered := Insert(proposed[i], ordered);
      i := i + 1;
    }
    assert proposed[..i] == proposed;
  }

  method Number(ordered: seq<Input>) returns (members: seq<Member>)
    ensures members == Numbered(ordered)
  {
    members := [];
    var i := 0;
    while i < |ordered|
      invariant 0 <= i <= |ordered| && members == Numbered(ordered)[..i]
    {
      var m := ordered[i];
      members := members + [Member(m.kind, m.id, m.attachment, i)];
      i := i + 1;
    }
    assert members == Numbered(ordered);
  }

  method Freeze(rootKind: Kind, rootId: string, proposed: seq<Input>) returns (r: Result<Scope>)
    ensures r == Frozen(rootKind, rootId, proposed)
  {
    if |proposed| > MAX_SCOPE_MEMBERS { return Err(TooLarge(|proposed|)); }
    var outside := FindOutside(rootKind, rootId, proposed);
    if outside.Some? { return Err(NotUnderRoot(outside.value.kind, outside.value.id)); }
    var again := FindRepeat(proposed);
    if again.Some? { return Err(Duplicate(again.value)); }
    var ordered := Arrange(proposed);
    var members := Number(ordered);
    r := Ok(Scope(rootKind, rootId, members));
  }

  predicate AllUnderRoot(rootKind: Kind, rootId: string, s: seq<Input>) {
    forall i :: 0 <= i < |s| ==> UnderRoot(rootKind, rootId, s[i])
  }

  predicate IdsDistinct(s: seq<Input>) { forall i, j :: 0 <= i < j < |s| ==> s[i].id != s[j].id }

  lemma {:induction false} NothingOutside(rootKind: Kind, rootId: string, s: seq<Input>)
    ensures FirstOutside(rootKind, rootId, s).None? <==> AllUnderRoot(rootKind, rootId, s)
  {
    if s != [] {
      NothingOutside(rootKind, rootId, s[1..]);
      assert s == [s[0]] + s[1..];
    }
  }

  lemma {:induction false} NothingRepeats(s: seq<Input>, seen: set<string>)
    ensures FirstRepeat(s, seen).None? <==>
              IdsDistinct(s) && forall i :: 0 <= i < |s| ==> s[i].id !in seen
  {
    if s != [] {
      var rest := s[1..];
      NothingRepeats(rest, seen + {s[0].id});
      if FirstRepeat(s, seen).None? {
        forall i, j | 0 <= i < j < |s| ensures s[i].id != s[j].id {
          assert rest[j - 1] == s[j];
          if i > 0 { assert rest[i - 1] == s[i]; }
        }
        forall i | 0 <= i < |s| ensures s[i].id !in seen { if i > 0 { assert rest[i - 1] == s[i]; } }
      }
    }
  }

  /** Freezing succeeds exactly on bounded, duplicate-free proposals under the root. */
  lemma FreezeSucceedsIff(rootKind: Kind, rootId: string, proposed: seq<Input>)
    ensures Frozen(rootKind, rootId, proposed).Ok? <==>
              && |proposed| <= MAX_SCOPE_MEMBERS && AllUnderRoot(rootKind, rootId, proposed) && IdsDistinct(proposed)
  {
    NothingOutside(rootKind, rootId, proposed);
    NothingRepeats(proposed, {});
  }

  function InputsOf(members: seq<Member>): seq<Input> {
    seq(|members|, i requires 0 <= i < |members| => Input(members[i].kind, members[i].id, members[i].attachment))
  }

  /** A frozen scope holds exactly the proposed members, leaf first, numbered from zero. */
  lemma FrozenIsCanonical(rootKind: Kind, rootId: string, proposed: seq<Input>)
    requires Frozen(rootKind, rootId, proposed).Ok?
    ensures var scope := Frozen(rootKind, rootId, proposed).value;
            && multiset(InputsOf(scope.members)) == multiset(proposed)
            && Ordered(InputsOf(scope.members))
            && forall i :: 0 <= i < |scope.members| ==> scope.members[i].order == i
  {
    FreezeSucceedsIff(rootKind, rootId, proposed);
    SortPermutes(proposed);
    SortOrders(proposed);
    assert InputsOf(Numbered(Sort(proposed))) == Sort(proposed);
  }

  /** A successful freeze does not depend on the order of the proposal. */
  lemma FreezeIgnoresOrder(rootKind: Kind, rootId: string, p: seq<Input>, q: seq<Input>)
    requires multiset(p) == multiset(q) && Frozen(rootKind, rootId, p).Ok?
    ensures Frozen(rootKind, rootId, q) == Frozen(rootKind, rootId, p)
  {
    FreezeSucceedsIff(rootKind, rootId, p);
    FreezeSucceedsIff(rootKind, rootId, q);
    assert |multiset(p)| == |p| && |multiset(q)| == |q|;
    forall i | 0 <= i < |q| ensures UnderRoot(rootKind, rootId, q[i]) { assert q[i] in multiset(p); }
    PermutationKeepsDistinct(p, q);
    SortPermutes(p);
    SortPermutes(q);
    SortOrders(p);
    SortOrders(q);
    OrderedUnique(Sort(p), Sort(q));
  }

  lemma PermutationKeepsDistinct(p: seq<Input>, q: seq<Input>)
    requires multiset(p) == multiset(q) && IdsDistinct(p)
    ensures IdsDistinct(q)
  {
    forall i, j | 0 <= i < j < |q| ensures q[i].id != q[j].id {
      assert q[i] in multiset(p) && q[j] in multiset(p);
      OnceInDistinct(p, q[i]);
      if q[i] == q[j] { TwiceCounts(q, i, j); }
    }
  }

  lemma OnceInDistinct(p: seq<Input>, x: Input)
    requires IdsDistinct(p) && x in p
    ensures multiset(p)[x] == 1
  {
    var k :| 0 <= k < |p| && p[k] == x;
    assert p == p[..k] + [x] + p[k + 1..];
    assert x !in p[..k] && x !in p[k + 1..];
  }

  // ---------------------------------------------------------------------
  // Validation
  // ---------------------------------------------------------------------

  predicate ValidIdentifier(s: string) {
    0 < |s| <= 64
    && forall i :: 0 <= i < |s| ==>
         'a' <= s[i] <= 'z' || 'A' <= s[i] <= 'Z' || '0' <= s[i] <= '9' || s[i] in "_.:-"
  }

  ghost predicate IdentifiersOk(scope: Scope) {
    ValidIdentifier(scope.rootId) && forall i :: 0 <= i < |scope.members| ==> ValidIdentifier(scope.members[i].id)
  }

  method Validate(scope: Scope) returns (valid: bool)
    ensures valid <==>
              IdentifiersOk(scope) && Frozen(scope.rootKind, scope.rootId, InputsOf(scope.members)) == Ok(scope)
  {
    valid := CheckShape(scope);
    if !valid { ShapeIff(scope); return; }
    var i := 0;
    while i + 1 < |scope.members|
      invariant i == 0 || 0 < i < |scope.members|
      invariant forall k :: 0 <= k < i ==> Adjacent(scope.members, k)
    {
      var a, b := scope.members[i], scope.members[i + 1];
      if !(Depth(a.kind) > Depth(b.kind) || (a.kind == b.kind && Less(a.id, b.id))) {
        assert !Adjacent(scope.members, i);
        ShapeIff(scope);
        return false;
      }
      i := i + 1;
    }
    ShapeIff(scope);
  }

  predicate Adjacent(members: seq<Member>, k: nat)
    requires k + 1 < |members|
  {
    Precedes(Key(members[k].kind, members[k].id), Key(members[k + 1].kind, members[k + 1].id))
  }

  ghost predicate MemberOk(scope: Scope, i: nat)
    requires i < |scope.members|
  {
    var m := scope.members[i];
    && UnderRoot(scope.rootKind, scope.rootId, Input(m.kind, m.id, m.attachment))
    && ValidIdentifier(m.id) && m.order == i
    && forall k :: 0 <= k < i ==> scope.members[k].id != m.id
  }

  /** Size, identifiers, numbering, ownership and distinctness, in one pass over a growing set. */
  method CheckShape(scope: Scope) returns (ok: bool)
    ensures ok <==>
              && |scope.members| <= MAX_SCOPE_MEMBERS && ValidIdentifier(scope.rootId)
              && forall i :: 0 <= i < |scope.members| ==> MemberOk(scope, i)
  {
    if |scope.members| > MAX_SCOPE_MEMBERS || !ValidIdentifier(scope.rootId) { return false; }
    var seen: set<string> := {};
    var i := 0;
    while i < |scope.members|
      invariant 0 <= i <= |scope.members|
      invariant forall id :: id in seen <==> exists k :: 0 <= k < i && scope.members[k].id == id
      invariant forall k :: 0 <= k < i ==> MemberOk(scope, k)
    {
      var m := scope.members[i];
      var isRoot := m.id == scope.rootId && m.kind == scope.rootKind;
      if (!isRoot && !Contains(scope.rootKind, m.kind)) || !ValidIdentifier(m.id) || m.order != i || m.id in seen {
        assert !MemberOk(scope, i);
        return false;
      }
      seen := seen + {m.id};
      i := i + 1;
    }
    ok := true;
  }

  ghost predicate Shaped(scope: Scope) {
    && |scope.members| <= MAX_SCOPE_MEMBERS && ValidIdentifier(scope.rootId)
    && (forall i :: 0 <= i < |scope.members| ==> MemberOk(scope, i))
    && (forall k :: 0 <= k < |scope.members| - 1 ==> Adjacent(scope.members, k))
  }

  /** What the validator checks is exactly being well formed and a fixed point of freezing. */
  lemma ShapeIff(scope: Scope)
    ensures Shaped(scope) <==>
              IdentifiersOk(scope) && Frozen(scope.rootKind, scope.rootId, InputsOf(scope.members)) == Ok(scope)
  {
    if Shaped(scope) {
      ShapedIsFrozen(scope);
    } else if IdentifiersOk(scope) && Frozen(scope.rootKind, scope.rootId, InputsOf(scope.members)) == Ok(scope) {
      FrozenIsShaped(scope);
    }
  }

  lemma FrozenIsShaped(scope: Scope)
    requires IdentifiersOk(scope) && Frozen(scope.rootKind, scope.rootId, InputsOf(scope.members)) == Ok(scope)
    ensures Shaped(scope)
  {
    var inputs := InputsOf(scope.members);
    FreezeSucceedsIff(scope.rootKind, scope.rootId, inputs);
    FrozenIsCanonical(scope.rootKind, scope.rootId, inputs);
    forall i: nat | i < |scope.members| ensures MemberOk(scope, i) {
      assert UnderRoot(scope.rootKind, scope.rootId, inputs[i]);
      forall k | 0 <= k < i ensures scope.members[k].id != scope.members[i].id { assert inputs[k].id != inputs[i].id; }
    }
    forall k: nat | k < |scope.members| - 1 ensures Adjacent(scope.members, k) {
      assert Precedes(KeyOf(inputs[k]), KeyOf(inputs[k + 1]));
    }
  }

  lemma ShapedIsFrozen(scope: Scope)
    requires Shaped(scope)
    ensures IdentifiersOk(scope) && Frozen(scope.rootKind, scope.rootId, InputsOf(scope.members)) == Ok(scope)
  {
    var inputs := InputsOf(scope.members);
    forall i | 0 <= i < |inputs| - 1 ensures Precedes(KeyOf(inputs[i]), KeyOf(inputs[i + 1])) {
      assert Adjacent(scope.members, i);
    }
    OrderedFromAdjacent(inputs);
    SortOfOrdered(inputs);
    forall i: nat | i < |scope.members| ensures UnderRoot(scope.rootKind, scope.rootId, inputs[i]) && scope.members[i].order == i && ValidIdentifier(scope.members[i].id) {
      assert MemberOk(scope, i);
    }
    forall i, j | 0 <= i < j < |inputs| ensures inputs[i].id != inputs[j].id {
      assert MemberOk(scope, j);
      assert scope.members[i].id != scope.members[j].id;
    }
    FreezeSucceedsIff(scope.rootKind, scope.rootId, inputs);
    assert Numbered(inputs) == scope.members;
  }

  // ---------------------------------------------------------------------
  // Lookup
  // ---------------------------------------------------------------------

  /** The first member with this identifier, found by a linear scan. */
  function LinearFind(members: seq<Member>, id: string): Option<Member> {
    if members == [] then None
    else if members[0].id == id then Some(members[0])
    else LinearFind(members[1..], id)
  }

  function MemberKey(m: Member): Key { Key(m.kind, m.id) }

  predicate MembersOrdered(members: seq<Member>) {
    forall i, j :: 0 <= i < j < |members| ==> Precedes(MemberKey(members[i]), MemberKey(members[j]))
  }

  /** Binary search for one kind's partition of the canonical order. */
  method Search(members: seq<Member>, key: Key) returns (at: Option<nat>)
    ensures at.Some? ==> at.value < |members| && MemberKey(members[at.value]) == key
    ensures MembersOrdered(members) && at.None? ==> forall i :: 0 <= i < |members| ==> MemberKey(members[i]) != key
  {
    var lo, hi := 0, |members|;
    while lo < hi
      invariant 0 <= lo <= hi <= |members|
      invariant MembersOrdered(members) ==> forall i :: 0 <= i < lo ==> MemberKey(members[i]) != key
      invariant MembersOrdered(members) ==> forall i :: hi <= i < |members| ==> MemberKey(members[i]) != key
    {
      var mid := (lo + hi) / 2;
      var found := MemberKey(members[mid]);
      if found == key { return Some(mid); }
      PrecedesTotal(found, key);
      if Precedes(found, key) {
        forall i | MembersOrdered(members) && lo <= i <= mid ensures MemberKey(members[i]) != key {
          if i < mid { PrecedesTransitive(MemberKey(members[i]), found, key); }
          PrecedesAsymmetric(MemberKey(members[i]), key);
        }
        lo := mid + 1;
      } else {
        forall i | MembersOrdered(members) && mid <= i < hi ensures MemberKey(members[i]) != key {
          if i > mid { PrecedesTransitive(key, found, MemberKey(members[i])); }
          PrecedesAsymmetric(key, MemberKey(members[i]));
        }
        hi := mid;
      }
    }
    at := None;
  }

  /** On every valid scope the four partitioned searches find exactly what a linear scan finds. */
  method Find(scope: Scope, id: string) returns (found: Option<Member>)
    ensures found.Some? ==> found.value in scope.members && found.value.id == id
    ensures Frozen(scope.rootKind, scope.rootId, InputsOf(scope.members)) == Ok(scope) ==>
              found == LinearFind(scope.members, id)
  {
    var kinds := [EffectIntent, Attempt, ExecutionUnit, Run];
    if Frozen(scope.rootKind, scope.rootId, InputsOf(scope.members)) == Ok(scope) { FrozenLookup(scope, id); }
    var i := 0;
    while i < |kinds|
      invariant 0 <= i <= |kinds|
      invariant MembersOrdered(scope.members) ==>
                  forall j, k :: 0 <= j < |scope.members| && 0 <= k < i ==> MemberKey(scope.members[j]) != Key(kinds[k], id)
    {
      var at := Search(scope.members, Key(kinds[i], id));
      if at.Some? { return Some(scope.members[at.value]); }
      i := i + 1;
    }
    found := None;
    forall j | MembersOrdered(scope.members) && 0 <= j < |scope.members| ensures scope.members[j].id != id {
      var k := 3 - Depth(scope.members[j].kind);
      assert kinds[k] == scope.members[j].kind;
      assert MemberKey(scope.members[j]) != Key(kinds[k], id);
    }
  }

  lemma FrozenLookup(scope: Scope, id: string)
    requires Frozen(scope.rootKind, scope.rootId, InputsOf(scope.members)) == Ok(scope)
    ensures MembersOrdered(scope.members)
    ensures forall i :: 0 <= i < |scope.members| && scope.members[i].id == id ==>
              LinearFind(scope.members, id) == Some(scope.members[i])
    ensures (forall i :: 0 <= i < |scope.members| ==> scope.members[i].id != id) ==> LinearFind(scope.members, id).None?
  {
    var inputs := InputsOf(scope.members);
    FrozenIsCanonical(scope.rootKind, scope.rootId, inputs);
    FreezeSucceedsIff(scope.rootKind, scope.rootId, inputs);
    forall i, j | 0 <= i < j < |scope.members| ensures Precedes(MemberKey(scope.members[i]), MemberKey(scope.members[j])) {
      assert Precedes(KeyOf(inputs[i]), KeyOf(inputs[j]));
    }
    forall i, j | 0 <= i < j < |scope.members| ensures scope.members[i].id != scope.members[j].id {
      assert inputs[i].id != inputs[j].id;
    }
    LinearFindUnique(scope.members, id);
  }

  lemma {:induction false} LinearFindUnique(members: seq<Member>, id: string)
    requires forall i, j :: 0 <= i < j < |members| ==> members[i].id != members[j].id
    ensures forall i :: 0 <= i < |members| && members[i].id == id ==> LinearFind(members, id) == Some(members[i])
    ensures (forall i :: 0 <= i < |members| ==> members[i].id != id) ==> LinearFind(members, id).None?
  {
    if members != [] {
      LinearFindUnique(members[1..], id);
      forall i | 0 <= i < |members| && members[i].id == id ensures LinearFind(members, id) == Some(members[i]) {
        if i > 0 { assert members[1..][i - 1] == members[i]; }
      }
    }
  }

  datatype Policy = AttachedCascade | RootOnly

  method Governs(policy: Policy, scope: Scope, id: string) returns (governed: bool)
    requires Frozen(scope.rootKind, scope.rootId, InputsOf(scope.members)) == Ok(scope)
    ensures governed <==>
              match policy
              case RootOnly => id == scope.rootId
              case AttachedCascade => exists i :: 0 <= i < |scope.members| && scope.members[i].id == id && scope.members[i].attachment.Attached?
  {
    match policy
    case RootOnly => governed := scope.rootId == id;
    case AttachedCascade =>
      var found := Find(scope, id);
      FrozenLookup(scope, id);
      governed := found.Some? && found.value.attachment == Attached;
  }

  // ---------------------------------------------------------------------
  // Status over write-once delivery rows
  // ---------------------------------------------------------------------

  datatype Outcome = ObservedStopped | Unresponsive | AlreadyTerminal | DetachedDeclined

  predicate Discharged(o: Outcome) { !o.Unresponsive? }

  datatype Delivery = Delivery(id: string, outcome: Outcome)

  datatype Status = Requested | Delivering | ObservedPartial | Settled

  function Rank(s: Status): nat {
    match s
    case Requested => 0
    case Delivering => 1
    case ObservedPartial => 2
    case Settled => 3
  }

  /** Later rows for one member overwrite earlier ones. */
  function Outcomes(rows: seq<Delivery>): map<string, Outcome> {
    if rows == [] then map[] else Outcomes(rows[..|rows| - 1])[rows[|rows| - 1].id := rows[|rows| - 1].outcome]
  }

  function StatusAfter(members: seq<Member>, rows: seq<Delivery>): Status {
    if members == [] then Settled
    else if rows == [] then Requested
    else
      var outcomes := Outcomes(rows);
      if forall i :: 0 <= i < |members| ==> members[i].id in outcomes && Discharged(outcomes[members[i].id]) then Settled
      else if forall i :: 0 <= i < |members| ==> members[i].id in outcomes then ObservedPartial
      else Delivering
  }

  /** The store keeps one row per request and member. */
  predicate WriteOnce(rows: seq<Delivery>) { forall i, j :: 0 <= i < j < |rows| ==> rows[i].id != rows[j].id }

  lemma {:induction false} OutcomesAreRows(rows: seq<Delivery>)
    requires WriteOnce(rows)
    ensures forall id, outcome ::
              (id in Outcomes(rows) && Outcomes(rows)[id] == outcome) <==> Delivery(id, outcome) in rows
  {
    if rows != [] {
      var last := |rows| - 1;
      OutcomesAreRows(rows[..last]);
      assert rows == rows[..last] + [rows[last]];
    }
  }

  ghost predicate DischargedBy(rows: seq<Delivery>, id: string) {
    exists outcome :: Delivery(id, outcome) in rows && Discharged(outcome)
  }

  /** Settled means: every frozen member has a discharged row, however the rows arrived. */
  lemma SettledIff(members: seq<Member>, rows: seq<Delivery>)
    requires WriteOnce(rows)
    ensures StatusAfter(members, rows).Settled? <==>
              forall i :: 0 <= i < |members| ==> DischargedBy(rows, members[i].id)
  {
    OutcomesAreRows(rows);
    forall i | 0 <= i < |members|
      ensures DischargedBy(rows, members[i].id) <==>
                members[i].id in Outcomes(rows) && Discharged(Outcomes(rows)[members[i].id])
    {
      if members[i].id in Outcomes(rows) { assert Delivery(members[i].id, Outcomes(rows)[members[i].id]) in rows; }
    }
    if members != [] { assert DischargedBy(rows, members[0].id) ==> rows != []; }
  }

  /** Only the set of rows matters. */
  lemma StatusIgnoresOrder(members: seq<Member>, rows: seq<Delivery>, rows': seq<Delivery>)
    requires WriteOnce(rows) && WriteOnce(rows') && forall d :: d in rows <==> d in rows'
    ensures StatusAfter(members, rows) == StatusAfter(members, rows')
  {
    OutcomesAreRows(rows);
    OutcomesAreRows(rows');
    forall id | id in Outcomes(rows)
      ensures id in Outcomes(rows') && Outcomes(rows')[id] == Outcomes(rows)[id]
    {
      assert Delivery(id, Outcomes(rows)[id]) in rows;
    }
    forall id | id in Outcomes(rows')
      ensures id in Outcomes(rows)
    {
      assert Delivery(id, Outcomes(rows')[id]) in rows';
    }
    assert Outcomes(rows) == Outcomes(rows');
    assert |rows| > 0 ==> rows[0] in rows';
    assert |rows'| > 0 ==> rows'[0] in rows;
  }

  /** As write-once rows accumulate the status never moves backwards, and one
      unresponsive member rules out settlement for good. */
  lemma StatusOnlyAdvances(members: seq<Member>, rows: seq<Delivery>, more: seq<Delivery>)
    requires WriteOnce(rows + more)
    ensures Rank(StatusAfter(members, rows)) <= Rank(StatusAfter(members, rows + more))
    ensures (exists i :: 0 <= i < |members| && Delivery(members[i].id, Unresponsive) in rows) ==>
              !StatusAfter(members, rows + more).Settled?
  {
    var all := rows + more;
    assert WriteOnce(rows) by {
      forall i, j | 0 <= i < j < |rows| ensures rows[i].id != rows[j].id { assert all[i] == rows[i] && all[j] == rows[j]; }
    }
    OutcomesAreRows(rows);
    OutcomesAreRows(all);
    forall id | id in Outcomes(rows) ensures id in Outcomes(all) && Outcomes(all)[id] == Outcomes(rows)[id] {
      assert Delivery(id, Outcomes(rows)[id]) in rows;
      assert Delivery(id, Outcomes(rows)[id]) in all;
    }
  }

  lemma {:induction false} OutcomesGrow(rows: seq<Delivery>, more: seq<Delivery>, id: string)
    requires id in Outcomes(rows)
    ensures id in Outcomes(rows + more)
    decreases |more|
  {
    if more == [] {
      assert rows + more == rows;
    } else {
      var last := |more| - 1;
      OutcomesGrow(rows, more[..last], id);
      assert (rows + more)[..|rows + more| - 1] == rows + more[..last];
    }
  }

  /** No identifier that was discharged is undischarged by the further rows. */
  ghost predicate StaysDischarged(rows: seq<Delivery>, more: seq<Delivery>) {
    forall id :: id in Outcomes(rows) && Discharged(Outcomes(rows)[id]) ==>
                   id in Outcomes(rows + more) && Discharged(Outcomes(rows + more)[id])
  }

  ghost predicate Advances(members: seq<Member>, rows: seq<Delivery>, more: seq<Delivery>) {
    Rank(StatusAfter(members, rows)) <= Rank(StatusAfter(members, rows + more))
  }

  /** For rows of any kind, status moves backwards for no scope exactly when no
      discharged identifier is undischarged later; write-once rows are one such case. */
  lemma StatusAdvancesIff(rows: seq<Delivery>, more: seq<Delivery>)
    ensures (forall members :: Advances(members, rows, more)) <==> StaysDischarged(rows, more)
  {
    if StaysDischarged(rows, more) {
      forall members ensures Advances(members, rows, more) {
        forall id | id in Outcomes(rows) ensures id in Outcomes(rows + more) { OutcomesGrow(rows, more, id); }
        assert |rows + more| >= |rows|;
      }
    } else {
      var id :| id in Outcomes(rows) && Discharged(Outcomes(rows)[id])
                && !(id in Outcomes(rows + more) && Discharged(Outcomes(rows + more)[id]));
      UndischargedFallsBack(rows, more, id);
    }
  }

  /** The scope of the one member that was undischarged falls back from Settled. */
  lemma UndischargedFallsBack(rows: seq<Delivery>, more: seq<Delivery>, id: string)
    requires id in Outcomes(rows) && Discharged(Outcomes(rows)[id])
    requires !(id in Outcomes(rows + more) && Discharged(Outcomes(rows + more)[id]))
    ensures !Advances([Member(Run, id, Attached, 0)], rows, more)
  {
    var members := [Member(Run, id, Attached, 0)];
    OutcomesGrow(rows, more, id);
    assert rows != [] && rows + more != [];
    assert members[0].id == id;
    assert StatusAfter(members, rows).Settled?;
    assert !StatusAfter(members, rows + more).Settled?;
  }

  /** The write-once key is what makes this true: a second row for a member can unsettle a request. */
  lemma SecondRowUnsettles(m: Member)
    ensures StatusAfter([m], [Delivery(m.id, ObservedStopped)]).Settled?
    ensures StatusAfter([m], [Delivery(m.id, ObservedStopped), Delivery(m.id, Unresponsive)]).ObservedPartial?
  {
    var one, two := [Delivery(m.id, ObservedStopped)], [Delivery(m.id, ObservedStopped), Delivery(m.id, Unresponsive)];
    assert two[..1] == one && one[..0] == [];
    assert Outcomes(one) == map[m.id := ObservedStopped];
    assert forall i :: 0 <= i < |[m]| ==> [m][i] == m;
    assert Outcomes(two) == Outcomes(one)[m.id := Unresponsive];
    assert [m][0].id in Outcomes(two) && !Discharged(Outcomes(two)[[m][0].id]);
  }
}
