/** Strict JSON admission: the raw byte scan that refuses over-wide integer
    literals before parsing, and the rules enforced while the parsed value is
    built.  Texts follow the grammar of RFC 8259; the safe-integer and
    distinct-name rules are those of sections 2.2 and 2.3 of RFC 7493. */
module StrictJson {
  import opened Common

  const QUOTE: byte := 0x22
  const BACKSLASH: byte := 0x5C
  const MINUS: byte := 0x2D
  const PLUS: byte := 0x2B
  const DOT: byte := 0x2E
  const LOWER_E: byte := 0x65
  const UPPER_E: byte := 0x45

  predicate IsDigit(b: byte) { 0x30 <= b <= 0x39 }

  predicate StartsFloatTail(b: byte) { b == DOT || b == LOWER_E || b == UPPER_E }

  predicate IsFloatByte(b: byte) { StartsFloatTail(b) || b == PLUS || b == MINUS || IsDigit(b) }

  // ---------------------------------------------------------------------
  // The scan
  // ---------------------------------------------------------------------

  const I64_MIN_MAGNITUDE: nat := 0x8000_0000_0000_0000

  function Magnitude(digits: seq<byte>): nat {
    if digits == [] then 0
    else Magnitude(digits[..|digits| - 1]) * 10 + (if IsDigit(digits[|digits| - 1]) then digits[|digits| - 1] as nat - 0x30 else 0)
  }

  /** Whether a scanned integer token parses as `i64` (with a sign) or `u64` (without); a lone sign is left to the parser. */
  predicate Fits(token: seq<byte>) {
    if token != [] && token[0] == MINUS then |token| == 1 || Magnitude(token[1..]) <= I64_MIN_MAGNITUDE
    else token != [] && Magnitude(token) <= U64_MAX
  }

  datatype Verdict = Accepted | Refused(token: seq<byte>)

  function DigitRun(s: seq<byte>): (n: nat)
    ensures n <= |s|
  {
    if s != [] && IsDigit(s[0]) then 1 + DigitRun(s[1..]) else 0
  }

  function FloatRun(s: seq<byte>): (n: nat)
    ensures n <= |s|
  {
    if s != [] && IsFloatByte(s[0]) then 1 + FloatRun(s[1..]) else 0
  }

  /** What follows a string whose opening quote has been consumed. */
  function AfterString(s: seq<byte>): (rest: seq<byte>)
    ensures |rest| <= |s|
  {
    if s == [] then []
    else if s[0] == BACKSLASH then if |s| >= 2 then AfterString(s[2..]) else []
    else if s[0] == QUOTE then s[1..]
    else AfterString(s[1..])
  }

  /** Sign and digits of the number token at the front. */
  function TokenLength(s: seq<byte>): (n: nat)
    requires s != [] && (s[0] == MINUS || IsDigit(s[0]))
    ensures 0 < n <= |s|
  {
    if s[0] == MINUS then 1 + DigitRun(s[1..]) else DigitRun(s)
  }

  function Scan(s: seq<byte>): Verdict
    decreases |s|
  {
    if s == [] then Accepted
    else if s[0] == QUOTE then Scan(AfterString(s[1..]))
    else if s[0] == MINUS || IsDigit(s[0]) then
      var k := TokenLength(s);
      if k < |s| && StartsFloatTail(s[k]) then Scan(s[k + FloatRun(s[k..])..])
      else if !Fits(s[..k]) then Refused(s[..k])
      else Scan(s[k..])
    else Scan(s[1..])
  }

  function From(bytes: seq<byte>, i: nat): seq<byte> { if i >= |bytes| then [] else bytes[i..] }

  method RefuseOverflowingIntegers(bytes: seq<byte>) returns (verdict: Verdict)
    ensures verdict == Scan(bytes)
  {
    var i: nat := 0;
    while i < |bytes|
      invariant Scan(bytes) == Scan(From(bytes, i))
    {
      if bytes[i] == QUOTE {
        assert bytes[i..][1..] == From(bytes, i + 1);
        i := SkipString(bytes, i + 1);
      } else if bytes[i] == MINUS || IsDigit(bytes[i]) {
        var refused;
        i, refused := ScanToken(bytes, i);
        if refused.Some? { return Refused(refused.value); }
      } else {
        assert bytes[i..][1..] == From(bytes, i + 1);
        i := i + 1;
      }
    }
    verdict := Accepted;
  }

  /** Consume one number token; an over-wide integer token is handed back. */
  method ScanToken(bytes: seq<byte>, start: nat) returns (i: nat, refused: Option<seq<byte>>)
    requires start < |bytes| && (bytes[start] == MINUS || IsDigit(bytes[start]))
    ensures refused.None? ==> start < i <= |bytes| && Scan(bytes[start..]) == Scan(bytes[i..])
    ensures refused.Some? ==> Scan(bytes[start..]) == Refused(refused.value)
  {
    i := SkipInteger(bytes, start);
    TokenAt(bytes, start, i);
    refused := None;
    if i < |bytes| && StartsFloatTail(bytes[i]) {
      i := SkipFloat(bytes, i);
    } else if !Fits(bytes[start..i]) {
      refused := Some(bytes[start..i]);
    }
  }

  /** An optional minus sign, then digits. */
  method SkipInteger(bytes: seq<byte>, start: nat) returns (i: nat)
    requires start < |bytes| && (bytes[start] == MINUS || IsDigit(bytes[start]))
    ensures i == if bytes[start] == MINUS then start + 1 + DigitRun(bytes[start + 1..]) else start + DigitRun(bytes[start..])
  {
    i := start;
    if bytes[i] == MINUS { i := i + 1; }
    i := SkipDigits(bytes, i);
  }

  lemma TokenAt(bytes: seq<byte>, start: nat, end: nat)
    requires start < |bytes| && (bytes[start] == MINUS || IsDigit(bytes[start]))
    requires end == if bytes[start] == MINUS then start + 1 + DigitRun(bytes[start + 1..]) else start + DigitRun(bytes[start..])
    ensures start < end <= |bytes|
    ensures Scan(bytes[start..])
         == if end < |bytes| && StartsFloatTail(bytes[end]) then Scan(bytes[end + FloatRun(bytes[end..])..])
            else if !Fits(bytes[start..end]) then Refused(bytes[start..end])
            else Scan(bytes[end..])
  {
    var s, k := bytes[start..], end - start;
    assert s[1..] == bytes[start + 1..];
    assert k == TokenLength(s);
    assert s[k..] == bytes[end..] && s[..k] == bytes[start..end];
    assert s[k + FloatRun(s[k..])..] == bytes[end + FloatRun(bytes[end..])..];
  }

  method SkipString(bytes: seq<byte>, start: nat) returns (i: nat)
    ensures i >= start && From(bytes, i) == AfterString(From(bytes, start))
  {
    i := start;
    while i < |bytes|
      invariant i >= start && AfterString(From(bytes, start)) == AfterString(From(bytes, i))
    {
      if bytes[i] == BACKSLASH {
        i := i + 2;
      } else if bytes[i] == QUOTE {
        return i + 1;
      } else {
        i := i + 1;
      }
    }
  }

  method SkipDigits(bytes: seq<byte>, start: nat) returns (i: nat)
    requires start <= |bytes|
    ensures i == start + DigitRun(bytes[start..])
  {
    i := start;
    while i < |bytes| && IsDigit(bytes[i])
      invariant start <= i <= |bytes|
      invariant DigitRun(bytes[start..]) == i - start + DigitRun(bytes[i..])
    {
      i := i + 1;
    }
  }

  method SkipFloat(bytes: seq<byte>, start: nat) returns (i: nat)
    requires start <= |bytes|
    ensures i == start + FloatRun(bytes[start..])
  {
    i := start;
    while i < |bytes| && IsFloatByte(bytes[i])
      invariant start <= i <= |bytes|
      invariant FloatRun(bytes[start..]) == i - start + FloatRun(bytes[i..])
    {
      i := i + 1;
    }
  }

  // ---------------------------------------------------------------------
  // The grammar: parse trees that keep every byte
  // ---------------------------------------------------------------------

  datatype StringPiece =
    | Plain(b: byte)                 // any byte of an unescaped character
    | Escape(b: byte)                // quote, reverse solidus, solidus, b, f, n, r, t
    | Unicode(hex: seq<byte>)        // four hexadecimal digits

  datatype Exponent = Exponent(marker: byte, sign: Option<byte>, digits: seq<byte>)

  datatype Number = Number(negative: bool, digits: seq<byte>, fraction: Option<seq<byte>>, exponent: Option<Exponent>)

  datatype Value =
    | True | False | Null
    | Num(number: Number)
    | Str(pieces: seq<StringPiece>)
    | EmptyArray(space: seq<byte>)
    | Array(items: seq<Item>)
    | EmptyObject(space: seq<byte>)
    | Object(members: seq<Member>)

  /** A value with the whitespace around it. */
  datatype Item = Item(before: seq<byte>, value: Value, after: seq<byte>)

  datatype Member = Member(before: seq<byte>, name: seq<StringPiece>, between: seq<byte>, item: Item)

  predicate IsSpace(b: byte) { b == 0x20 || b == 0x09 || b == 0x0A || b == 0x0D }

  predicate IsHex(b: byte) { IsDigit(b) || 0x41 <= b <= 0x46 || 0x61 <= b <= 0x66 }

  predicate AllSpace(s: seq<byte>) { forall i :: 0 <= i < |s| ==> IsSpace(s[i]) }

  predicate AllDigits(s: seq<byte>) { s != [] && forall i :: 0 <= i < |s| ==> IsDigit(s[i]) }

  predicate PieceOk(p: StringPiece) {
    match p
    case Plain(b) => b >= 0x20 && b != QUOTE && b != BACKSLASH
    case Escape(b) => b in [QUOTE, BACKSLASH, 0x2F, 0x62, 0x66, 0x6E, 0x72, 0x74]
    case Unicode(hex) => |hex| == 4 && forall i :: 0 <= i < 4 ==> IsHex(hex[i])
  }

  predicate StringOk(pieces: seq<StringPiece>) { forall i :: 0 <= i < |pieces| ==> PieceOk(pieces[i]) }

  predicate NumberOk(n: Number) {
    && AllDigits(n.digits) && (n.digits[0] == 0x30 ==> |n.digits| == 1)
    && (n.fraction.Some? ==> AllDigits(n.fraction.value))
    && (n.exponent.Some? ==>
          && (n.exponent.value.marker == LOWER_E || n.exponent.value.marker == UPPER_E)
          && (n.exponent.value.sign.Some? ==> n.exponent.value.sign.value == PLUS || n.exponent.value.sign.value == MINUS)
          && AllDigits(n.exponent.value.digits))
  }

  predicate ValueOk(v: Value)
    decreases v
  {
    match v
    case Num(n) => NumberOk(n)
    case Str(pieces) => StringOk(pieces)
    case EmptyArray(space) => AllSpace(space)
    case EmptyObject(space) => AllSpace(space)
    case Array(items) => items != [] && forall i :: 0 <= i < |items| ==> ItemOk(items[i])
    case Object(members) => members != [] && forall i :: 0 <= i < |members| ==> MemberOk(members[i])
    case _ => true
  }

  predicate ItemOk(item: Item)
    decreases item
  {
    AllSpace(item.before) && ValueOk(item.value) && AllSpace(item.after)
  }

  predicate MemberOk(m: Member)
    decreases m
  {
    AllSpace(m.before) && StringOk(m.name) && AllSpace(m.between) && ItemOk(m.item)
  }

  // ---------------------------------------------------------------------
  // The text of a tree
  // ---------------------------------------------------------------------

  function PieceText(p: StringPiece): seq<byte> {
    match p
    case Plain(b) => [b]
    case Escape(b) => [BACKSLASH, b]
    case Unicode(hex) => [BACKSLASH, 0x75] + hex
  }

  function PiecesText(pieces: seq<StringPiece>): seq<byte> {
    if pieces == [] then [] else PieceText(pieces[0]) + PiecesText(pieces[1..])
  }

  function StringText(pieces: seq<StringPiece>): seq<byte> { [QUOTE] + (PiecesText(pieces) + [QUOTE]) }

  function IntegerText(n: Number): seq<byte> { (if n.negative then [MINUS] else []) + n.digits }

  function FractionText(n: Number): seq<byte> {
    if n.fraction.Some? then [DOT] + n.fraction.value else []
  }

  function ExponentText(n: Number): seq<byte> {
    if n.exponent.None? then []
    else [n.exponent.value.marker] + (if n.exponent.value.sign.Some? then [n.exponent.value.sign.value] else [])
         + n.exponent.value.digits
  }

  function NumberText(n: Number): seq<byte> { IntegerText(n) + (FractionText(n) + ExponentText(n)) }

  function ValueText(v: Value): seq<byte>
    decreases v
  {
    match v
    case True => [0x74, 0x72, 0x75, 0x65]
    case False => [0x66, 0x61, 0x6C, 0x73, 0x65]
    case Null => [0x6E, 0x75, 0x6C, 0x6C]
    case Num(n) => NumberText(n)
    case Str(pieces) => StringText(pieces)
    case EmptyArray(space) => [0x5B] + (space + [0x5D])
    case Array(items) => [0x5B] + (ItemsText(items) + [0x5D])
    case EmptyObject(space) => [0x7B] + (space + [0x7D])
    case Object(members) => [0x7B] + (MembersText(members) + [0x7D])
  }

  function ItemText(item: Item): seq<byte>
    decreases item
  {
    item.before + (ValueText(item.value) + item.after)
  }

  function MemberText(m: Member): seq<byte>
    decreases m
  {
    m.before + (StringText(m.name) + (m.between + ([0x3A] + ItemText(m.item))))
  }

  /** Items separated by commas. */
  function ItemsText(items: seq<Item>): seq<byte>
    decreases items
  {
    if items == [] then []
    else if |items| == 1 then ItemText(items[0])
    else ItemText(items[0]) + ([0x2C] + ItemsText(items[1..]))
  }

  function MembersText(members: seq<Member>): seq<byte>
    decreases members
  {
    if members == [] then []
    else if |members| == 1 then MemberText(members[0])
    else MemberText(members[0]) + ([0x2C] + MembersText(members[1..]))
  }

  // ---------------------------------------------------------------------
  // The integer literals of a tree
  // ---------------------------------------------------------------------

  predicate IsInteger(n: Number) { n.fraction.None? && n.exponent.None? }

  /** Integer literals in textual order. */
  function Integers(v: Value): seq<Number>
    decreases v
  {
    match v
    case Num(n) => if IsInteger(n) then [n] else []
    case Array(items) => ItemsIntegers(items)
    case Object(members) => MembersIntegers(members)
    case _ => []
  }

  function ItemIntegers(item: Item): seq<Number>
    decreases item
  {
    Integers(item.value)
  }

  function MemberIntegers(m: Member): seq<Number>
    decreases m
  {
    ItemIntegers(m.item)
  }

  function ItemsIntegers(items: seq<Item>): seq<Number>
    decreases items
  {
    if items == [] then [] else ItemIntegers(items[0]) + ItemsIntegers(items[1..])
  }

  function MembersIntegers(members: seq<Member>): seq<Number>
    decreases members
  {
    if members == [] then [] else MemberIntegers(members[0]) + MembersIntegers(members[1..])
  }

  /** Outside the 64-bit range: below `i64` when negative, above `u64` otherwise. */
  predicate Overflows(n: Number) {
    if n.negative then Magnitude(n.digits) > I64_MIN_MAGNITUDE else Magnitude(n.digits) > U64_MAX
  }

  /** The text of the first literal that overflows. */
  function FirstOverflow(integers: seq<Number>): Option<seq<byte>> {
    if integers == [] then None
    else if Overflows(integers[0]) then Some(IntegerText(integers[0]))
    else FirstOverflow(integers[1..])
  }

  /** Stop at an overflow, otherwise carry on. */
  function OrElse(overflow: Option<seq<byte>>, next: Verdict): Verdict {
    if overflow.Some? then Refused(overflow.value) else next
  }

  lemma {:induction false} FirstOverflowConcat(a: seq<Number>, b: seq<Number>)
    ensures FirstOverflow(a + b) == (if FirstOverflow(a).Some? then FirstOverflow(a) else FirstOverflow(b))
  {
    if a == [] {
      assert a + b == b;
    } else {
      FirstOverflowConcat(a[1..], b);
      assert (a + b)[1..] == a[1..] + b;
    }
  }

  lemma {:induction false} FirstOverflowIff(integers: seq<Number>)
    ensures FirstOverflow(integers).Some? <==> exists i :: 0 <= i < |integers| && Overflows(integers[i])
  {
    if integers != [] {
      FirstOverflowIff(integers[1..]);
      if exists i :: 0 <= i < |integers| && Overflows(integers[i]) {
        var i :| 0 <= i < |integers| && Overflows(integers[i]);
        if i > 0 { assert integers[1..][i - 1] == integers[i]; }
      }
    }
  }

  // ---------------------------------------------------------------------
  // Scanning each production
  // ---------------------------------------------------------------------

  /** Bytes the scan steps over one at a time. */
  predicate AllSkipped(s: seq<byte>) {
    forall i :: 0 <= i < |s| ==> s[i] != QUOTE && s[i] != MINUS && !IsDigit(s[i])
  }

  lemma {:induction false} ScanSkipped(s: seq<byte>, rest: seq<byte>)
    requires AllSkipped(s)
    ensures Scan(s + rest) == Scan(rest)
  {
    if s == [] {
      assert s + rest == rest;
    } else {
      ScanSkipped(s[1..], rest);
      assert (s + rest)[1..] == s[1..] + rest;
    }
  }

  lemma {:induction false} AfterPlain(s: seq<byte>, more: seq<byte>)
    requires forall i :: 0 <= i < |s| ==> s[i] != QUOTE && s[i] != BACKSLASH
    ensures AfterString(s + more) == AfterString(more)
  {
    if s == [] {
      assert s + more == more;
    } else {
      AfterPlain(s[1..], more);
      assert (s + more)[1..] == s[1..] + more;
    }
  }

  lemma AfterPiece(p: StringPiece, more: seq<byte>)
    requires PieceOk(p)
    ensures AfterString(PieceText(p) + more) == AfterString(more)
  {
    match p
    case Plain(b) => AfterPlain([b], more);
    case Escape(b) => assert ([BACKSLASH, b] + more)[2..] == more;
    case Unicode(hex) =>
      assert (PieceText(p) + more)[2..] == hex + more;
      AfterPlain(hex, more);
  }

  lemma {:induction false} AfterPieces(pieces: seq<StringPiece>, rest: seq<byte>)
    requires StringOk(pieces)
    ensures AfterString(PiecesText(pieces) + ([QUOTE] + rest)) == rest
  {
    var tail := [QUOTE] + rest;
    if pieces == [] {
      assert PiecesText(pieces) + tail == tail;
    } else {
      var more := PiecesText(pieces[1..]) + tail;
      assert PiecesText(pieces) + tail == PieceText(pieces[0]) + more;
      AfterPiece(pieces[0], more);
      AfterPieces(pieces[1..], rest);
    }
  }

  lemma ScanString(pieces: seq<StringPiece>, rest: seq<byte>)
    requires StringOk(pieces)
    ensures Scan(StringText(pieces) + rest) == Scan(rest)
  {
    var s := StringText(pieces) + rest;
    assert s[1..] == PiecesText(pieces) + ([QUOTE] + rest);
    AfterPieces(pieces, rest);
  }

  /** What may follow a value in any text of the grammar. */
  predicate Delimited(rest: seq<byte>) {
    rest == [] || IsSpace(rest[0]) || rest[0] == 0x2C || rest[0] == 0x5D || rest[0] == 0x7D
  }

  lemma {:induction false} DigitRunOf(digits: seq<byte>, rest: seq<byte>)
    requires forall i :: 0 <= i < |digits| ==> IsDigit(digits[i])
    requires rest == [] || !IsDigit(rest[0])
    ensures DigitRun(digits + rest) == |digits|
  {
    if digits == [] {
      assert digits + rest == rest;
    } else {
      DigitRunOf(digits[1..], rest);
      assert (digits + rest)[1..] == digits[1..] + rest;
    }
  }

  lemma {:induction false} FloatRunOf(s: seq<byte>, rest: seq<byte>)
    requires forall i :: 0 <= i < |s| ==> IsFloatByte(s[i])
    requires rest == [] || !IsFloatByte(rest[0])
    ensures FloatRun(s + rest) == |s|
  {
    if s == [] {
      assert s + rest == rest;
    } else {
      FloatRunOf(s[1..], rest);
      assert (s + rest)[1..] == s[1..] + rest;
    }
  }

  /** The integer part of a number is exactly the token the scan takes. */
  lemma TokenOf(n: Number, more: seq<byte>)
    requires NumberOk(n) && (more == [] || !IsDigit(more[0]))
    ensures var s := IntegerText(n) + more;
            && (s[0] == MINUS || IsDigit(s[0])) && TokenLength(s) == |IntegerText(n)|
            && s[..|IntegerText(n)|] == IntegerText(n) && s[|IntegerText(n)|..] == more
  {
    var s := IntegerText(n) + more;
    DigitRunOf(n.digits, more);
    if n.negative { assert s[1..] == n.digits + more; }
    else { assert s == n.digits + more; }
  }

  lemma FitsUnlessOverflow(n: Number)
    requires NumberOk(n)
    ensures Fits(IntegerText(n)) <==> !Overflows(n)
  {
    if n.negative { assert IntegerText(n)[1..] == n.digits; }
    else { assert IntegerText(n) == n.digits; }
  }

  lemma ScanInteger(n: Number, rest: seq<byte>)
    requires NumberOk(n) && Delimited(rest)
    ensures Scan(IntegerText(n) + rest) == if Overflows(n) then Refused(IntegerText(n)) else Scan(rest)
  {
    TokenOf(n, rest);
    FitsUnlessOverflow(n);
  }

  lemma ScanFloat(n: Number, tail: seq<byte>, rest: seq<byte>)
    requires NumberOk(n) && Delimited(rest)
    requires tail != [] && StartsFloatTail(tail[0]) && forall i :: 0 <= i < |tail| ==> IsFloatByte(tail[i])
    ensures Scan(IntegerText(n) + (tail + rest)) == Scan(rest)
  {
    TokenOf(n, tail + rest);
    FloatRunOf(tail, rest);
    assert (IntegerText(n) + (tail + rest))[|IntegerText(n)| + |tail|..] == rest;
  }

  lemma ScanNumber(n: Number, rest: seq<byte>)
    requires NumberOk(n) && Delimited(rest)
    ensures Scan(NumberText(n) + rest)
         == OrElse(FirstOverflow(if IsInteger(n) then [n] else []), Scan(rest))
  {
    var tail := FractionText(n) + ExponentText(n);
    assert NumberText(n) + rest == IntegerText(n) + (tail + rest);
    if IsInteger(n) {
      assert tail + rest == rest;
      ScanInteger(n, rest);
    } else {
      ScanFloat(n, tail, rest);
    }
  }

  lemma {:induction false} ScanValue(v: Value, rest: seq<byte>)
    requires ValueOk(v) && Delimited(rest)
    ensures Scan(ValueText(v) + rest) == OrElse(FirstOverflow(Integers(v)), Scan(rest))
    decreases v, 0
  {
    match v
    case True => ScanSkipped(ValueText(v), rest);
    case False => ScanSkipped(ValueText(v), rest);
    case Null => ScanSkipped(ValueText(v), rest);
    case Num(n) => ScanNumber(n, rest);
    case Str(pieces) => ScanString(pieces, rest);
    case EmptyArray(space) => ScanSkipped(ValueText(v), rest);
    case EmptyObject(space) => ScanSkipped(ValueText(v), rest);
    case Array(items) => ScanArray(items, rest);
    case Object(members) => ScanObject(members, rest);
  }

  lemma {:induction false} ScanArray(items: seq<Item>, rest: seq<byte>)
    requires items != [] && (forall i :: 0 <= i < |items| ==> ItemOk(items[i])) && Delimited(rest)
    ensures Scan([0x5B] + (ItemsText(items) + [0x5D]) + rest) == OrElse(FirstOverflow(ItemsIntegers(items)), Scan(rest))
    decreases items, 1
  {
    var tail := [0x5D] + rest;
    assert [0x5B] + (ItemsText(items) + [0x5D]) + rest == [0x5B] + (ItemsText(items) + tail);
    ScanSkipped([0x5B], ItemsText(items) + tail);
    ScanItems(items, tail);
    ScanSkipped([0x5D], rest);
  }

  lemma {:induction false} ScanObject(members: seq<Member>, rest: seq<byte>)
    requires members != [] && (forall i :: 0 <= i < |members| ==> MemberOk(members[i])) && Delimited(rest)
    ensures Scan([0x7B] + (MembersText(members) + [0x7D]) + rest)
         == OrElse(FirstOverflow(MembersIntegers(members)), Scan(rest))
    decreases members, 1
  {
    var tail := [0x7D] + rest;
    assert [0x7B] + (MembersText(members) + [0x7D]) + rest == [0x7B] + (MembersText(members) + tail);
    ScanSkipped([0x7B], MembersText(members) + tail);
    ScanMembers(members, tail);
    ScanSkipped([0x7D], rest);
  }

  lemma {:induction false} ScanItem(item: Item, rest: seq<byte>)
    requires ItemOk(item) && Delimited(rest)
    ensures Scan(ItemText(item) + rest) == OrElse(FirstOverflow(ItemIntegers(item)), Scan(rest))
    decreases item, 0
  {
    var tail := ValueText(item.value) + (item.after + rest);
    assert ItemText(item) + rest == item.before + tail;
    ScanSkipped(item.before, tail);
    ScanValue(item.value, item.after + rest);
    ScanSkipped(item.after, rest);
  }

  lemma {:induction false} ScanMember(m: Member, rest: seq<byte>)
    requires MemberOk(m) && Delimited(rest)
    ensures Scan(MemberText(m) + rest) == OrElse(FirstOverflow(MemberIntegers(m)), Scan(rest))
    decreases m, 0
  {
    var valueTail := ItemText(m.item) + rest;
    var colonTail := (m.between + [0x3A]) + valueTail;
    var nameTail := StringText(m.name) + colonTail;
    assert MemberText(m) + rest == m.before + nameTail by {
      var value := ItemText(m.item);
      var afterName := m.between + ([0x3A] + value);
      ConcatAssociates(m.before, StringText(m.name) + afterName, rest);
      ConcatAssociates(StringText(m.name), afterName, rest);
      ConcatAssociates(m.between, [0x3A], value);
      ConcatAssociates(m.between + [0x3A], value, rest);
    }
    ScanSkipped(m.before, nameTail);
    ScanString(m.name, colonTail);
    ScanSkipped(m.between + [0x3A], valueTail);
    ScanItem(m.item, rest);
  }

  lemma {:induction false} ScanItems(items: seq<Item>, rest: seq<byte>)
    requires items != [] && (forall i :: 0 <= i < |items| ==> ItemOk(items[i])) && Delimited(rest)
    ensures Scan(ItemsText(items) + rest) == OrElse(FirstOverflow(ItemsIntegers(items)), Scan(rest))
    decreases items, 0
  {
    FirstOverflowConcat(ItemIntegers(items[0]), ItemsIntegers(items[1..]));
    if |items| == 1 {
      ScanItem(items[0], rest);
    } else {
      var first, more := ItemText(items[0]), ItemsText(items[1..]);
      assert first + ([0x2C] + more) + rest == first + ([0x2C] + (more + rest));
      ScanItem(items[0], [0x2C] + (more + rest));
      ScanSkipped([0x2C], more + rest);
      ScanItems(items[1..], rest);
    }
  }

  lemma {:induction false} ScanMembers(members: seq<Member>, rest: seq<byte>)
    requires members != [] && (forall i :: 0 <= i < |members| ==> MemberOk(members[i])) && Delimited(rest)
    ensures Scan(MembersText(members) + rest) == OrElse(FirstOverflow(MembersIntegers(members)), Scan(rest))
    decreases members, 0
  {
    FirstOverflowConcat(MemberIntegers(members[0]), MembersIntegers(members[1..]));
    if |members| == 1 {
      ScanMember(members[0], rest);
    } else {
      var first, more := MemberText(members[0]), MembersText(members[1..]);
      assert first + ([0x2C] + more) + rest == first + ([0x2C] + (more + rest));
      ScanMember(members[0], [0x2C] + (more + rest));
      ScanSkipped([0x2C], more + rest);
      ScanMembers(members[1..], rest);
    }
  }

  /** On every text of the grammar the scan refuses exactly when some integer
      literal lies outside the 64-bit range, and it names the first such literal. */
  lemma ScanDecidesOverflow(document: Item)
    requires ItemOk(document)
    ensures Scan(ItemText(document)) == OrElse(FirstOverflow(ItemIntegers(document)), Accepted)
    ensures Scan(ItemText(document)).Refused? <==>
              exists i :: 0 <= i < |ItemIntegers(document)| && Overflows(ItemIntegers(document)[i])
  {
    ScanItem(document, []);
    assert ItemText(document) + [] == ItemText(document);
    FirstOverflowIff(ItemIntegers(document));
  }

  // ---------------------------------------------------------------------
  // Building the value
  // ---------------------------------------------------------------------

  const SAFE_MAX: nat := 0x1F_FFFF_FFFF_FFFF
  const SAFE_MIN: int := -0x1F_FFFF_FFFF_FFFF

  datatype Refusal = DuplicateMember(name: string) | UnsafeInteger(number: Number)

  /** Integers that fit 64 bits reach the visitor exactly; every other number
      reaches it as a float, and floats are admitted. */
  function VisitNumber(n: Number): Option<Refusal> {
    if !IsInteger(n) || Overflows(n) then None
    else if n.negative then if 0 - Magnitude(n.digits) < SAFE_MIN then Some(UnsafeInteger(n)) else None
    else if Magnitude(n.digits) > SAFE_MAX then Some(UnsafeInteger(n)) else None
  }

  /** The first refusal met while walking a value; `nameOf` unescapes a member name. */
  function Visit(v: Value, nameOf: seq<StringPiece> -> string): Option<Refusal>
    decreases v, 0
  {
    match v
    case Num(n) => VisitNumber(n)
    case Array(items) => VisitItems(items, nameOf)
    case Object(members) => VisitMembers(members, {}, nameOf)
    case _ => None
  }

  function VisitItem(item: Item, nameOf: seq<StringPiece> -> string): Option<Refusal>
    decreases item, 0
  {
    Visit(item.value, nameOf)
  }

  function VisitMember(m: Member, nameOf: seq<StringPiece> -> string): Option<Refusal>
    decreases m, 0
  {
    VisitItem(m.item, nameOf)
  }

  function VisitItems(items: seq<Item>, nameOf: seq<StringPiece> -> string): Option<Refusal>
    decreases items, 0
  {
    if items == [] then None
    else
      var first := VisitItem(items[0], nameOf);
      if first.Some? then first else VisitItems(items[1..], nameOf)
  }

  /** A member's value is visited before its name is entered. */
  function VisitMembers(members: seq<Member>, seen: set<string>, nameOf: seq<StringPiece> -> string): Option<Refusal>
    decreases members, 0
  {
    if members == [] then None
    else
      var first := VisitMember(members[0], nameOf);
      if first.Some? then first
      else if nameOf(members[0].name) in seen then Some(DuplicateMember(nameOf(members[0].name)))
      else VisitMembers(members[1..], seen + {nameOf(members[0].name)}, nameOf)
  }

  /** No object anywhere in the value carries a member name twice. */
  predicate NamesDistinct(v: Value, nameOf: seq<StringPiece> -> string)
    decreases v, 0
  {
    match v
    case Array(items) => forall i :: 0 <= i < |items| ==> ItemNamesDistinct(items[i], nameOf)
    case Object(members) =>
      && (forall i :: 0 <= i < |members| ==> MemberNamesDistinct(members[i], nameOf))
      && (forall i, j :: 0 <= i < j < |members| ==> nameOf(members[i].name) != nameOf(members[j].name))
    case _ => true
  }

  predicate ItemNamesDistinct(item: Item, nameOf: seq<StringPiece> -> string)
    decreases item, 0
  {
    NamesDistinct(item.value, nameOf)
  }

  predicate MemberNamesDistinct(m: Member, nameOf: seq<StringPiece> -> string)
    decreases m, 0
  {
    ItemNamesDistinct(m.item, nameOf)
  }

  predicate Tolerated(n: Number) { Overflows(n) || Magnitude(n.digits) <= SAFE_MAX }

  predicate AllTolerated(integers: seq<Number>) { forall i :: 0 <= i < |integers| ==> Tolerated(integers[i]) }

  lemma AllToleratedConcat(a: seq<Number>, b: seq<Number>)
    ensures AllTolerated(a + b) <==> AllTolerated(a) && AllTolerated(b)
  {
    if AllTolerated(a + b) {
      forall i | 0 <= i < |a| ensures Tolerated(a[i]) { assert (a + b)[i] == a[i]; }
      forall i | 0 <= i < |b| ensures Tolerated(b[i]) { assert (a + b)[|a| + i] == b[i]; }
    }
  }

  /** Walking alone admits exactly the values with distinct names whose 64-bit integers are safe. */
  lemma {:induction false} VisitAdmits(v: Value, nameOf: seq<StringPiece> -> string)
    ensures Visit(v, nameOf).None? <==> AllTolerated(Integers(v)) && NamesDistinct(v, nameOf)
    decreases v, 1
  {
    match v
    case Num(n) => if IsInteger(n) { assert Integers(v)[0] == n; }
    case Array(items) => VisitItemsAdmits(items, nameOf);
    case Object(members) => VisitMembersAdmits(members, {}, nameOf);
    case _ =>
  }

  lemma {:induction false} VisitItemsAdmits(items: seq<Item>, nameOf: seq<StringPiece> -> string)
    ensures VisitItems(items, nameOf).None? <==>
              && AllTolerated(ItemsIntegers(items))
              && forall i :: 0 <= i < |items| ==> ItemNamesDistinct(items[i], nameOf)
    decreases items, 1
  {
    if items != [] {
      VisitAdmits(items[0].value, nameOf);
      VisitItemsAdmits(items[1..], nameOf);
      AllToleratedConcat(ItemIntegers(items[0]), ItemsIntegers(items[1..]));
      assert items == [items[0]] + items[1..];
    }
  }

  ghost predicate NamesFresh(members: seq<Member>, seen: set<string>, nameOf: seq<StringPiece> -> string) {
    && (forall i :: 0 <= i < |members| ==> nameOf(members[i].name) !in seen)
    && (forall i, j :: 0 <= i < j < |members| ==> nameOf(members[i].name) != nameOf(members[j].name))
  }

  lemma {:induction false} VisitMembersAdmits(members: seq<Member>, seen: set<string>, nameOf: seq<StringPiece> -> string)
    ensures VisitMembers(members, seen, nameOf).None? <==>
              && AllTolerated(MembersIntegers(members))
              && (forall i :: 0 <= i < |members| ==> MemberNamesDistinct(members[i], nameOf))
              && NamesFresh(members, seen, nameOf)
    decreases members, 1
  {
    if members != [] {
      VisitAdmits(members[0].item.value, nameOf);
      assert VisitMember(members[0], nameOf) == VisitItem(members[0].item, nameOf);
      assert MemberIntegers(members[0]) == ItemIntegers(members[0].item);
      assert MemberNamesDistinct(members[0], nameOf) == ItemNamesDistinct(members[0].item, nameOf);
      VisitMembersAdmits(members[1..], seen + {nameOf(members[0].name)}, nameOf);
      AllToleratedConcat(MemberIntegers(members[0]), MembersIntegers(members[1..]));
      assert (forall i :: 0 <= i < |members| ==> MemberNamesDistinct(members[i], nameOf)) <==>
             && MemberNamesDistinct(members[0], nameOf)
             && forall i :: 0 <= i < |members[1..]| ==> MemberNamesDistinct(members[1..][i], nameOf)
      by { assert members == [members[0]] + members[1..]; }
    }
  }

  /** Scan and walk together admit a text exactly when every integer literal, of
      any width, is in the safe range and no object repeats a member name. Refusals
      by the JSON library itself (depth, float range, encoding) come besides. */
  lemma StrictAdmission(document: Item, nameOf: seq<StringPiece> -> string)
    requires ItemOk(document)
    ensures Scan(ItemText(document)).Accepted? && Visit(document.value, nameOf).None? <==>
              && (forall i :: 0 <= i < |ItemIntegers(document)| ==> Magnitude(ItemIntegers(document)[i].digits) <= SAFE_MAX)
              && NamesDistinct(document.value, nameOf)
  {
    ScanDecidesOverflow(document);
    VisitAdmits(document.value, nameOf);
  }
}
