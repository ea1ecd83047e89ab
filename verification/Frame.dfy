/** Length-prefixed framing of the worker protocol: a 4-byte big-endian count,
    then exactly that many bytes. */
module Frames {
  import opened Common

  const MAX_FRAME_BYTES: nat := 1024 * 1024 + 4096
  const PREFIX: nat := 4

  datatype StreamError = FrameTooLarge(declared: nat) | EmptyFrame

  datatype EndOfInput =
    | Clean
    | TruncatedPrefix(have: nat)
    | TruncatedFrame(declared: nat, have: nat)

  // ---------------------------------------------------------------------
  // The wire format, as a whole-input function
  // ---------------------------------------------------------------------

  /** `u32::from_be_bytes` of the first four bytes. */
  function Declared(s: seq<byte>): nat
    requires |s| >= PREFIX
  {
    s[0] as nat * 0x100_0000 + s[1] as nat * 0x1_0000 + s[2] as nat * 0x100 + s[3] as nat
  }

  function BigEndian(n: nat): seq<byte>
    requires n < 0x1_0000_0000
  {
    [(n / 0x100_0000) as byte, (n / 0x1_0000 % 0x100) as byte, (n / 0x100 % 0x100) as byte, (n % 0x100) as byte]
  }

  /** How a whole input ends: cleanly or truncated, or at its first violation. */
  datatype Ending = AtEnd(end: EndOfInput) | Violation(error: StreamError)

  datatype Decoded = Decoded(frames: seq<seq<byte>>, ending: Ending)

  /** Batch decoding: all frames of an input, and how it ends. */
  function Decode(s: seq<byte>): Decoded
    decreases |s|
  {
    if |s| == 0 then Decoded([], AtEnd(Clean))
    else if |s| < PREFIX then Decoded([], AtEnd(TruncatedPrefix(|s|)))
    else
      var n := Declared(s);
      if n == 0 then Decoded([], Violation(EmptyFrame))
      else if n > MAX_FRAME_BYTES then Decoded([], Violation(FrameTooLarge(n)))
      else if |s| < PREFIX + n then Decoded([], AtEnd(TruncatedFrame(n, |s| - PREFIX)))
      else
        var rest := Decode(s[PREFIX + n..]);
        Decoded([s[PREFIX..PREFIX + n]] + rest.frames, rest.ending)
  }

  function Concat(chunks: seq<seq<byte>>): seq<byte> {
    if chunks == [] then [] else chunks[0] + Concat(chunks[1..])
  }

  // ---------------------------------------------------------------------
  // The incremental decoder
  // ---------------------------------------------------------------------

  datatype Decoder = Decoder(buffer: seq<byte>, poisoned: Option<StreamError>)

  const FRESH := Decoder([], None)

  function Fed(d: Decoder, bytes: seq<byte>): Decoder {
    if d.poisoned.None? then d.(buffer := d.buffer + bytes) else d
  }

  datatype Next = Frame(frame: seq<byte>) | NotYet | Refused(error: StreamError)

  function Drawn(d: Decoder): (Decoder, Next) {
    if d.poisoned.Some? then (d, Refused(d.poisoned.value))
    else if |d.buffer| < PREFIX then (d, NotYet)
    else
      var n := Declared(d.buffer);
      if n == 0 then (Decoder([], Some(EmptyFrame)), Refused(EmptyFrame))
      else if n > MAX_FRAME_BYTES then (Decoder([], Some(FrameTooLarge(n))), Refused(FrameTooLarge(n)))
      else if |d.buffer| < PREFIX + n then (d, NotYet)
      else (d.(buffer := d.buffer[PREFIX + n..]), Frame(d.buffer[PREFIX..PREFIX + n]))
  }

  /** End-of-input classification; a poisoned decoder retains nothing, so it reports `Clean`. */
  function Finished(d: Decoder): EndOfInput {
    if d.buffer == [] then Clean
    else if |d.buffer| < PREFIX then TruncatedPrefix(|d.buffer|)
    else TruncatedFrame(Declared(d.buffer), |d.buffer| - PREFIX)
  }

  class FrameDecoder {
    var buffer: seq<byte>
    var poisoned: Option<StreamError>

    ghost function State(): Decoder
      reads this
    {
      Decoder(buffer, poisoned)
    }

    constructor ()
      ensures State() == FRESH
    {
      buffer, poisoned := [], None;
    }

    method Feed(bytes: seq<byte>)
      modifies this
      ensures State() == Fed(old(State()), bytes)
    {
      if poisoned.None? { buffer := buffer + bytes; }
    }

    method Poison(error: StreamError) returns (same: StreamError)
      modifies this
      ensures State() == Decoder([], Some(error)) && same == error
    {
      buffer, poisoned := [], Some(error);
      same := error;
    }

    method NextFrame() returns (next: Next)
      modifies this
      ensures (State(), next) == Drawn(old(State()))
    {
      if poisoned.Some? { return Refused(poisoned.value); }
      if |buffer| < PREFIX { return NotYet; }
      var declared := Declared(buffer);
      if declared == 0 {
        var error := Poison(EmptyFrame);
        return Refused(error);
      }
      if declared > MAX_FRAME_BYTES {
        var error := Poison(FrameTooLarge(declared));
        return Refused(error);
      }
      if |buffer| < PREFIX + declared { return NotYet; }
      var frame := buffer[PREFIX..PREFIX + declared];
      buffer := buffer[PREFIX + declared..];
      return Frame(frame);
    }

    method Finish() returns (end: EndOfInput)
      ensures end == Finished(State())
    {
      if buffer == [] { return Clean; }
      if |buffer| < PREFIX { return TruncatedPrefix(|buffer|); }
      return TruncatedFrame(Declared(buffer), |buffer| - PREFIX);
    }
  }

  // ---------------------------------------------------------------------
  // Any use of the decoder agrees with batch decoding
  // ---------------------------------------------------------------------

  datatype Op = FeedOp(bytes: seq<byte>) | NextOp

  /** A decoder in use: its state, all bytes offered to it, and the frames it has delivered. */
  datatype Session = Session(decoder: Decoder, offered: seq<byte>, delivered: seq<seq<byte>>)

  function Do(s: Session, op: Op): Session {
    match op
    case FeedOp(bytes) => Session(Fed(s.decoder, bytes), s.offered + bytes, s.delivered)
    case NextOp =>
      var (decoder, next) := Drawn(s.decoder);
      Session(decoder, s.offered, if next.Frame? then s.delivered + [next.frame] else s.delivered)
  }

  function Use(ops: seq<Op>): Session {
    if ops == [] then Session(FRESH, [], []) else Do(Use(ops[..|ops| - 1]), ops[|ops| - 1])
  }

  // ---------------------------------------------------------------------
  // Encoding
  // ---------------------------------------------------------------------

  predicate Sendable(frame: seq<byte>) { 0 < |frame| <= MAX_FRAME_BYTES }

  /** Callers must not exceed the frame bound; encoding panics when they do. */
  method Encode(frame: seq<byte>) returns (wire: seq<byte>)
    requires |frame| <= MAX_FRAME_BYTES
    ensures wire == Encoded(frame)
    ensures Sendable(frame) ==> Decode(wire) == Decoded([frame], AtEnd(Clean))
  {
    wire := [];
    wire := wire + BigEndian(|frame|);
    wire := wire + frame;
    if Sendable(frame) {
      RoundTrip([frame], []);
      assert [frame][1..] == [] && Wire([]) == [];
      assert Wire([frame]) == Encoded(frame) + Wire([]) == wire;
    }
  }

  function Encoded(frame: seq<byte>): seq<byte>
    requires |frame| <= MAX_FRAME_BYTES
  {
    BigEndian(|frame|) + frame
  }

  predicate AllSendable(frames: seq<seq<byte>>) { forall i :: 0 <= i < |frames| ==> Sendable(frames[i]) }

  function Wire(frames: seq<seq<byte>>): seq<byte>
    requires AllSendable(frames)
  {
    if frames == [] then [] else Encoded(frames[0]) + Wire(frames[1..])
  }

  lemma PrefixRoundTrip(n: nat)
    requires n < 0x1_0000_0000
    ensures |BigEndian(n)| == PREFIX && Declared(BigEndian(n)) == n
  {
    var a, b, c := n / 0x100_0000, n / 0x1_0000, n / 0x100;
    assert n == c * 0x100 + n % 0x100 && c == b * 0x100 + c % 0x100 && b == a * 0x100 + b % 0x100;
  }

  /** `s` is `frames`, each under its own length prefix, followed by `rest`. */
  ghost predicate Splits(s: seq<byte>, frames: seq<seq<byte>>, rest: seq<byte>)
    decreases |frames|
  {
    if frames == [] then s == rest
    else
      && Sendable(frames[0]) && |s| >= PREFIX + |frames[0]| && Declared(s) == |frames[0]|
      && s[PREFIX..PREFIX + |frames[0]|] == frames[0]
      && Splits(s[PREFIX + |frames[0]|..], frames[1..], rest)
  }

  lemma {:induction false} DecodeSplits(s: seq<byte>, frames: seq<seq<byte>>, rest: seq<byte>)
    requires Splits(s, frames, rest)
    ensures Decode(s) == Decoded(frames + Decode(rest).frames, Decode(rest).ending)
    decreases |frames|
  {
    if frames == [] {
      assert frames + Decode(rest).frames == Decode(rest).frames;
    } else {
      DecodeSplits(s[PREFIX + |frames[0]|..], frames[1..], rest);
      assert frames == [frames[0]] + frames[1..];
    }
  }

  lemma {:induction false} SplitsFeed(s: seq<byte>, frames: seq<seq<byte>>, rest: seq<byte>, more: seq<byte>)
    requires Splits(s, frames, rest)
    ensures Splits(s + more, frames, rest + more)
    decreases |frames|
  {
    if frames != [] {
      var k := PREFIX + |frames[0]|;
      SplitsFeed(s[k..], frames[1..], rest, more);
      assert (s + more)[k..] == s[k..] + more;
      assert (s + more)[PREFIX..k] == s[PREFIX..k];
    }
  }

  lemma {:induction false} SplitsDraw(s: seq<byte>, frames: seq<seq<byte>>, rest: seq<byte>, frame: seq<byte>)
    requires |rest| >= PREFIX + |frame|
    requires Splits(s, frames, rest) && Splits(rest, [frame], rest[PREFIX + |frame|..])
    ensures Splits(s, frames + [frame], rest[PREFIX + |frame|..])
    decreases |frames|
  {
    if frames == [] {
      assert frames + [frame] == [frame];
    } else {
      SplitsDraw(s[PREFIX + |frames[0]|..], frames[1..], rest, frame);
      assert (frames + [frame])[1..] == frames[1..] + [frame];
    }
  }

  lemma {:induction false} WireSplits(frames: seq<seq<byte>>, rest: seq<byte>)
    requires AllSendable(frames)
    ensures Splits(Wire(frames) + rest, frames, rest)
    decreases |frames|
  {
    if frames == [] {
      assert Wire(frames) + rest == rest;
    } else {
      WireSplits(frames[1..], rest);
      var prefix, tail := BigEndian(|frames[0]|), Wire(frames[1..]) + rest;
      PrefixRoundTrip(|frames[0]|);
      assert Wire(frames) + rest == prefix + frames[0] + tail;
    }
  }

  /** Concatenated encodings of sendable frames decode to exactly those frames, whatever follows. */
  lemma RoundTrip(frames: seq<seq<byte>>, rest: seq<byte>)
    requires AllSendable(frames)
    ensures Decode(Wire(frames)) == Decoded(frames, AtEnd(Clean))
    ensures Decode(Wire(frames) + rest) == Decoded(frames + Decode(rest).frames, Decode(rest).ending)
  {
    WireSplits(frames, rest);
    DecodeSplits(Wire(frames) + rest, frames, rest);
    WireSplits(frames, []);
    DecodeSplits(Wire(frames) + [], frames, []);
    assert Wire(frames) + [] == Wire(frames) && frames + [] == frames;
  }

  /** A violation is final: input after it changes nothing. */
  lemma {:induction false} ViolationFinal(s: seq<byte>, more: seq<byte>)
    requires Decode(s).ending.Violation?
    ensures Decode(s + more) == Decode(s)
    decreases |s|
  {
    if |s| >= PREFIX {
      var n := Declared(s);
      assert Declared(s + more) == n;
      if 0 < n <= MAX_FRAME_BYTES && |s| >= PREFIX + n {
        var rest := s[PREFIX + n..];
        assert (s + more)[PREFIX + n..] == rest + more;
        assert (s + more)[PREFIX..PREFIX + n] == s[PREFIX..PREFIX + n];
        ViolationFinal(rest, more);
      }
    }
  }

  // ---------------------------------------------------------------------
  // Sessions
  // ---------------------------------------------------------------------

  /** What was offered is the delivered frames under their prefixes, then the
      buffer; or it decodes to what was delivered and then the violation that poisoned. */
  ghost predicate SessionOk(s: Session) {
    match s.decoder.poisoned
    case None => Splits(s.offered, s.delivered, s.decoder.buffer)
    case Some(error) => s.decoder.buffer == [] && Decode(s.offered) == Decoded(s.delivered, Violation(error))
  }

  lemma FeedKeeps(s: Session, bytes: seq<byte>)
    requires SessionOk(s)
    ensures SessionOk(Do(s, FeedOp(bytes)))
  {
    if s.decoder.poisoned.Some? { ViolationFinal(s.offered, bytes); }
    else { SplitsFeed(s.offered, s.delivered, s.decoder.buffer, bytes); }
  }

  lemma NextKeeps(s: Session)
    requires SessionOk(s)
    ensures SessionOk(Do(s, NextOp))
  {
    if s.decoder.poisoned.None? {
      var buffer, next := s.decoder.buffer, Drawn(s.decoder).1;
      if next.Frame? {
        assert Splits(buffer, [next.frame], buffer[PREFIX + |next.frame|..]);
        SplitsDraw(s.offered, s.delivered, buffer, next.frame);
      } else if next.Refused? {
        DecodeSplits(s.offered, s.delivered, buffer);
        assert s.delivered + [] == s.delivered;
      }
    }
  }

  lemma OpKeeps(s: Session, op: Op)
    requires SessionOk(s)
    ensures SessionOk(Do(s, op))
  {
    match op
    case FeedOp(bytes) => FeedKeeps(s, bytes);
    case NextOp => NextKeeps(s);
  }

  lemma {:induction false} UseOk(ops: seq<Op>)
    ensures SessionOk(Use(ops))
    decreases |ops|
  {
    if ops != [] {
      UseOk(ops[..|ops| - 1]);
      OpKeeps(Use(ops[..|ops| - 1]), ops[|ops| - 1]);
    }
  }

  /** Drawing again gives no frame. */
  predicate Drained(d: Decoder) { !Drawn(d).1.Frame? }

  /** Drawing again changes nothing. */
  predicate Settled(d: Decoder) { Drained(d) && Drawn(d).0 == d }

  /** However the input is cut up and however calls are interleaved, once the
      decoder has no frame left to give it has delivered exactly the frames of
      the batch decoding, and reports exactly its violation or its end. */
  lemma AgreesWithBatch(ops: seq<Op>)
    requires Drained(Use(ops).decoder)
    ensures var s := Use(ops); var (after, next) := Drawn(s.decoder); var all := Decode(s.offered);
            && s.delivered == all.frames
            && (match all.ending
                case Violation(error) => next == Refused(error) && Finished(after) == Clean
                case AtEnd(end) => next == NotYet && after == s.decoder && Finished(after) == end)
  {
    UseOk(ops);
    DrainedAgrees(Use(ops));
  }

  /** Delivery never runs ahead: what has been delivered so far is a prefix of the batch decoding. */
  lemma DeliversPrefix(ops: seq<Op>)
    ensures Use(ops).delivered <= Decode(Use(ops).offered).frames
  {
    UseOk(ops);
    var s := Use(ops);
    if s.decoder.poisoned.None? { DecodeSplits(s.offered, s.delivered, s.decoder.buffer); }
  }

  /** One maximal frame and one prefix: what the decoder means to retain at most. */
  const RETAINED: nat := PREFIX + MAX_FRAME_BYTES

  /** A drained decoder retains less than that; a poisoned one retains nothing. */
  lemma RetentionBound(ops: seq<Op>)
    requires Drained(Use(ops).decoder)
    ensures |Use(ops).decoder.buffer| < RETAINED || Drawn(Use(ops).decoder).1.Refused?
    ensures |Drawn(Use(ops).decoder).0.buffer| < RETAINED
    ensures Use(ops).decoder.poisoned.Some? ==> Use(ops).decoder.buffer == []
  {
    UseOk(ops);
  }

  /** A feed keeps a live decoder within the bound exactly when the chunk still
      fits beside what is buffered; a drained decoder exceeds it by less than the chunk. */
  lemma FeedRetains(ops: seq<Op>, bytes: seq<byte>)
    requires Use(ops).decoder.poisoned.None?
    ensures |Use(ops + [FeedOp(bytes)]).decoder.buffer| <= RETAINED <==> |Use(ops).decoder.buffer| + |bytes| <= RETAINED
    ensures Drained(Use(ops).decoder) && Drawn(Use(ops).decoder).1.NotYet? ==>
              |Use(ops + [FeedOp(bytes)]).decoder.buffer| < RETAINED + |bytes|
  {
    assert (ops + [FeedOp(bytes)])[..|ops|] == ops;
  }

  /** The feed at `k` fits beside what is buffered, or reaches a poisoned decoder. */
  predicate FeedFits(ops: seq<Op>, k: nat)
    requires k < |ops|
  {
    var d := Use(ops[..k]).decoder;
    ops[k].FeedOp? && d.poisoned.None? ==> |d.buffer| + |ops[k].bytes| <= RETAINED
  }

  /** The bound holds after the first `k` calls. */
  predicate Within(ops: seq<Op>, k: nat)
    requires k <= |ops|
  {
    |Use(ops[..k]).decoder.buffer| <= RETAINED
  }

  /** Over a whole use, the bound holds at every moment exactly when every feed fits. */
  lemma RetentionIff(ops: seq<Op>)
    ensures (forall k :: 0 <= k <= |ops| ==> Within(ops, k)) <==> (forall k :: 0 <= k < |ops| ==> FeedFits(ops, k))
  {
    if forall k :: 0 <= k <= |ops| ==> Within(ops, k) {
      forall k | 0 <= k < |ops| ensures FeedFits(ops, k) {
        assert Within(ops, k) && Within(ops, k + 1);
        RetentionStep(ops, k);
      }
    }
    if forall k :: 0 <= k < |ops| ==> FeedFits(ops, k) {
      forall k | 0 <= k <= |ops| ensures Within(ops, k) { RetentionUpTo(ops, k); }
    }
  }

  lemma RetentionStep(ops: seq<Op>, k: nat)
    requires k < |ops| && Within(ops, k)
    ensures Within(ops, k + 1) <==> FeedFits(ops, k)
  {
    assert ops[..k + 1][..k] == ops[..k];
    UseOk(ops[..k]);
    UseOk(ops[..k + 1]);
  }

  lemma {:induction false} RetentionUpTo(ops: seq<Op>, k: nat)
    requires k <= |ops| && forall i :: 0 <= i < |ops| ==> FeedFits(ops, i)
    ensures Within(ops, k)
    decreases k
  {
    if k > 0 {
      RetentionUpTo(ops, k - 1);
      RetentionStep(ops, k - 1);
    }
  }

  /** Draining before every feed is not enough: a decoder waiting for the last byte
      of a maximal frame exceeds the bound on a two-byte feed. */
  lemma DrainedFeedExceeds(head: seq<byte>, tail: seq<byte>)
    requires |head| == RETAINED - 1 && Declared(head) == MAX_FRAME_BYTES && |tail| >= 2
    ensures Settled(Use([FeedOp(head), NextOp]).decoder)
    ensures |Use([FeedOp(head), NextOp, FeedOp(tail)]).decoder.buffer| > RETAINED
  {
    var fed, drawn, again := [FeedOp(head)], [FeedOp(head), NextOp], [FeedOp(head), NextOp, FeedOp(tail)];
    assert fed[..0] == [] && drawn[..1] == fed && again[..2] == drawn;
    assert [] + head == head;
    assert Use(fed).decoder == Fed(FRESH, head);
    assert Drawn(Use(fed).decoder) == (Use(fed).decoder, NotYet);
  }

  /** Such an input exists. */
  lemma MaximalHead() returns (head: seq<byte>)
    ensures |head| == RETAINED - 1 && Declared(head) == MAX_FRAME_BYTES
  {
    PrefixRoundTrip(MAX_FRAME_BYTES);
    head := BigEndian(MAX_FRAME_BYTES) + seq(MAX_FRAME_BYTES - 1, _ => 0);
  }

  /** Draw frames until none is left. */
  method DrainAll(decoder: FrameDecoder, ghost session: Session) returns (frames: seq<seq<byte>>, ghost after: Session)
    requires session.decoder == decoder.State() && SessionOk(session)
    modifies decoder
    ensures after.decoder == decoder.State() && SessionOk(after) && Settled(after.decoder)
    ensures after.offered == session.offered && after.delivered == session.delivered + frames
  {
    frames, after := [], session;
    while true
      invariant after.decoder == decoder.State() && SessionOk(after)
      invariant after.offered == session.offered && after.delivered == session.delivered + frames
      decreases |decoder.buffer|
    {
      var next := decoder.NextFrame();
      NextKeeps(after);
      after := Do(after, NextOp);
      if !next.Frame? { return; }
      frames := frames + [next.frame];
    }
  }

  /** Feed each chunk and drain after it, as the process driver does. */
  method DecodeChunks(chunks: seq<seq<byte>>) returns (frames: seq<seq<byte>>, error: Option<StreamError>, end: EndOfInput)
    ensures frames == Decode(Concat(chunks)).frames
    ensures match Decode(Concat(chunks)).ending
            case Violation(e) => error == Some(e) && end == Clean
            case AtEnd(e) => error.None? && end == e
  {
    var decoder := new FrameDecoder();
    frames := [];
    ghost var session := Session(FRESH, [], []);
    var i := 0;
    while i < |chunks|
      invariant 0 <= i <= |chunks|
      invariant session.decoder == decoder.State() && SessionOk(session) && session.delivered == frames
      invariant session.offered + Concat(chunks[i..]) == Concat(chunks)
      invariant Settled(session.decoder)
    {
      decoder.Feed(chunks[i]);
      FeedKeeps(session, chunks[i]);
      session := Do(session, FeedOp(chunks[i]));
      assert chunks[i..][1..] == chunks[i + 1..];
      var more;
      more, session := DrainAll(decoder, session);
      frames := frames + more;
      i := i + 1;
    }
    error := decoder.poisoned;
    end := decoder.Finish();
    assert session.offered == Concat(chunks);
    DrainedAgrees(session);
  }

  lemma DrainedAgrees(s: Session)
    requires SessionOk(s) && Drained(s.decoder)
    ensures s.delivered == Decode(s.offered).frames
    ensures match Decode(s.offered).ending
            case Violation(error) => Drawn(s.decoder).1 == Refused(error) && Finished(Drawn(s.decoder).0) == Clean
            case AtEnd(end) => s.decoder.poisoned.None? && Drawn(s.decoder) == (s.decoder, NotYet) && Finished(s.decoder) == end
  {
    if s.decoder.poisoned.None? {
      DecodeSplits(s.offered, s.delivered, s.decoder.buffer);
      assert s.delivered + [] == s.delivered;
    }
  }
}
