/**
 DNS over one TCP-like stream: replies arrive as length-prefixed messages (section 4.2.2 of
 RFC 1035) cut into chunks anywhere. Reassembly gives the same answers however they are cut.
 */
module DnsExchange {
  import opened Basics
  import opened DnsMessage

  const MAX_BUFFERED := 2 * (2 + 0xFFFF)
  const MAX_CHUNK := 0xFFFF

  /** The queries still unanswered and the addresses collected so far. */
  datatype Progress = Progress(pending: seq<u16>, out: seq<Address>)

  /** The last element takes the removed one's place. */
  function SwapRemove(s: seq<u16>, pos: nat): seq<u16>
    requires pos < |s|
  {
    s[pos := s[|s| - 1]][..|s| - 1]
  }

  function Position(s: seq<u16>, x: u16): (pos: nat)
    ensures pos <= |s| && (pos < |s| <==> x in s) && (pos < |s| ==> s[pos] == x)
  {
    if s == [] || s[0] == x then 0 else Position(s[1..], x) + 1
  }

  /** One message: the answer to a pending query is taken, anything else is dropped. */
  function Absorb(p: Progress, msg: Bytes): Progress {
    var id := U16At(msg, 0);
    if id.None? || id.value !in p.pending then p
    else
      var answers := ParseAnswers(msg, id.value);
      Progress(SwapRemove(p.pending, Position(p.pending, id.value)),
               p.out + if answers.Some? then answers.value else [])
  }

  predicate Complete(buf: Bytes) { U16At(buf, 0).Some? && |buf| >= 2 + U16At(buf, 0).value }

  /** The messages of a byte string in order; what is left over is an incomplete message. */
  function Walk(p: Progress, bytes: Bytes): (Progress, Bytes)
    decreases |bytes|
  {
    if Complete(bytes) then
      var len := U16At(bytes, 0).value;
      Walk(Absorb(p, bytes[2..2 + len]), bytes[2 + len..])
    else (p, bytes)
  }

  function Concat(chunks: seq<Bytes>): Bytes {
    if chunks == [] then [] else chunks[0] + Concat(chunks[1..])
  }

  /** Walking what has come and then what comes next is walking both together. */
  lemma {:induction false} WalkInPieces(p: Progress, a: Bytes, b: Bytes)
    ensures Walk(p, a + b) == var (p1, rest) := Walk(p, a); Walk(p1, rest + b)
    decreases |a|
  {
    hide Absorb;
    if Complete(a) {
      var len := U16At(a, 0).value;
      assert U16At(a + b, 0) == U16At(a, 0);
      assert (a + b)[2..2 + len] == a[2..2 + len];
      assert (a + b)[2 + len..] == a[2 + len..] + b;
      WalkInPieces(Absorb(p, a[2..2 + len]), a[2 + len..], b);
    }
  }

  /** Once every query is answered, nothing more changes. */
  lemma {:induction false} WalkIsOver(p: Progress, bytes: Bytes)
    requires p.pending == []
    ensures Walk(p, bytes).0 == p
    decreases |bytes|
  {
    if Complete(bytes) {
      var len := U16At(bytes, 0).value;
      WalkIsOver(Absorb(p, bytes[2..2 + len]), bytes[2 + len..]);
    }
  }

  /** A message is at most 65535 bytes, so what is left over always has room for one more chunk. */
  lemma {:induction false} LeftoverIsShort(p: Progress, bytes: Bytes)
    ensures !Complete(Walk(p, bytes).1) && |Walk(p, bytes).1| < 2 + 0xFFFF
    decreases |bytes|
  {
    hide Absorb;
    if Complete(bytes) {
      var len := U16At(bytes, 0).value;
      LeftoverIsShort(Absorb(p, bytes[2..2 + len]), bytes[2 + len..]);
    }
  }

  lemma {:induction false} ConcatSplit(a: seq<Bytes>, b: seq<Bytes>)
    ensures Concat(a + b) == Concat(a) + Concat(b)
  {
    if a == [] {
      assert a + b == b;
    } else {
      assert (a + b)[1..] == a[1..] + b;
      ConcatSplit(a[1..], b);
    }
  }

  /** Drains the complete messages at the head of the buffer. */
  method Drain(p0: Progress, buf0: Bytes) returns (p: Progress, buf: Bytes)
    ensures (p, buf) == Walk(p0, buf0)
  {
    p, buf := p0, buf0;
    while Complete(buf)
      invariant Walk(p, buf) == Walk(p0, buf0)
      decreases |buf|
    {
      var len := U16At(buf, 0).value;
      var msg := buf[2..2 + len];
      buf := buf[2 + len..];
      var id := U16At(msg, 0);
      if id.Some? && id.value in p.pending {
        var pos := Position(p.pending, id.value);
        var answers := ParseAnswersLoop(msg, id.value);
        p := Progress(SwapRemove(p.pending, pos), p.out + if answers.Some? then answers.value else []);
      }
    }
  }

  predicate Fair(chunks: seq<Bytes>) { forall c <- chunks :: 0 < |c| <= MAX_CHUNK }

  /** The reading loop over the chunks a stream delivers before it ends; the call succeeds if the
      loop leaves before the stream does. */
  method Exchange(ids: seq<u16>, chunks: seq<Bytes>) returns (p: Progress, ok: bool, read: nat)
    ensures read <= |chunks|
    ensures p == Walk(Progress(ids, []), Concat(chunks[..read])).0
    ensures Fair(chunks) ==> p == Walk(Progress(ids, []), Concat(chunks)).0
    ensures Fair(chunks) ==> (ok <==> p.pending == [])
    ensures !ok ==> read == |chunks| && p.pending != []
    ensures ok && p.pending != [] ==>
              read < |chunks|
              && (chunks[read] == []
                  || |Walk(Progress(ids, []), Concat(chunks[..read])).1| + |chunks[read]| > 131074)
  {
    hide Walk;
    var start := Progress(ids, []);
    p, read := start, 0;
    var buf: Bytes := [];
    assert chunks[..0] == [];
    assert Walk(start, []) == (start, []) by { WalkNothing(start); }
    while p.pending != []
      invariant read <= |chunks| && (p, buf) == Walk(start, Concat(chunks[..read]))
      decreases |chunks| - read
    {
      if read == |chunks| {
        assert chunks[..read] == chunks;
        return p, false, read;
      }
      var chunk := chunks[read];
      LeftoverIsShort(start, Concat(chunks[..read]));
      if |chunk| == 0 || |buf| + |chunk| > MAX_BUFFERED {
        assert !Fair(chunks) by { assert chunk in chunks; }
        return p, true, read;
      }
      assert chunks[..read + 1] == chunks[..read] + [chunk];
      ConcatSplit(chunks[..read], [chunk]);
      assert Concat([chunk]) == chunk;
      WalkInPieces(start, Concat(chunks[..read]), chunk);
      p, buf := Drain(p, buf + chunk);
      read := read + 1;
    }
    assert chunks == chunks[..read] + chunks[read..];
    ConcatSplit(chunks[..read], chunks[read..]);
    WalkInPieces(start, Concat(chunks[..read]), Concat(chunks[read..]));
    WalkIsOver(p, buf + Concat(chunks[read..]));
    ok := true;
  }

  lemma WalkNothing(p: Progress)
    ensures Walk(p, []) == (p, [])
  {
  }

  // --- the walk against the framing it reads ---------------------------------------------

  function Framed(msgs: seq<Bytes>): Bytes
    requires forall m <- msgs :: |m| < 0x1_0000
  {
    if msgs == [] then [] else Be16(|msgs[0]|) + msgs[0] + Framed(msgs[1..])
  }

  function AbsorbAll(p: Progress, msgs: seq<Bytes>): Progress
    decreases |msgs|
  {
    if msgs == [] then p else AbsorbAll(Absorb(p, msgs[0]), msgs[1..])
  }

  /** Walking framed messages followed by an incomplete one absorbs exactly those messages. */
  lemma {:induction false} WalkReadsFrames(p: Progress, msgs: seq<Bytes>, tail: Bytes)
    requires (forall m <- msgs :: |m| < 0x1_0000) && !Complete(tail)
    ensures Walk(p, Framed(msgs) + tail) == (AbsorbAll(p, msgs), tail)
    decreases |msgs|
  {
    hide Absorb;
    if msgs == [] {
      assert Framed(msgs) + tail == tail;
    } else {
      var m := msgs[0];
      var bytes := Framed(msgs) + tail;
      assert bytes == Be16(|m|) + m + (Framed(msgs[1..]) + tail);
      assert U16At(bytes, 0) == Some(|m|) by { assert bytes[0] == Be16(|m|)[0] && bytes[1] == Be16(|m|)[1]; }
      assert bytes[2..2 + |m|] == m;
      assert bytes[2 + |m|..] == Framed(msgs[1..]) + tail;
      WalkReadsFrames(Absorb(p, m), msgs[1..], tail);
    }
  }

  // --- what is collected -----------------------------------------------------------------

  /** Removing by swap drops exactly one occurrence of the answered id. */
  lemma SwapRemoveDropsOne(s: seq<u16>, pos: nat)
    requires pos < |s|
    ensures multiset(SwapRemove(s, pos)) == multiset(s) - multiset{s[pos]}
  {
    var n := |s| - 1;
    var moved := s[pos := s[n]];
    assert moved == moved[..n] + [s[n]];
    assert multiset(moved) == multiset(s) - multiset{s[pos]} + multiset{s[n]};
    assert multiset(moved) == multiset(moved[..n]) + multiset{s[n]};
    assert multiset(moved) - multiset{s[n]} == multiset(moved[..n]);
  }

  /** Each query is answered at most once: a second reply to the same id changes nothing. */
  lemma SecondReplyIsIgnored(p: Progress, msg: Bytes, again: Bytes)
    requires U16At(msg, 0) == U16At(again, 0)
    requires U16At(msg, 0).Some? ==> multiset(p.pending)[U16At(msg, 0).value] <= 1
    ensures Absorb(Absorb(p, msg), again) == Absorb(p, msg)
  {
    var id := U16At(msg, 0);
    if id.Some? && id.value in p.pending {
      var pos := Position(p.pending, id.value);
      SwapRemoveDropsOne(p.pending, pos);
      assert multiset(Absorb(p, msg).pending)[id.value] == 0;
    }
  }

  // What a run of messages collects, with no order of the pending queries in sight.

  /** The first two bytes: the id a message answers. */
  function IdOf(msg: Bytes): nat
    requires |msg| >= 2
  {
    (msg[0] as int) * 256 + msg[1] as int
  }

  /** The addresses of one message, if it parses as an answer to its own id. */
  function AnswersIn(msg: Bytes): seq<Address>
    requires |msg| >= 2
  {
    var answers := ParseAnswers(msg, IdOf(msg));
    if answers.Some? then answers.value else []
  }

  /** The addresses taken from one message while these ids are open, and the ids open after it. */
  ghost function Taken(open: multiset<u16>, msg: Bytes): (seq<Address>, multiset<u16>) {
    if |msg| >= 2 && IdOf(msg) in open then (AnswersIn(msg), open - multiset{IdOf(msg)}) else ([], open)
  }

  /** One reply is taken for each time its id was asked, in the order they come. */
  ghost function Collected(open: multiset<u16>, msgs: seq<Bytes>): (seq<Address>, multiset<u16>)
    decreases |msgs|
  {
    if msgs == [] then ([], open)
    else
      var (here, open1) := Taken(open, msgs[0]);
      var (rest, left) := Collected(open1, msgs[1..]);
      (here + rest, left)
  }

  lemma AbsorbsOne(p: Progress, msg: Bytes)
    ensures Absorb(p, msg).out == p.out + Taken(multiset(p.pending), msg).0
    ensures multiset(Absorb(p, msg).pending) == Taken(multiset(p.pending), msg).1
  {
    assert U16At(msg, 0) == if |msg| >= 2 then Some(IdOf(msg)) else None;
    hide ParseAnswers, U16At, IdOf, SwapRemove, Position;
    if |msg| >= 2 {
      var id: u16 := IdOf(msg);
      if id in p.pending {
        SwapRemoveDropsOne(p.pending, Position(p.pending, id));
        assert Absorb(p, msg).pending == SwapRemove(p.pending, Position(p.pending, id));
      }
    }
  }

  /** Whatever order the pending ids are kept in, the addresses collected are those of the replies taken,
      message by message, and the ids left are those not answered. */
  lemma {:induction false} AbsorbsCollected(p: Progress, msgs: seq<Bytes>)
    ensures AbsorbAll(p, msgs).out == p.out + Collected(multiset(p.pending), msgs).0
    ensures multiset(AbsorbAll(p, msgs).pending) == Collected(multiset(p.pending), msgs).1
    decreases |msgs|
  {
    hide Absorb, Taken;
    if msgs != [] {
      AbsorbsOne(p, msgs[0]);
      AbsorbsCollected(Absorb(p, msgs[0]), msgs[1..]);
    }
  }

  function AllAnswers(msgs: seq<Bytes>): seq<Address>
    requires forall m <- msgs :: |m| >= 2
  {
    if msgs == [] then [] else AnswersIn(msgs[0]) + AllAnswers(msgs[1..])
  }

  function IdsOf(msgs: seq<Bytes>): seq<u16>
    requires forall m <- msgs :: |m| >= 2
  {
    if msgs == [] then [] else [IdOf(msgs[0])] + IdsOf(msgs[1..])
  }

  lemma {:induction false} OneReplyEach(open: multiset<u16>, msgs: seq<Bytes>)
    requires (forall m <- msgs :: |m| >= 2) && multiset(IdsOf(msgs)) == open
    ensures Collected(open, msgs) == (AllAnswers(msgs), multiset{})
    decreases |msgs|
  {
    if msgs != [] {
      var id := IdOf(msgs[0]);
      hide AnswersIn, IdOf;
      assert IdsOf(msgs) == [id] + IdsOf(msgs[1..]);
      assert open - multiset{id} == multiset(IdsOf(msgs[1..]));
      OneReplyEach(open - multiset{id}, msgs[1..]);
    }
  }

  /** An ordinary exchange: one reply to each query comes, in any order, framed and cut anywhere. Every
      query is answered, and the result is all the addresses of all the replies, as they came. */
  lemma ExchangeGivesEveryAnswer(ids: seq<u16>, chunks: seq<Bytes>, msgs: seq<Bytes>)
    requires (forall m <- msgs :: 2 <= |m| < 0x1_0000) && multiset(IdsOf(msgs)) == multiset(ids)
    requires Concat(chunks) == Framed(msgs)
    ensures Walk(Progress(ids, []), Concat(chunks)).0 == Progress([], AllAnswers(msgs))
  {
    hide Walk, Absorb, AnswersIn;
    assert Framed(msgs) + [] == Framed(msgs);
    WalkReadsFrames(Progress(ids, []), msgs, []);
    AbsorbsCollected(Progress(ids, []), msgs);
    OneReplyEach(multiset(ids), msgs);
    var p := AbsorbAll(Progress(ids, []), msgs);
    assert |multiset(p.pending)| == |p.pending|;
  }
}
