/**
 DNS messages: the parser of answers, as loops over a cursor, against the wire format of section 4.1
 of RFC 1035 given as an encoder. The parser accepts what the encoder writes and, but for messages that
 announce no answers, nothing else.
 */
module DnsMessage {
  import opened Basics

  const TYPE_A: u16 := 1
  const TYPE_AAAA: u16 := 28
  const CLASS_IN: u16 := 1

  function U16At(b: Bytes, i: nat): Option<u16> {
    if i + 1 < |b| then Some((b[i] as int) * 0x100 + b[i + 1] as int) else None
  }

  /** The bytes `enc` stand in `msg` at `i`. */
  predicate At(msg: Bytes, i: nat, enc: Bytes) { i + |enc| <= |msg| && msg[i..i + |enc|] == enc }

  lemma AtSplit(msg: Bytes, i: nat, a: Bytes, b: Bytes)
    ensures At(msg, i, a + b) <==> At(msg, i, a) && At(msg, i + |a|, b)
  {
    if At(msg, i, a + b) {
      assert msg[i..i + |a|] == (a + b)[..|a|];
      assert msg[i + |a|..i + |a| + |b|] == (a + b)[|a|..];
    }
    if At(msg, i, a) && At(msg, i + |a|, b) {
      assert msg[i..i + |a + b|] == msg[i..i + |a|] + msg[i + |a|..i + |a| + |b|];
    }
  }

  lemma U16Means(msg: Bytes, i: nat, n: u16)
    ensures At(msg, i, Be16(n)) <==> U16At(msg, i) == Some(n)
  {
    if i + 1 < |msg| { assert msg[i..i + 2] == [msg[i], msg[i + 1]]; }
  }

  // --- names -----------------------------------------------------------------------------

  /** A name as it stands on the wire: labels, then the root or a pointer to the rest. */
  datatype Name = Root | Pointer(hi: byte, lo: byte) | More(first: Bytes, rest: Name)

  predicate WireName(name: Name) {
    match name
    case Root => true
    case Pointer(hi, _) => 0xC0 <= hi
    case More(first, rest) => 1 <= |first| <= 63 && WireName(rest)
  }

  function EncodeName(name: Name): Bytes
    requires WireName(name)
  {
    match name
    case Root => [0]
    case Pointer(hi, lo) => [hi, lo]
    case More(first, rest) => [|first|] + first + EncodeName(rest)
  }

  /** The offset just past the name at `i`. */
  function SkipName(msg: Bytes, i: nat): Option<nat>
    decreases if i < |msg| then |msg| - i else 0
  {
    if i >= |msg| then None
    else
      var len := msg[i] as int;
      if len >= 0xC0 then (if i + 2 <= |msg| then Some(i + 2) else None)
      else if len == 0 then Some(i + 1)
      else if len < 0x40 then SkipName(msg, i + 1 + len)
      else None
  }

  lemma {:induction false} SkipsEveryName(msg: Bytes, i: nat, name: Name)
    requires WireName(name) && At(msg, i, EncodeName(name))
    ensures SkipName(msg, i) == Some(i + |EncodeName(name)|)
    decreases name
  {
    var enc := EncodeName(name);
    assert msg[i] == msg[i..i + |enc|][0] == enc[0];
    if name.More? {
      AtSplit(msg, i, [|name.first|] + name.first, EncodeName(name.rest));
      SkipsEveryName(msg, i + 1 + |name.first|, name.rest);
    }
  }

  lemma {:induction false} SkipsOnlyNames(msg: Bytes, i: nat) returns (name: Name)
    requires SkipName(msg, i).Some?
    ensures WireName(name) && At(msg, i, EncodeName(name))
    ensures SkipName(msg, i).value == i + |EncodeName(name)|
    decreases |msg| - i
  {
    var len := msg[i] as int;
    if len >= 0xC0 {
      name := Pointer(msg[i], msg[i + 1]);
      assert msg[i..i + 2] == [msg[i], msg[i + 1]];
    } else if len == 0 {
      name := Root;
      assert msg[i..i + 1] == [msg[i]];
    } else {
      SkipEndsInside(msg, i + 1 + len);
      var rest := SkipsOnlyNames(msg, i + 1 + len);
      var first := msg[i + 1..i + 1 + len];
      name := More(first, rest);
      hide SkipName;
      MoreIsAt(msg, i, len, rest);
    }
  }

  lemma MoreIsAt(msg: Bytes, i: nat, len: nat, rest: Name)
    requires 1 <= len <= 63 && WireName(rest) && i + 1 + len <= |msg| && msg[i] == len
    requires At(msg, i + 1 + len, EncodeName(rest))
    ensures At(msg, i, EncodeName(More(msg[i + 1..i + 1 + len], rest)))
  {
    var first := msg[i + 1..i + 1 + len];
    assert msg[i..i + 1 + len] == [len] + first;
    AtSplit(msg, i, [len] + first, EncodeName(rest));
  }

  lemma {:induction false} SkipEndsInside(msg: Bytes, i: nat)
    requires SkipName(msg, i).Some?
    ensures i < SkipName(msg, i).value <= |msg|
    decreases if i < |msg| then |msg| - i else 0
  {
    if i < |msg| && 0 < msg[i] < 0x40 { SkipEndsInside(msg, i + 1 + msg[i] as int); }
  }

  method SkipNameLoop(msg: Bytes, start: nat) returns (r: Option<nat>)
    ensures r == SkipName(msg, start)
  {
    var i := start;
    while true
      invariant SkipName(msg, i) == SkipName(msg, start)
      decreases if i < |msg| then |msg| - i else 0
    {
      if i >= |msg| { return None; }
      var len := msg[i] as int;
      if len >= 0xC0 {
        return if i + 2 <= |msg| then Some(i + 2) else None;
      } else if len == 0 {
        return Some(i + 1);
      } else if len < 0x40 {
        i := i + 1 + len;
      } else {
        return None;
      }
    }
  }

  // --- records ---------------------------------------------------------------------------

  datatype Resource = Resource(name: Name, rtype: u16, class_: u16, ttl: Bytes, rdata: Bytes)

  datatype Address = V4(octets: Bytes) | V6(octets: Bytes)

  datatype Verdict = Malformed | Ignored | Use(address: Address)

  predicate WireResource(r: Resource) { WireName(r.name) && |r.ttl| == 4 && |r.rdata| < 0x1_0000 }

  function EncodeResource(r: Resource): Bytes
    requires WireResource(r)
  {
    EncodeName(r.name) + (Be16(r.rtype) + (Be16(r.class_) + (r.ttl + (Be16(|r.rdata|) + r.rdata))))
  }

  function EncodeAll(rs: seq<Resource>): Bytes
    requires forall r <- rs :: WireResource(r)
  {
    if rs == [] then [] else EncodeResource(rs[0]) + EncodeAll(rs[1..])
  }

  predicate Zeros(b: Bytes) { forall x <- b :: x == 0 }

  /** Not an address anything could be reached at. */
  predicate Junk(a: Address) {
    match a
    case V4(o) => Zeros(o) || (|o| > 0 && o[0] == 127)
    case V6(o) => Zeros(o) || (|o| > 0 && Zeros(o[..|o| - 1]) && o[|o| - 1] == 1)
  }

  function Judge(rtype: u16, class_: u16, rdata: Bytes): Verdict {
    if class_ == CLASS_IN && rtype == TYPE_A then
      if |rdata| != 4 then Malformed else if Junk(V4(rdata)) then Ignored else Use(V4(rdata))
    else if class_ == CLASS_IN && rtype == TYPE_AAAA then
      if |rdata| != 16 then Malformed else if Junk(V6(rdata)) then Ignored else Use(V6(rdata))
    else Ignored
  }

  /** The addresses of a list of records; a malformed address record spoils the whole list. */
  function Collect(rs: seq<Resource>): Option<seq<Address>> {
    if rs == [] then Some([])
    else
      Gather(Judge(rs[0].rtype, rs[0].class_, rs[0].rdata), Collect(rs[1..]))
  }

  function Gather(verdict: Verdict, rest: Option<seq<Address>>): Option<seq<Address>> {
    match verdict
    case Malformed => None
    case Ignored => rest
    case Use(a) => if rest.Some? then Some([a] + rest.value) else None
  }

  /** The record at `i`, and the offset past it. */
  function ReadResource(msg: Bytes, i: nat): Option<(u16, u16, Bytes, nat)> {
    match SkipName(msg, i)
    case None => None
    case Some(j) =>
      var rtype, class_, len := U16At(msg, j), U16At(msg, j + 2), U16At(msg, j + 8);
      if rtype.None? || class_.None? || len.None? || j + 10 + len.value > |msg| then None
      else Some((rtype.value, class_.value, msg[j + 10..j + 10 + len.value], j + 10 + len.value))
  }

  function ParseRecords(msg: Bytes, i: nat, n: nat): Option<seq<Address>>
    decreases n
  {
    if n == 0 then Some([])
    else
      match ReadResource(msg, i)
      case None => None
      case Some((rtype, class_, rdata, next)) =>
        Gather(Judge(rtype, class_, rdata), ParseRecords(msg, next, n - 1))
  }

  lemma ReadsEveryResource(msg: Bytes, i: nat, r: Resource)
    requires WireResource(r) && At(msg, i, EncodeResource(r))
    ensures ReadResource(msg, i) == Some((r.rtype, r.class_, r.rdata, i + |EncodeResource(r)|))
  {
    ResourceFields(msg, i, r);
    SkipsEveryName(msg, i, r.name);
    hide SkipName;
  }

  lemma ResourceFields(msg: Bytes, i: nat, r: Resource)
    requires WireResource(r)
    ensures var j := i + |EncodeName(r.name)|;
            && |EncodeResource(r)| == |EncodeName(r.name)| + 10 + |r.rdata|
            && (At(msg, i, EncodeResource(r)) <==>
                  && At(msg, i, EncodeName(r.name)) && U16At(msg, j) == Some(r.rtype) && U16At(msg, j + 2) == Some(r.class_)
                  && At(msg, j + 4, r.ttl) && U16At(msg, j + 8) == Some(|r.rdata|) && At(msg, j + 10, r.rdata))
  {
    var j := i + |EncodeName(r.name)|;
    var data := Be16(|r.rdata|) + r.rdata;
    DataFields(msg, j + 8, r.rdata);
    U16Means(msg, j, r.rtype);
    U16Means(msg, j + 2, r.class_);
    hide At, U16At, EncodeName, WireName;
    AtSplit(msg, i, EncodeName(r.name), Be16(r.rtype) + (Be16(r.class_) + (r.ttl + data)));
    AtSplit(msg, j, Be16(r.rtype), Be16(r.class_) + (r.ttl + data));
    AtSplit(msg, j + 2, Be16(r.class_), r.ttl + data);
    AtSplit(msg, j + 4, r.ttl, data);
  }

  lemma DataFields(msg: Bytes, i: nat, rdata: Bytes)
    requires |rdata| < 0x1_0000
    ensures At(msg, i, Be16(|rdata|) + rdata) <==> U16At(msg, i) == Some(|rdata|) && At(msg, i + 2, rdata)
  {
    AtSplit(msg, i, Be16(|rdata|), rdata);
    U16Means(msg, i, |rdata|);
    hide At;
  }

  lemma ReadsOnlyResources(msg: Bytes, i: nat) returns (r: Resource)
    requires ReadResource(msg, i).Some?
    ensures WireResource(r) && At(msg, i, EncodeResource(r))
    ensures ReadResource(msg, i) == Some((r.rtype, r.class_, r.rdata, i + |EncodeResource(r)|))
  {
    var name := SkipsOnlyNames(msg, i);
    var j := SkipName(msg, i).value;
    var (rtype, class_, rdata, next) := ReadResource(msg, i).value;
    r := Resource(name, rtype, class_, msg[j + 4..j + 8], rdata);
    hide SkipName;
    ResourceFields(msg, i, r);
  }

  lemma ParseStep(msg: Bytes, i: nat, n: nat, r: Resource, next: nat)
    requires n > 0 && ReadResource(msg, i) == Some((r.rtype, r.class_, r.rdata, next))
    ensures ParseRecords(msg, i, n) == Gather(Judge(r.rtype, r.class_, r.rdata), ParseRecords(msg, next, n - 1))
  {
    hide ReadResource, Judge, Gather;
  }

  lemma ListStep(r: Resource, rest: seq<Resource>)
    requires WireResource(r) && forall x <- rest :: WireResource(x)
    ensures (forall x <- [r] + rest :: WireResource(x))
    ensures EncodeAll([r] + rest) == EncodeResource(r) + EncodeAll(rest)
    ensures Collect([r] + rest) == Gather(Judge(r.rtype, r.class_, r.rdata), Collect(rest))
  {
    hide Judge, Gather, EncodeResource, WireResource;
    assert ([r] + rest)[1..] == rest;
  }

  /** Records written one after another are read back, whatever surrounds them. */
  lemma {:induction false} ParsesEveryList(msg: Bytes, i: nat, rs: seq<Resource>)
    requires (forall r <- rs :: WireResource(r)) && At(msg, i, EncodeAll(rs))
    ensures ParseRecords(msg, i, |rs|) == Collect(rs)
    decreases |rs|
  {
    if rs != [] {
      var r, rest := rs[0], rs[1..];
      assert rs == [r] + rest;
      ListStep(r, rest);
      hide ReadResource, EncodeResource, EncodeAll, Judge, At, WireResource, Gather, Collect, ParseRecords;
      AtSplit(msg, i, EncodeResource(r), EncodeAll(rest));
      ReadsEveryResource(msg, i, r);
      ParseStep(msg, i, |rs|, r, i + |EncodeResource(r)|);
      ParsesEveryList(msg, i + |EncodeResource(r)|, rest);
    }
  }

  /** And only such records are accepted. */
  lemma {:induction false} ParsesOnlyLists(msg: Bytes, i: nat, n: nat) returns (rs: seq<Resource>)
    requires i <= |msg| && ParseRecords(msg, i, n).Some?
    ensures |rs| == n && (forall r <- rs :: WireResource(r)) && At(msg, i, EncodeAll(rs))
    ensures Collect(rs) == ParseRecords(msg, i, n)
    decreases n
  {
    hide ReadResource, EncodeResource, EncodeAll, Judge, At, WireResource, Gather, Collect, ParseRecords;
    rs := [];
    if n == 0 {
      NoRecords(msg, i);
    } else {
      var r := FirstOfList(msg, i, n);
      var rest := ParsesOnlyLists(msg, i + |EncodeResource(r)|, n - 1);
      ListStep(r, rest);
      rs := [r] + rest;
      AtSplit(msg, i, EncodeResource(r), EncodeAll(rest));
    }
  }

  lemma NoRecords(msg: Bytes, i: nat)
    requires i <= |msg|
    ensures At(msg, i, EncodeAll([])) && Collect([]) == ParseRecords(msg, i, 0)
  {
  }

  lemma FirstOfList(msg: Bytes, i: nat, n: nat) returns (r: Resource)
    requires i <= |msg| && n > 0 && ParseRecords(msg, i, n).Some?
    ensures WireResource(r) && At(msg, i, EncodeResource(r)) && i + |EncodeResource(r)| <= |msg|
    ensures var rest := ParseRecords(msg, i + |EncodeResource(r)|, n - 1);
            rest.Some? && ParseRecords(msg, i, n) == Gather(Judge(r.rtype, r.class_, r.rdata), rest)
  {
    assert ReadResource(msg, i).Some?;
    hide ReadResource, EncodeResource, Judge, WireResource;
    r := ReadsOnlyResources(msg, i);
    ParseStep(msg, i, n, r, i + |EncodeResource(r)|);
    GatherNeedsTheRest(Judge(r.rtype, r.class_, r.rdata), ParseRecords(msg, i + |EncodeResource(r)|, n - 1));
    hide ParseRecords, Gather;
  }

  lemma GatherNeedsTheRest(verdict: Verdict, rest: Option<seq<Address>>)
    ensures Gather(verdict, rest).Some? ==> rest.Some?
  {
  }

  // --- whole messages --------------------------------------------------------------------

  datatype Question = Question(name: Name, rest: Bytes)

  datatype Message = Message(id: u16, flags: u16, questions: seq<Question>, answers: seq<Resource>, counts: Bytes)

  predicate WireMessage(m: Message) {
    && |m.questions| < 0x1_0000 && |m.answers| < 0x1_0000 && |m.counts| == 4
    && (forall q <- m.questions :: WireName(q.name) && |q.rest| == 4)
    && (forall r <- m.answers :: WireResource(r))
  }

  function EncodeQuestions(qs: seq<Question>): Bytes
    requires forall q <- qs :: WireName(q.name) && |q.rest| == 4
  {
    if qs == [] then [] else EncodeName(qs[0].name) + (qs[0].rest + EncodeQuestions(qs[1..]))
  }

  function EncodeHeader(m: Message): (h: Bytes)
    requires WireMessage(m)
    ensures |h| == 12
  {
    Be16(m.id) + (Be16(m.flags) + (Be16(|m.questions|) + (Be16(|m.answers|) + m.counts)))
  }

  function EncodeMessage(m: Message): Bytes
    requires WireMessage(m)
  {
    EncodeHeader(m) + (EncodeQuestions(m.questions) + EncodeAll(m.answers))
  }

  /** A response, and not an error. */
  predicate Success(flags: u16) { flags >= 0x8000 && flags % 0x10 == 0 }

  function SkipQuestions(msg: Bytes, i: nat, n: nat): Option<nat>
    decreases n
  {
    if n == 0 then Some(i)
    else
      match SkipName(msg, i)
      case None => None
      case Some(j) => SkipQuestions(msg, j + 4, n - 1)
  }

  function ParseAnswers(msg: Bytes, id: u16): Option<seq<Address>> {
    var flags, questions, answers := U16At(msg, 2), U16At(msg, 4), U16At(msg, 6);
    if flags.None? || U16At(msg, 0) != Some(id) || !Success(flags.value) || questions.None? || answers.None? then None
    else
      match SkipQuestions(msg, 12, questions.value)
      case None => None
      case Some(i) => ParseRecords(msg, i, answers.value)
  }

  lemma HeaderFields(msg: Bytes, m: Message)
    requires WireMessage(m)
    ensures At(msg, 0, EncodeHeader(m)) <==>
              && U16At(msg, 0) == Some(m.id) && U16At(msg, 2) == Some(m.flags)
              && U16At(msg, 4) == Some(|m.questions|) && U16At(msg, 6) == Some(|m.answers|)
              && At(msg, 8, m.counts)
  {
    AtSplit(msg, 0, Be16(m.id), Be16(m.flags) + (Be16(|m.questions|) + (Be16(|m.answers|) + m.counts)));
    AtSplit(msg, 2, Be16(m.flags), Be16(|m.questions|) + (Be16(|m.answers|) + m.counts));
    AtSplit(msg, 4, Be16(|m.questions|), Be16(|m.answers|) + m.counts);
    AtSplit(msg, 6, Be16(|m.answers|), m.counts);
    U16Means(msg, 0, m.id);
    U16Means(msg, 2, m.flags);
    U16Means(msg, 4, |m.questions|);
    U16Means(msg, 6, |m.answers|);
  }

  lemma {:induction false} SkipsEveryQuestion(msg: Bytes, i: nat, qs: seq<Question>)
    requires (forall q <- qs :: WireName(q.name) && |q.rest| == 4) && At(msg, i, EncodeQuestions(qs))
    ensures SkipQuestions(msg, i, |qs|) == Some(i + |EncodeQuestions(qs)|)
    decreases |qs|
  {
    hide SkipName, EncodeName, At;
    if qs != [] {
      var name := EncodeName(qs[0].name);
      AtSplit(msg, i, name, qs[0].rest + EncodeQuestions(qs[1..]));
      AtSplit(msg, i + |name|, qs[0].rest, EncodeQuestions(qs[1..]));
      SkipsEveryName(msg, i, qs[0].name);
      SkipsEveryQuestion(msg, i + |name| + 4, qs[1..]);
    }
  }

  lemma {:induction false} SkipsOnlyQuestions(msg: Bytes, i: nat, n: nat) returns (qs: seq<Question>)
    requires i <= |msg| && SkipQuestions(msg, i, n).Some? && SkipQuestions(msg, i, n).value <= |msg|
    ensures |qs| == n && (forall q <- qs :: WireName(q.name) && |q.rest| == 4)
    ensures At(msg, i, EncodeQuestions(qs)) && SkipQuestions(msg, i, n).value == i + |EncodeQuestions(qs)|
    decreases n
  {
    qs := [];
    if n > 0 {
      var name := SkipsOnlyNames(msg, i);
      var j := SkipName(msg, i).value;
      hide SkipName;
      QuestionsEndAfter(msg, j + 4, n - 1);
      var q := Question(name, msg[j..j + 4]);
      var rest := SkipsOnlyQuestions(msg, j + 4, n - 1);
      qs := [q] + rest;
      assert qs[1..] == rest;
      AtSplit(msg, j, q.rest, EncodeQuestions(rest));
      AtSplit(msg, i, EncodeName(name), q.rest + EncodeQuestions(rest));
    }
  }

  lemma {:induction false} QuestionsEndAfter(msg: Bytes, i: nat, n: nat)
    requires SkipQuestions(msg, i, n).Some?
    ensures i <= SkipQuestions(msg, i, n).value
    decreases n
  {
    if n > 0 {
      SkipEndsInside(msg, i);
      QuestionsEndAfter(msg, SkipName(msg, i).value + 4, n - 1);
    }
  }

  /** Whatever follows it in the buffer, an encoded message is read back: the addresses of its
      answers if it is a successful response to this query, and nothing otherwise. */
  lemma ParsesEveryMessage(msg: Bytes, m: Message, id: u16)
    requires WireMessage(m) && At(msg, 0, EncodeMessage(m))
    ensures ParseAnswers(msg, id) == if m.id == id && Success(m.flags) then Collect(m.answers) else None
  {
    hide At, EncodeHeader, EncodeQuestions, EncodeAll, SkipQuestions, ParseRecords, Collect, WireName, WireResource, U16At;
    var body := EncodeQuestions(m.questions) + EncodeAll(m.answers);
    AtSplit(msg, 0, EncodeHeader(m), body);
    AtSplit(msg, 12, EncodeQuestions(m.questions), EncodeAll(m.answers));
    HeaderFields(msg, m);
    SkipsEveryQuestion(msg, 12, m.questions);
    ParsesEveryList(msg, 12 + |EncodeQuestions(m.questions)|, m.answers);
  }

  // The same, said of the records themselves: class 1, type 1 (IPv4) or type 28 (IPv6).

  predicate Holds4(r: Resource) { r.class_ == 1 && r.rtype == 1 }
  predicate Holds6(r: Resource) { r.class_ == 1 && r.rtype == 28 }

  predicate RightSize(r: Resource) { (Holds4(r) ==> |r.rdata| == 4) && (Holds6(r) ==> |r.rdata| == 16) }

  /** Neither the unspecified nor a loopback address. */
  predicate Reachable4(o: Bytes)
    requires |o| == 4
  {
    o != Repeat(0, 4) && o[0] != 127
  }

  predicate Reachable6(o: Bytes)
    requires |o| == 16
  {
    o != Repeat(0, 16) && o != Repeat(0, 15) + [1]
  }

  function Repeat(b: byte, n: nat): Bytes { seq(n, _ => b) }

  /** The addresses in a list of records, in order. */
  function AddressesOf(rs: seq<Resource>): seq<Address>
    requires forall r <- rs :: RightSize(r)
  {
    if rs == [] then []
    else
      var r := rs[0];
      assert RightSize(r);
      (if Holds4(r) && Reachable4(r.rdata) then [V4(r.rdata)]
       else if Holds6(r) && Reachable6(r.rdata) then [V6(r.rdata)]
       else [])
      + AddressesOf(rs[1..])
  }

  lemma {:induction false} CollectsAddresses(rs: seq<Resource>)
    ensures Collect(rs).Some? <==> forall r <- rs :: RightSize(r)
    ensures Collect(rs).Some? ==> Collect(rs).value == AddressesOf(rs)
  {
    if rs != [] {
      CollectsAddresses(rs[1..]);
      JudgesByFields(rs[0]);
      assert rs == [rs[0]] + rs[1..];
      hide Judge, RightSize;
    }
  }

  lemma JudgesByFields(r: Resource)
    ensures Judge(r.rtype, r.class_, r.rdata).Malformed? <==> !RightSize(r)
    ensures RightSize(r) ==>
              Judge(r.rtype, r.class_, r.rdata)
              == if Holds4(r) && Reachable4(r.rdata) then Use(V4(r.rdata))
                 else if Holds6(r) && Reachable6(r.rdata) then Use(V6(r.rdata))
                 else Ignored
  {
    ZerosAre(r.rdata);
    if Holds6(r) && |r.rdata| == 16 {
      var o := r.rdata;
      ZerosAre(o[..15]);
      assert o == o[..15] + [o[15]];
      assert (Repeat(0, 15) + [1])[..15] == Repeat(0, 15);
    }
    hide Zeros, Repeat;
  }

  lemma ZerosAre(o: Bytes)
    ensures Zeros(o) <==> o == Repeat(0, |o|)
  {
    if Zeros(o) {
      forall i | 0 <= i < |o| ensures o[i] == 0 { assert o[i] in o; }
    }
  }

  /** What a reply resolves to. It is accepted if and only if it has this id, is a response without an
      error, and every class-1 record of type 1 or 28 has 4 or 16 octets; and then it gives, in order,
      the octets of exactly those of these records that are neither all zero nor a loopback address. */
  lemma ReplyGivesItsAddresses(msg: Bytes, m: Message, id: u16)
    requires WireMessage(m) && At(msg, 0, EncodeMessage(m))
    ensures ParseAnswers(msg, id).Some?
            <==> m.id == id && m.flags / 32768 == 1 && m.flags % 16 == 0 && forall r <- m.answers :: RightSize(r)
    ensures ParseAnswers(msg, id).Some? ==> ParseAnswers(msg, id).value == AddressesOf(m.answers)
  {
    ParsesEveryMessage(msg, m, id);
    CollectsAddresses(m.answers);
    hide ParseAnswers, Collect, At, EncodeMessage, RightSize;
  }

  /** The questions, as far as they can be counted, end inside the message. */
  predicate QuestionsFit(msg: Bytes) {
    U16At(msg, 4).Some? && SkipQuestions(msg, 12, U16At(msg, 4).value).Some? ==>
      SkipQuestions(msg, 12, U16At(msg, 4).value).value <= |msg|
  }

  /** And the only messages accepted whose questions end inside them are such encodings. */
  lemma ParsesOnlyMessages(msg: Bytes, id: u16) returns (m: Message)
    requires ParseAnswers(msg, id).Some? && QuestionsFit(msg)
    ensures WireMessage(m) && At(msg, 0, EncodeMessage(m))
    ensures m.id == id && Success(m.flags) && Collect(m.answers) == ParseAnswers(msg, id)
  {
    var nq, na := U16At(msg, 4).value, U16At(msg, 6).value;
    var i := SkipQuestions(msg, 12, nq).value;
    QuestionsEndAfter(msg, 12, nq);
    var questions := SkipsOnlyQuestions(msg, 12, nq);
    var answers := ParsesOnlyLists(msg, i, na);
    m := Message(id, U16At(msg, 2).value, questions, answers, msg[8..12]);
    hide ParseRecords, SkipQuestions, Collect;
    HeaderFields(msg, m);
    AtSplit(msg, 12, EncodeQuestions(questions), EncodeAll(answers));
    AtSplit(msg, 0, EncodeHeader(m), EncodeQuestions(questions) + EncodeAll(answers));
  }

  /** An accepted message is an encoding exactly when its questions end inside it; one that is not
      announces no answers and yields none. */
  lemma AcceptedIffQuestionsFit(msg: Bytes, id: u16)
    requires ParseAnswers(msg, id).Some?
    ensures QuestionsFit(msg) <==> exists m :: WireMessage(m) && At(msg, 0, EncodeMessage(m))
    ensures !QuestionsFit(msg) ==> U16At(msg, 6) == Some(0) && ParseAnswers(msg, id) == Some([])
  {
    hide At, EncodeMessage, WireMessage;
    if QuestionsFit(msg) {
      var m := ParsesOnlyMessages(msg, id);
    } else {
      var i := SkipQuestions(msg, 12, U16At(msg, 4).value).value;
      if U16At(msg, 6) != Some(0) { RecordsStartInside(msg, i, U16At(msg, 6).value); }
      forall m | WireMessage(m) && At(msg, 0, EncodeMessage(m)) ensures false {
        MessagesFit(msg, m);
      }
    }
  }

  lemma MessagesFit(msg: Bytes, m: Message)
    requires WireMessage(m) && At(msg, 0, EncodeMessage(m))
    ensures QuestionsFit(msg)
  {
    hide EncodeHeader, EncodeQuestions, EncodeAll, SkipQuestions, WireName, WireResource, U16At;
    var body := EncodeQuestions(m.questions) + EncodeAll(m.answers);
    AtSplit(msg, 0, EncodeHeader(m), body);
    AtSplit(msg, 12, EncodeQuestions(m.questions), EncodeAll(m.answers));
    HeaderFields(msg, m);
    SkipsEveryQuestion(msg, 12, m.questions);
  }

  /** Eight bytes are enough: a header cut off after its counts of zero is accepted. */
  lemma CutHeaderIsAccepted(id: u16)
    ensures var msg := Be16(id) + Be16(0x8000) + [0, 0, 0, 0];
            ParseAnswers(msg, id) == Some([]) && !QuestionsFit(msg)
  {
  }

  lemma RecordsStartInside(msg: Bytes, i: nat, n: nat)
    requires n > 0 && ParseRecords(msg, i, n).Some?
    ensures i < |msg|
  {
  }

  /** The parser: checks, then a loop over the questions, then one over the answers. */
  method ParseAnswersLoop(msg: Bytes, id: u16) returns (r: Option<seq<Address>>)
    ensures r == ParseAnswers(msg, id)
  {
    hide SkipQuestions, ParseRecords;
    var flags := U16At(msg, 2);
    if flags.None? || U16At(msg, 0) != Some(id) || flags.value < 0x8000 || flags.value % 0x10 != 0 { return None; }
    var questions, answers := U16At(msg, 4), U16At(msg, 6);
    if questions.None? || answers.None? { return None; }
    var i := SkipQuestionsLoop(msg, 12, questions.value);
    if i.None? { return None; }
    r := ParseRecordsLoop(msg, i.value, answers.value);
  }

  method SkipQuestionsLoop(msg: Bytes, start: nat, count: nat) returns (r: Option<nat>)
    ensures r == SkipQuestions(msg, start, count)
  {
    hide SkipName;
    var i := start;
    for n := 0 to count
      invariant SkipQuestions(msg, i, count - n) == SkipQuestions(msg, start, count)
    {
      var next := SkipNameLoop(msg, i);
      if next.None? { return None; }
      i := next.value + 4;
    }
    return Some(i);
  }

  function Prefixed(out: seq<Address>, rest: Option<seq<Address>>): Option<seq<Address>> {
    if rest.Some? then Some(out + rest.value) else None
  }

  lemma PrefixedEnds(out: seq<Address>, rest: Option<seq<Address>>)
    ensures Prefixed([], rest) == rest && Prefixed(out, Some([])) == Some(out)
  {
    if rest.Some? { assert [] + rest.value == rest.value; }
    assert out + [] == out;
  }

  method ParseRecordsLoop(msg: Bytes, start: nat, count: nat) returns (r: Option<seq<Address>>)
    ensures r == ParseRecords(msg, start, count)
  {
    hide ReadResource, Judge;
    var i := start;
    var out := [];
    PrefixedEnds([], ParseRecords(msg, start, count));
    for n := 0 to count
      invariant ParseRecords(msg, start, count) == Prefixed(out, ParseRecords(msg, i, count - n))
    {
      var one := ReadResourceStep(msg, i);
      if one.None? { return None; }
      var (rtype, class_, rdata, next) := one.value;
      ghost var rest := ParseRecords(msg, next, count - n - 1);
      i := next;
      match Judge(rtype, class_, rdata) {
        case Malformed => return None;
        case Ignored =>
        case Use(a) =>
          if rest.Some? { assert out + ([a] + rest.value) == (out + [a]) + rest.value; }
          out := out + [a];
      }
    }
    PrefixedEnds(out, Some([]));
    return Some(out);
  }

  method ReadResourceStep(msg: Bytes, start: nat) returns (r: Option<(u16, u16, Bytes, nat)>)
    ensures r == ReadResource(msg, start)
  {
    var i := SkipNameLoop(msg, start);
    if i.None? { return None; }
    var rtype, class_ := U16At(msg, i.value), U16At(msg, i.value + 2);
    var len := U16At(msg, i.value + 8);
    if rtype.None? || class_.None? || len.None? { return None; }
    if i.value + 10 + len.value > |msg| { return None; }
    return Some((rtype.value, class_.value, msg[i.value + 10..i.value + 10 + len.value], i.value + 10 + len.value));
  }
}
