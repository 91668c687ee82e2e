/** The HELLO exchange: its byte format and the agreement both ends reach without a round trip. */
module Version {
  import opened Basics

  type u64 = x: int | 0 <= x < 0x1_0000_0000_0000_0000

  const DEFAULT_IDLE_TOLERANCE: u32 := 45
  const MAX_IDLE_TOLERANCE: u32 := 900
  const MIN_IDLE_TOLERANCE: u32 := 15

  // Bit numbers of the capabilities.
  const CAP_DATAGRAM := 0
  const CAP_KEEPALIVE := 1
  const CAP_FLOWCONTROL := 2
  const CAP_ICMP := 3
  const CAP_IDLE_TOLERANCE := 4

  datatype Hello = Hello(version: u16, minSupported: u16, capabilities: u64, idleTolerance: u32)

  datatype Negotiated = Negotiated(version: u16, capabilities: u64, localIdle: u32, peerIdle: u32)

  // --- capability sets -------------------------------------------------------------------

  function Bit(n: nat, k: nat): nat { if k == 0 then n % 2 else Bit(n / 2, k - 1) }

  predicate Has(capabilities: u64, cap: nat) { Bit(capabilities, cap) == 1 }

  /** Bitwise intersection. */
  function And(a: nat, b: nat): (r: nat)
    ensures r <= a && r <= b
  {
    if a == 0 || b == 0 then 0
    else 2 * And(a / 2, b / 2) + (if a % 2 == 1 && b % 2 == 1 then 1 else 0)
  }

  lemma {:induction false} AndBit(a: nat, b: nat, k: nat)
    ensures Bit(And(a, b), k) == 1 <==> Bit(a, k) == 1 && Bit(b, k) == 1
  {
    if a == 0 || b == 0 {
      ZeroBit(k);
    } else if k > 0 {
      AndBit(a / 2, b / 2, k - 1);
    }
  }

  lemma {:induction false} ZeroBit(k: nat)
    ensures Bit(0, k) == 0
  {
    if k > 0 { ZeroBit(k - 1); }
  }

  lemma {:induction false} AndCommutes(a: nat, b: nat)
    ensures And(a, b) == And(b, a)
  {
    if a != 0 && b != 0 { AndCommutes(a / 2, b / 2); }
  }

  // --- bytes -----------------------------------------------------------------------------

  function Be64(n: u64): Bytes { Be32(n / 0x1_0000_0000) + Be32(n % 0x1_0000_0000) }

  function FromBe64(b: Bytes): u64
    requires |b| >= 8
  {
    FromBe32(b) * 0x1_0000_0000 + FromBe32(b[4..])
  }

  function Encode(h: Hello): (b: Bytes)
    ensures |b| == 16
  {
    Be16(h.version) + Be16(h.minSupported) + Be64(h.capabilities) + Be32(h.idleTolerance)
  }

  function Decode(b: Bytes): Option<Hello> {
    if |b| < 12 then None
    else
      Some(Hello((b[0] as int) * 0x100 + b[1] as int, (b[2] as int) * 0x100 + b[3] as int, FromBe64(b[4..12]),
                 if |b| >= 16 then FromBe32(b[12..16]) else DEFAULT_IDLE_TOLERANCE))
  }

  lemma Be64RoundTrip(n: u64)
    ensures |Be64(n)| == 8 && FromBe64(Be64(n)) == n
  {
    var hi, lo := n / 0x1_0000_0000, n % 0x1_0000_0000;
    Be32RoundTrip(hi);
    Be32RoundTrip(lo);
    assert Be64(n)[4..] == Be32(lo);
    assert FromBe32(Be64(n)) == FromBe32(Be32(hi));
  }

  /** A HELLO survives, whatever a newer peer appends to it; an older peer's twelve bytes stand for
      the same HELLO with the default tolerance; anything shorter is refused. */
  lemma HelloSurvives(h: Hello, more: Bytes, cut: nat)
    requires cut <= 16
    ensures Decode(Encode(h) + more) == Some(h)
    ensures 12 <= cut < 16 ==> Decode(Encode(h)[..cut]) == Some(h.(idleTolerance := DEFAULT_IDLE_TOLERANCE))
    ensures cut < 12 ==> Decode(Encode(h)[..cut]) == None
  {
    var b := Encode(h);
    Be64RoundTrip(h.capabilities);
    Be32RoundTrip(h.idleTolerance);
    assert (b + more)[4..12] == b[4..12] == Be64(h.capabilities);
    assert (b + more)[12..16] == b[12..16] == Be32(h.idleTolerance);
    if 12 <= cut { assert b[..cut][4..12] == b[4..12]; }
    hide FromBe64, Be64, Be32, FromBe32;
  }

  /** The bytes of a HELLO: four numbers, each most significant byte first. */
  lemma HelloLayout(h: Hello)
    ensures var b := Encode(h);
            && h.version == (b[0] as int) * 256 + b[1] as int && h.minSupported == (b[2] as int) * 256 + b[3] as int
            && h.capabilities == Number(b[4..8]) * 4294967296 + Number(b[8..12])
            && h.idleTolerance == Number(b[12..16])
  {
    var b := Encode(h);
    var hi, lo := h.capabilities / 0x1_0000_0000, h.capabilities % 0x1_0000_0000;
    assert b[4..8] == Be32(hi) && b[8..12] == Be32(lo) && b[12..16] == Be32(h.idleTolerance);
    NumberOf(hi);
    NumberOf(lo);
    NumberOf(h.idleTolerance);
    hide Be32, Number;
  }

  /** Four bytes as a number, most significant first. */
  function Number(b: Bytes): nat
    requires |b| == 4
  {
    (b[0] as int) * 16777216 + (b[1] as int) * 65536 + (b[2] as int) * 256 + b[3] as int
  }

  lemma NumberOf(n: u32)
    ensures Number(Be32(n)) == n
  {
    Be32RoundTrip(n);
  }

  // --- agreement -------------------------------------------------------------------------

  function ClampIdle(requested: u32): u32 {
    if requested < MIN_IDLE_TOLERANCE then MIN_IDLE_TOLERANCE
    else if requested > MAX_IDLE_TOLERANCE then MAX_IDLE_TOLERANCE
    else requested
  }

  function Negotiate(local: Hello, peer: Hello): Option<Negotiated> {
    var version := if local.version <= peer.version then local.version else peer.version;
    if version < local.minSupported || version < peer.minSupported then None
    else
      var capabilities := And(local.capabilities, peer.capabilities);
      var honoured := Has(capabilities, CAP_IDLE_TOLERANCE);
      Some(Negotiated(version, capabilities,
                      if honoured then ClampIdle(peer.idleTolerance) else DEFAULT_IDLE_TOLERANCE,
                      if honoured then ClampIdle(local.idleTolerance) else DEFAULT_IDLE_TOLERANCE))
  }

  /** What one end makes of the bytes the other sent. */
  function Meet(local: Hello, received: Bytes): Option<Negotiated> {
    var peer := Decode(received);
    if peer.None? then None else Negotiate(local, peer.value)
  }

  /** What an end may send for its HELLO: the whole of it and anything after, or, from an older end,
      no more than a part of the tolerance field. */
  ghost predicate Sends(h: Hello, sent: Bytes) {
    || (exists more: Bytes :: sent == Encode(h) + more)
    || (12 <= |sent| < 16 && sent == Encode(h)[..|sent|])
  }

  lemma SentMeans(h: Hello, sent: Bytes)
    requires Sends(h, sent)
    ensures Decode(sent) == Some(h.(idleTolerance := if |sent| < 16 then DEFAULT_IDLE_TOLERANCE else h.idleTolerance))
  {
    if 12 <= |sent| < 16 && sent == Encode(h)[..|sent|] {
      HelloSurvives(h, [], |sent|);
    } else {
      var more :| sent == Encode(h) + more;
      HelloSurvives(h, more, 0);
    }
  }

  /** Each end decides from its own HELLO and the bytes the other sent, of whichever form. Either both
      go on or neither does; they run the same version and the same capabilities; and each tolerates
      between 15 and 900 seconds of silence. Each tolerates exactly what the other believes it does,
      if and only if tolerances are not in use, or every end that sent the shorter form wants the
      default. */
  lemma HelloAgreement(a: Hello, b: Hello, sentA: Bytes, sentB: Bytes)
    requires Sends(a, sentA) && Sends(b, sentB)
    ensures Meet(a, sentB).Some? <==> Meet(b, sentA).Some?
    ensures Meet(a, sentB).Some? ==>
              var atA, atB := Meet(a, sentB).value, Meet(b, sentA).value;
              && atA.version == atB.version && atA.capabilities == atB.capabilities
              && MIN_IDLE_TOLERANCE <= atA.localIdle <= MAX_IDLE_TOLERANCE
              && MIN_IDLE_TOLERANCE <= atB.localIdle <= MAX_IDLE_TOLERANCE
              && (atA.localIdle == atB.peerIdle && atA.peerIdle == atB.localIdle
                  <==> || !Has(atA.capabilities, CAP_IDLE_TOLERANCE)
                       || (&& (|sentA| < 16 ==> a.idleTolerance == DEFAULT_IDLE_TOLERANCE)
                           && (|sentB| < 16 ==> b.idleTolerance == DEFAULT_IDLE_TOLERANCE)))
  {
    SentMeans(a, sentA);
    SentMeans(b, sentB);
    AndCommutes(a.capabilities, b.capabilities);
    hide Encode, Decode, And, Has, Sends;
  }

  /** A version both ends can run. */
  predicate Shared(a: Hello, b: Hello, v: u16) {
    a.minSupported <= v <= a.version && b.minSupported <= v <= b.version
  }

  /** They go on exactly when some version suits both, and then both run the newest such version. */
  lemma VersionIsTheNewestShared(a: Hello, b: Hello, sentA: Bytes, sentB: Bytes)
    requires Sends(a, sentA) && Sends(b, sentB)
    ensures Meet(a, sentB).Some? <==> exists v: u16 :: Shared(a, b, v)
    ensures Meet(a, sentB).Some? ==>
              && Meet(b, sentA).Some? && Meet(a, sentB).value.version == Meet(b, sentA).value.version
              && Shared(a, b, Meet(a, sentB).value.version)
              && forall v: u16 :: Shared(a, b, v) ==> v <= Meet(a, sentB).value.version
  {
    SentMeans(b, sentB);
    HelloAgreement(a, b, sentA, sentB);
    hide Encode, Decode, And, Has, Sends;
    if Meet(a, sentB).Some? { assert Shared(a, b, Meet(a, sentB).value.version); }
  }

  /** No end ever runs a capability alone, whichever form either sends: it is on at both exactly when
      both advertised it. */
  lemma NoCapabilityAlone(a: Hello, b: Hello, sentA: Bytes, sentB: Bytes, cap: nat)
    requires Sends(a, sentA) && Sends(b, sentB)
    requires Meet(a, sentB).Some? || Meet(b, sentA).Some?
    ensures Meet(a, sentB).Some? && Meet(b, sentA).Some?
    ensures Has(Meet(a, sentB).value.capabilities, cap) <==> Has(a.capabilities, cap) && Has(b.capabilities, cap)
    ensures Has(Meet(b, sentA).value.capabilities, cap) <==> Has(a.capabilities, cap) && Has(b.capabilities, cap)
  {
    HelloAgreement(a, b, sentA, sentB);
    SentMeans(b, sentB);
    AndBit(a.capabilities, b.capabilities, cap);
    hide Encode, Decode, And, Has;
  }

  // --- the multiplexer's timeouts --------------------------------------------------------

  /** The silence an end tolerates, and the silence it believes the other tolerates. */
  function Timeouts(n: Negotiated, fallback: nat): (nat, nat) {
    if Has(n.capabilities, CAP_IDLE_TOLERANCE) then (n.localIdle, n.peerIdle) else (fallback, fallback)
  }

  /** With the same fallback, the silence each end tolerates is what the other believes it does, if
      and only if tolerances are not in use, or every end that sent the shorter form wants the
      default. So between ends that send the whole HELLO, none outwaits a peer that has given up. */
  lemma TimeoutsMirror(a: Hello, b: Hello, sentA: Bytes, sentB: Bytes, fallback: nat)
    requires Sends(a, sentA) && Sends(b, sentB) && Meet(a, sentB).Some?
    ensures Meet(b, sentA).Some?
    ensures var atA := Timeouts(Meet(a, sentB).value, fallback);
            var atB := Timeouts(Meet(b, sentA).value, fallback);
            atA.0 == atB.1 && atA.1 == atB.0
            <==> || !Has(Meet(a, sentB).value.capabilities, CAP_IDLE_TOLERANCE)
                 || (&& (|sentA| < 16 ==> a.idleTolerance == DEFAULT_IDLE_TOLERANCE)
                     && (|sentB| < 16 ==> b.idleTolerance == DEFAULT_IDLE_TOLERANCE))
  {
    HelloAgreement(a, b, sentA, sentB);
    hide Meet, Has, Sends;
  }

  /** Both ends set bit 4: tolerances are negotiated. */
  predicate BothAsk(a: Hello, b: Hello) {
    a.capabilities / 16 % 2 == 1 && b.capabilities / 16 % 2 == 1
  }

  /** A request as the other end will honour it. */
  function Honoured(asked: u32): nat { if asked < 15 then 15 else if asked > 900 then 900 else asked }

  /** Each end tolerates the silence the other asked for, and believes the other tolerates the silence
      it asked for itself; 45 seconds stand for a request that was not sent, or that is not in use. */
  lemma EachToleratesWhatTheOtherAsked(a: Hello, b: Hello, sentB: Bytes)
    requires Sends(b, sentB) && Meet(a, sentB).Some?
    ensures var n := Meet(a, sentB).value;
            && n.localIdle == (if BothAsk(a, b) && |sentB| >= 16 then Honoured(b.idleTolerance) else 45)
            && n.peerIdle == (if BothAsk(a, b) then Honoured(a.idleTolerance) else 45)
  {
    SentMeans(b, sentB);
    BitFour(a.capabilities);
    BitFour(b.capabilities);
    AndBit(a.capabilities, b.capabilities, 4);
    hide Encode, Decode, And, Bit, Sends;
  }

  /** And that is what the multiplexer runs on, or its own fallback where tolerances are not in use. */
  lemma TimeoutsAreWhatWasAsked(a: Hello, b: Hello, sentB: Bytes, fallback: nat)
    requires Sends(b, sentB) && Meet(a, sentB).Some?
    ensures Timeouts(Meet(a, sentB).value, fallback)
            == if BothAsk(a, b) then (if |sentB| >= 16 then Honoured(b.idleTolerance) else 45, Honoured(a.idleTolerance))
               else (fallback, fallback)
  {
    EachToleratesWhatTheOtherAsked(a, b, sentB);
    SentMeans(b, sentB);
    BitFour(a.capabilities);
    BitFour(b.capabilities);
    AndBit(a.capabilities, b.capabilities, 4);
    hide Encode, Decode, And, Bit, Sends;
  }

  lemma BitFour(n: nat)
    ensures Bit(n, 4) == n / 16 % 2
  {
    assert Bit(n, 4) == Bit(n / 2, 3);
    assert Bit(n / 2, 3) == Bit(n / 2 / 2, 2);
    assert Bit(n / 2 / 2, 2) == Bit(n / 2 / 2 / 2, 1);
    assert Bit(n / 2 / 2 / 2, 1) == Bit(n / 2 / 2 / 2 / 2, 0);
  }
}
