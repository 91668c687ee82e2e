/** Queries: which host names are accepted, and that the name written is the name asked for. */
module DnsQuery {
  import opened Basics
  import opened DnsMessage

  const DOT: byte := 46

  /** The parts of a host name between its dots. */
  function Split(host: Bytes): (parts: seq<Bytes>)
    ensures |parts| >= 1
  {
    if host == [] then [[]]
    else
      var rest := Split(host[1..]);
      if host[0] == DOT then [[]] + rest else [[host[0]] + rest[0]] + rest[1..]
  }

  function Join(parts: seq<Bytes>): Bytes
    requires |parts| >= 1
  {
    if |parts| == 1 then parts[0] else parts[0] + [DOT] + Join(parts[1..])
  }

  lemma JoinMore(first: Bytes, rest: seq<Bytes>)
    requires |rest| >= 1
    ensures Join([first] + rest) == first + [DOT] + Join(rest)
  {
    assert ([first] + rest)[1..] == rest;
  }

  lemma JoinLonger(b: byte, first: Bytes, rest: seq<Bytes>)
    ensures Join([[b] + first] + rest) == [b] + Join([first] + rest)
  {
    if rest == [] {
      assert [[b] + first] + rest == [[b] + first] && [first] + rest == [first];
    } else {
      JoinMore([b] + first, rest);
      JoinMore(first, rest);
      hide Join;
      var t := Join(rest);
      assert ([b] + first) + [DOT] + t == [b] + (first + [DOT] + t);
    }
  }

  lemma {:induction false} JoinSplit(host: Bytes)
    ensures Join(Split(host)) == host
  {
    if host != [] {
      var rest := Split(host[1..]);
      JoinSplit(host[1..]);
      assert host == [host[0]] + host[1..];
      assert rest == [rest[0]] + rest[1..];
      if host[0] == DOT { JoinMore([], rest); } else { JoinLonger(host[0], rest[0], rest[1..]); }
      hide Join;
    }
  }

  predicate HostByte(b: byte) {
    48 <= b <= 57 || 65 <= b <= 90 || 97 <= b <= 122 || b == 45 || b == 95
  }

  predicate ValidPart(part: Bytes) { 1 <= |part| <= 63 && forall b <- part :: HostByte(b) }

  function Stripped(host: Bytes): Bytes {
    if host != [] && host[|host| - 1] == DOT then host[..|host| - 1] else host
  }

  predicate ValidHost(host: Bytes) {
    0 < |Stripped(host)| <= 253 && forall part <- Split(Stripped(host)) :: ValidPart(part)
  }

  function NameOf(parts: seq<Bytes>): Name {
    if parts == [] then Root else More(parts[0], NameOf(parts[1..]))
  }

  lemma {:induction false} NameIsWire(parts: seq<Bytes>)
    requires forall part <- parts :: ValidPart(part)
    ensures WireName(NameOf(parts))
    ensures |parts| >= 1 ==> |EncodeName(NameOf(parts))| == |Join(parts)| + 2
  {
    if parts != [] {
      assert ValidPart(parts[0]);
      NameIsWire(parts[1..]);
    }
  }

  /** The query for a host: one question, recursion desired. */
  function Query(id: u16, host: Bytes, qtype: u16): Bytes
    requires WireName(NameOf(Split(Stripped(host))))
  {
    Be16(id) + [1, 0] + [0, 1, 0, 0, 0, 0, 0, 0]
    + EncodeName(NameOf(Split(Stripped(host)))) + Be16(qtype) + Be16(CLASS_IN)
  }

  /** Written name by name; a host is refused exactly when it is not a valid host name. */
  method BuildQuery(id: u16, host: Bytes, qtype: u16) returns (r: Option<Bytes>)
    ensures r.Some? <==> ValidHost(host)
    ensures r.Some? ==> WireName(NameOf(Split(Stripped(host)))) && r.value == Query(id, host, qtype)
  {
    var name := Stripped(host);
    if name == [] || |name| > 253 { return None; }
    var head := Be16(id) + [1, 0] + [0, 1, 0, 0, 0, 0, 0, 0];
    var q: Bytes := [];
    var parts := Split(name);
    var n := 0;
    while n < |parts|
      invariant 0 <= n <= |parts|
      invariant forall i :: 0 <= i < n ==> ValidPart(parts[i])
      invariant q == EncodeParts(parts[..n])
    {
      if !ValidPart(parts[n]) { return None; }
      EncodePartsAppend(parts[..n], parts[n]);
      assert parts[..n + 1] == parts[..n] + [parts[n]];
      q := q + ([|parts[n]|] + parts[n]);
      n := n + 1;
    }
    assert parts[..n] == parts;
    PartsThenRoot(parts);
    r := Some(head + (q + [0]) + Be16(qtype) + Be16(CLASS_IN));
  }

  function EncodeParts(parts: seq<Bytes>): Bytes
    requires forall part <- parts :: ValidPart(part)
  {
    if parts == [] then []
    else
      assert ValidPart(parts[0]);
      [|parts[0]|] + parts[0] + EncodeParts(parts[1..])
  }

  lemma {:induction false} EncodePartsAppend(parts: seq<Bytes>, part: Bytes)
    requires ValidPart(part) && forall p <- parts :: ValidPart(p)
    ensures EncodeParts(parts + [part]) == EncodeParts(parts) + ([|part|] + part)
  {
    if parts == [] {
      assert parts + [part] == [part];
    } else {
      assert (parts + [part])[1..] == parts[1..] + [part];
      EncodePartsAppend(parts[1..], part);
    }
  }

  lemma {:induction false} PartsThenRoot(parts: seq<Bytes>)
    requires forall part <- parts :: ValidPart(part)
    ensures WireName(NameOf(parts)) && EncodeName(NameOf(parts)) == EncodeParts(parts) + [0]
  {
    if parts != [] {
      assert ValidPart(parts[0]);
      PartsThenRoot(parts[1..]);
    }
  }

  /** A query asks for its host: the name that stands in it is the host's, dot for dot, the parser
      finds the end of it, and the whole fits the 16-bit length in front of it. */
  lemma QueryAsksForItsHost(id: u16, host: Bytes, qtype: u16)
    requires ValidHost(host)
    ensures WireName(NameOf(Split(Stripped(host)))) && Join(Split(Stripped(host))) == Stripped(host)
    ensures var q := Query(id, host, qtype);
            && |q| >= 12 && q[..12] == [id / 256, id % 256, 1, 0, 0, 1, 0, 0, 0, 0, 0, 0]
            && At(q, 12, EncodeName(NameOf(Split(Stripped(host)))))
            && SkipName(q, 12) == Some(|q| - 4)
            && q[|q| - 4..] == [qtype / 256, qtype % 256, 0, 1]
            && |q| == 18 + |Stripped(host)| <= 271
  {
    var parts := Split(Stripped(host));
    NameIsWire(parts);
    JoinSplit(Stripped(host));
    var name := EncodeName(NameOf(parts));
    var q := Query(id, host, qtype);
    assert q[12..12 + |name|] == name;
    assert q[|q| - 4..] == Be16(qtype) + Be16(CLASS_IN);
    assert q[..12] == Be16(id) + [1, 0] + [0, 1, 0, 0, 0, 0, 0, 0];
    SkipsEveryName(q, 12, NameOf(parts));
  }

  // --- which hosts -----------------------------------------------------------------------

  /** Read byte by byte, `run` bytes into a part: letters, digits, '-' and '_', between 1 and 63 of them
      before each dot and before the end. */
  predicate ReadsAsHost(s: Bytes, run: nat) {
    if s == [] then 1 <= run <= 63
    else if s[0] == 46 then 1 <= run <= 63 && ReadsAsHost(s[1..], 0)
    else
      && (48 <= s[0] <= 57 || 65 <= s[0] <= 90 || 97 <= s[0] <= 122 || s[0] == 45 || s[0] == 95)
      && ReadsAsHost(s[1..], run + 1)
  }

  lemma HostBytes(b: byte)
    ensures HostByte(b) <==> 48 <= b <= 57 || 65 <= b <= 90 || 97 <= b <= 122 || b == 45 || b == 95
  {
  }

  lemma {:induction false} ReadsByParts(s: Bytes, run: nat)
    ensures var parts := Split(s);
            ReadsAsHost(s, run)
            <==> && 1 <= run + |parts[0]| <= 63 && (forall b <- parts[0] :: HostByte(b))
                 && forall i :: 1 <= i < |parts| ==> ValidPart(parts[i])
  {
    if s != [] {
      var rest := Split(s[1..]);
      if s[0] == DOT {
        ReadsByParts(s[1..], 0);
        assert Split(s) == [[]] + rest;
        assert forall i :: 1 <= i < |Split(s)| ==> Split(s)[i] == rest[i - 1];
        assert (forall i :: 1 <= i < |Split(s)| ==> ValidPart(Split(s)[i])) <==> forall i :: 0 <= i < |rest| ==> ValidPart(rest[i]) by {
          if forall i :: 1 <= i < |Split(s)| ==> ValidPart(Split(s)[i]) {
            forall i | 0 <= i < |rest| ensures ValidPart(rest[i]) { assert Split(s)[i + 1] == rest[i]; }
          }
        }
      } else {
        ReadsByParts(s[1..], run + 1);
        assert Split(s) == [[s[0]] + rest[0]] + rest[1..];
        assert forall i :: 1 <= i < |rest| ==> Split(s)[i] == rest[i];
        assert |Split(s)[0]| == 1 + |rest[0]|;
        assert (forall b <- Split(s)[0] :: HostByte(b)) <==> HostByte(s[0]) && forall b <- rest[0] :: HostByte(b) by {
          assert s[0] in Split(s)[0];
          assert forall b <- rest[0] :: b in Split(s)[0];
        }
        hide HostByte, ValidPart, Split;
        assert HostByte(s[0]) <==> 48 <= s[0] <= 57 || 65 <= s[0] <= 90 || 97 <= s[0] <= 122 || s[0] == 45 || s[0] == 95
          by { HostBytes(s[0]); }
      }
    }
  }

  /** Which hosts are asked for: those that, a trailing dot aside, have 1 to 253 bytes and read as a
      host. */
  lemma ValidHostsReadAsHosts(host: Bytes)
    ensures var s := if host != [] && host[|host| - 1] == 46 then host[..|host| - 1] else host;
            ValidHost(host) <==> 1 <= |s| <= 253 && ReadsAsHost(s, 0)
  {
    var parts := Split(Stripped(host));
    ReadsByParts(Stripped(host), 0);
    assert (forall p <- parts :: ValidPart(p)) <==> ValidPart(parts[0]) && forall i :: 1 <= i < |parts| ==> ValidPart(parts[i]);
  }
}
