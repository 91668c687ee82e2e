/** Base64url without padding, and hexadecimal: the two encodings connection links use. */
module TextCodec {
  import opened Basics

  // --- base64url -------------------------------------------------------------------------

  function Sextet(n: nat): (c: char)
    requires n < 64
    ensures c != '=' && c != '@' && c != '?' && c != '&' && c != ' ' && c != '\n'
  {
    if n < 26 then 'A' + n as char
    else if n < 52 then 'a' + (n - 26) as char
    else if n < 62 then '0' + (n - 52) as char
    else if n == 62 then '-' else '_'
  }

  function Unsextet(c: char): Option<nat> {
    if 'A' <= c <= 'Z' then Some(c as int - 'A' as int)
    else if 'a' <= c <= 'z' then Some(c as int - 'a' as int + 26)
    else if '0' <= c <= '9' then Some(c as int - '0' as int + 52)
    else if c == '-' then Some(62)
    else if c == '_' then Some(63)
    else None
  }

  lemma SextetRoundTrip(n: nat)
    requires n < 64
    ensures Unsextet(Sextet(n)) == Some(n)
  {
  }

  function Encode64(b: Bytes): string {
    if b == [] then ""
    else if |b| == 1 then [Sextet(b[0] / 4), Sextet(b[0] % 4 * 16)]
    else if |b| == 2 then
      [Sextet(b[0] / 4), Sextet(b[0] % 4 * 16 + b[1] / 16), Sextet(b[1] % 16 * 4)]
    else
      [Sextet(b[0] / 4), Sextet(b[0] % 4 * 16 + b[1] / 16), Sextet(b[1] % 16 * 4 + b[2] / 64), Sextet(b[2] % 64)]
      + Encode64(b[3..])
  }

  predicate InAlphabet(s: string, i: nat) { i < |s| ==> Unsextet(s[i]).Some? }

  /** Refuses characters outside the alphabet, impossible lengths and stray trailing bits. */
  function Decode64(s: string): Option<Bytes> {
    if s == "" then Some([])
    else if |s| == 1 || !(InAlphabet(s, 0) && InAlphabet(s, 1) && InAlphabet(s, 2) && InAlphabet(s, 3)) then None
    else
      var a, b := Unsextet(s[0]).value, Unsextet(s[1]).value;
      if |s| == 2 then (if b % 16 == 0 then Some([Octet(a, b / 16)]) else None)
      else
        var c := Unsextet(s[2]).value;
        if |s| == 3 then (if c % 4 == 0 then Some([Octet(a, b / 16), b % 16 * 16 + c / 4]) else None)
        else
          var d := Unsextet(s[3]).value;
          var rest := Decode64(s[4..]);
          if rest.None? then None
          else Some([Octet(a, b / 16), b % 16 * 16 + c / 4, c % 4 * 64 + d] + rest.value)
  }

  function Octet(a: nat, b: nat): byte
    requires a < 64 && b < 4
  {
    a * 4 + b
  }

  lemma {:induction false} Base64RoundTrip(b: Bytes)
    ensures Decode64(Encode64(b)) == Some(b)
  {
    if |b| >= 3 {
      Base64RoundTrip(b[3..]);
      var s := Encode64(b);
      assert s[4..] == Encode64(b[3..]);
      DecodesGroup(s, b[0], b[1], b[2]);
      assert b == [b[0], b[1], b[2]] + b[3..];
    } else if |b| == 2 {
      DecodesTwo(Encode64(b), b[0], b[1]);
      assert b == [b[0], b[1]];
    } else if |b| == 1 {
      DecodesOne(Encode64(b), b[0]);
      assert b == [b[0]];
    }
  }

  /** How three bytes spread over four sextets, and come back. */
  lemma Spread(x: byte, y: byte, z: byte)
    ensures x / 4 < 64 && x % 4 * 16 + y / 16 < 64 && y % 16 * 4 + z / 64 < 64 && z % 64 < 64
    ensures (x % 4 * 16 + y / 16) / 16 == x % 4 && (x % 4 * 16 + y / 16) % 16 == y / 16
    ensures (y % 16 * 4 + z / 64) / 4 == y % 16 && (y % 16 * 4 + z / 64) % 4 == z / 64
    ensures x / 4 * 4 + x % 4 == x && y / 16 * 16 + y % 16 == y && z / 64 * 64 + z % 64 == z
  {
  }

  lemma DecodesGroup(s: string, x: byte, y: byte, z: byte)
    requires |s| >= 4 && Decode64(s[4..]).Some?
    requires s[0] == Sextet(x / 4) && s[1] == Sextet(x % 4 * 16 + y / 16)
    requires s[2] == Sextet(y % 16 * 4 + z / 64) && s[3] == Sextet(z % 64)
    ensures Decode64(s) == Some([x, y, z] + Decode64(s[4..]).value)
  {
    Spread(x, y, z);
    hide Sextet, Unsextet;
    SextetRoundTrip(x / 4);
    SextetRoundTrip(x % 4 * 16 + y / 16);
    SextetRoundTrip(y % 16 * 4 + z / 64);
    SextetRoundTrip(z % 64);
  }

  lemma ReadsThree(s: string, a: nat, b: nat, c: nat)
    requires |s| == 3 && a < 64 && b < 64 && c < 64
    requires s[0] == Sextet(a) && s[1] == Sextet(b) && s[2] == Sextet(c)
    ensures Decode64(s) == if c % 4 == 0 then Some([Octet(a, b / 16), b % 16 * 16 + c / 4]) else None
  {
    SextetRoundTrip(a);
    SextetRoundTrip(b);
    SextetRoundTrip(c);
    hide Sextet, Unsextet;
    assert InAlphabet(s, 0) && InAlphabet(s, 1) && InAlphabet(s, 2);
  }

  lemma DecodesTwo(s: string, x: byte, y: byte)
    requires |s| == 3
    requires s[0] == Sextet(x / 4) && s[1] == Sextet(x % 4 * 16 + y / 16) && s[2] == Sextet(y % 16 * 4)
    ensures Decode64(s) == Some([x, y])
  {
    hide Decode64, Sextet;
    ReadsThree(s, x / 4, x % 4 * 16 + y / 16, y % 16 * 4);
    Spread(x, y, 0);
    assert y % 16 * 4 / 4 == y % 16 && y % 16 * 4 % 4 == 0;
  }

  lemma DecodesOne(s: string, x: byte)
    requires |s| == 2 && s[0] == Sextet(x / 4) && s[1] == Sextet(x % 4 * 16)
    ensures Decode64(s) == Some([x])
  {
    Spread(x, 0, 0);
    SextetRoundTrip(x / 4);
    SextetRoundTrip(x % 4 * 16);
    hide Sextet, Unsextet;
    assert InAlphabet(s, 0) && InAlphabet(s, 1);
  }

  // What the encoding looks like, and that nothing else is read.

  /** The alphabet of section 5 of RFC 4648. */
  lemma Alphabet()
    ensures [Sextet(0), Sextet(1), Sextet(2), Sextet(3), Sextet(4), Sextet(5), Sextet(6), Sextet(7)]
            == "ABCDEFGH"
    ensures [Sextet(8), Sextet(9), Sextet(10), Sextet(11), Sextet(12), Sextet(13), Sextet(14), Sextet(15)]
            == "IJKLMNOP"
    ensures [Sextet(16), Sextet(17), Sextet(18), Sextet(19), Sextet(20), Sextet(21), Sextet(22), Sextet(23)]
            == "QRSTUVWX"
    ensures [Sextet(24), Sextet(25), Sextet(26), Sextet(27), Sextet(28), Sextet(29), Sextet(30), Sextet(31)]
            == "YZabcdef"
  {
  }

  lemma AlphabetEnds()
    ensures [Sextet(32), Sextet(33), Sextet(34), Sextet(35), Sextet(36), Sextet(37), Sextet(38), Sextet(39)]
            == "ghijklmn"
    ensures [Sextet(40), Sextet(41), Sextet(42), Sextet(43), Sextet(44), Sextet(45), Sextet(46), Sextet(47)]
            == "opqrstuv"
    ensures [Sextet(48), Sextet(49), Sextet(50), Sextet(51), Sextet(52), Sextet(53), Sextet(54), Sextet(55)]
            == "wxyz0123"
    ensures [Sextet(56), Sextet(57), Sextet(58), Sextet(59), Sextet(60), Sextet(61), Sextet(62), Sextet(63)]
            == "456789-_"
  {
  }

  /** A digit's place in the alphabet. */
  function Place(c: char): nat { if Unsextet(c).Some? then Unsextet(c).value else 0 }

  /** Three bytes are one number, written with four digits of the alphabet, the highest first; one or two
      bytes at the end are written with two or three, filled up with zero bits. */
  lemma SpellsItsNumber(b: Bytes)
    requires b != []
    ensures var s := Encode64(b);
            if |b| == 1 then |s| == 2 && Place(s[0]) * 64 + Place(s[1]) == (b[0] as int) * 16
            else if |b| == 2 then
              |s| == 3 && Place(s[0]) * 4096 + Place(s[1]) * 64 + Place(s[2]) == (b[0] as int) * 1024 + (b[1] as int) * 4
            else
              && |s| >= 4 && s[4..] == Encode64(b[3..])
              && Place(s[0]) * 262144 + Place(s[1]) * 4096 + Place(s[2]) * 64 + Place(s[3])
                 == (b[0] as int) * 65536 + (b[1] as int) * 256 + b[2] as int
  {
    var x, y, z := b[0], if |b| > 1 then b[1] else 0, if |b| > 2 then b[2] else 0;
    Spread(x, y, z);
    SextetRoundTrip(x / 4);
    SextetRoundTrip(x % 4 * 16 + y / 16);
    SextetRoundTrip(y % 16 * 4 + z / 64);
    SextetRoundTrip(z % 64);
    hide Sextet, Unsextet;
  }

  lemma UnsextetRoundTrip(c: char)
    requires Unsextet(c).Some?
    ensures Unsextet(c).value < 64 && Sextet(Unsextet(c).value) == c
  {
  }

  /** Only encodings are read: a text that decodes is the one its bytes are written as. */
  lemma {:induction false} DecodesOnlyEncodings(s: string)
    requires Decode64(s).Some?
    ensures Encode64(Decode64(s).value) == s
  {
    if |s| >= 4 {
      var a, b, c, d := ReadsFour(s);
      hide Decode64, Sextet, Unsextet, Encode64;
      DecodesOnlyEncodings(s[4..]);
      EncodesFour(a, b, c, d, Decode64(s[4..]).value);
    } else if |s| == 3 {
      ThreeComeBack(s);
    } else if |s| == 2 {
      TwoComeBack(s);
    }
  }

  lemma TwoComeBack(s: string)
    requires |s| == 2 && Decode64(s).Some?
    ensures Encode64(Decode64(s).value) == s
  {
    assert InAlphabet(s, 0) && InAlphabet(s, 1);
    UnsextetRoundTrip(s[0]);
    UnsextetRoundTrip(s[1]);
    var a, b := Unsextet(s[0]).value, Unsextet(s[1]).value;
    assert Decode64(s).value == [a * 4 + b / 16] && b % 16 == 0;
    hide Sextet, Unsextet, Decode64;
    assert (a * 4 + b / 16) / 4 == a && (a * 4 + b / 16) % 4 * 16 == b;
  }

  lemma ThreeComeBack(s: string)
    requires |s| == 3 && Decode64(s).Some?
    ensures Encode64(Decode64(s).value) == s
  {
    assert InAlphabet(s, 0) && InAlphabet(s, 1) && InAlphabet(s, 2);
    UnsextetRoundTrip(s[0]);
    UnsextetRoundTrip(s[1]);
    UnsextetRoundTrip(s[2]);
    var a, b, c := Unsextet(s[0]).value, Unsextet(s[1]).value, Unsextet(s[2]).value;
    assert Decode64(s).value == [a * 4 + b / 16, b % 16 * 16 + c / 4] && c % 4 == 0;
    hide Sextet, Unsextet, Decode64;
    EncodesThree(a, b, c);
  }

  lemma EncodesThree(a: nat, b: nat, c: nat)
    requires a < 64 && b < 64 && c < 64 && c % 4 == 0
    ensures Encode64([a * 4 + b / 16, b % 16 * 16 + c / 4]) == [Sextet(a), Sextet(b), Sextet(c)]
  {
    Regroup(a, b, c, 0);
    hide Sextet;
    assert (b % 16 * 16 + c / 4) % 16 * 4 == c;
  }

  lemma ReadsFour(s: string) returns (a: nat, b: nat, c: nat, d: nat)
    requires |s| >= 4 && Decode64(s).Some?
    ensures && a < 64 && b < 64 && c < 64 && d < 64 && s == [Sextet(a), Sextet(b), Sextet(c), Sextet(d)] + s[4..]
            && Decode64(s[4..]).Some?
            && Decode64(s).value == [a * 4 + b / 16, b % 16 * 16 + c / 4, c % 4 * 64 + d] + Decode64(s[4..]).value
  {
    assert InAlphabet(s, 0) && InAlphabet(s, 1) && InAlphabet(s, 2) && InAlphabet(s, 3);
    UnsextetRoundTrip(s[0]);
    UnsextetRoundTrip(s[1]);
    UnsextetRoundTrip(s[2]);
    UnsextetRoundTrip(s[3]);
    hide Sextet, Unsextet;
    a, b, c, d := Unsextet(s[0]).value, Unsextet(s[1]).value, Unsextet(s[2]).value, Unsextet(s[3]).value;
    assert s == [s[0], s[1], s[2], s[3]] + s[4..];
  }

  lemma EncodesFour(a: nat, b: nat, c: nat, d: nat, rest: Bytes)
    requires a < 64 && b < 64 && c < 64 && d < 64
    ensures Encode64([a * 4 + b / 16, b % 16 * 16 + c / 4, c % 4 * 64 + d] + rest)
            == [Sextet(a), Sextet(b), Sextet(c), Sextet(d)] + Encode64(rest)
  {
    var bytes: Bytes := [a * 4 + b / 16, b % 16 * 16 + c / 4, c % 4 * 64 + d] + rest;
    assert bytes[3..] == rest;
    Regroup(a, b, c, d);
    hide Sextet;
  }

  lemma Regroup(a: nat, b: nat, c: nat, d: nat)
    requires a < 64 && b < 64 && c < 64 && d < 64
    ensures var x, y, z := a * 4 + b / 16, b % 16 * 16 + c / 4, c % 4 * 64 + d;
            && x / 4 == a && x % 4 * 16 + y / 16 == b && y % 16 * 4 + z / 64 == c && z % 64 == d
  {
  }

  // --- hexadecimal -----------------------------------------------------------------------

  function Digit(n: nat): (c: char)
    requires n < 16
    ensures c != '=' && c != '@' && c != '?' && c != '&' && c != ' ' && c != '\n'
  {
    if n < 10 then '0' + n as char else 'a' + (n - 10) as char
  }

  function Undigit(c: char): Option<nat> {
    if '0' <= c <= '9' then Some(c as int - '0' as int)
    else if 'a' <= c <= 'f' then Some(c as int - 'a' as int + 10)
    else if 'A' <= c <= 'F' then Some(c as int - 'A' as int + 10)
    else None
  }

  function EncodeHex(b: Bytes): string {
    if b == [] then "" else [Digit(b[0] / 16), Digit(b[0] % 16)] + EncodeHex(b[1..])
  }

  function DecodeHex(s: string): Option<Bytes> {
    if s == "" then Some([])
    else if |s| == 1 then None
    else
      var hi, lo, rest := Undigit(s[0]), Undigit(s[1]), DecodeHex(s[2..]);
      if hi.None? || lo.None? || rest.None? then None else Some([hi.value * 16 + lo.value] + rest.value)
  }

  lemma {:induction false} HexRoundTrip(b: Bytes)
    ensures DecodeHex(EncodeHex(b)) == Some(b) && |EncodeHex(b)| == 2 * |b|
  {
    if b != [] {
      HexRoundTrip(b[1..]);
      assert EncodeHex(b)[2..] == EncodeHex(b[1..]);
      assert b[0] / 16 * 16 + b[0] % 16 == b[0];
      assert b == [b[0]] + b[1..];
    }
  }

  /** Two digits a byte, the high one first, in lower case. */
  lemma {:induction false} HexSpellsItsBytes(b: Bytes, i: nat)
    requires i < |b|
    ensures |EncodeHex(b)| == 2 * |b|
    ensures EncodeHex(b)[2 * i] == Digit(b[i] / 16) && EncodeHex(b)[2 * i + 1] == Digit(b[i] % 16)
  {
    if |b| > 1 { HexSpellsItsBytes(b[1..], if i == 0 then 0 else i - 1); }
    hide Digit;
  }

  predicate IsHexDigit(c: char) { '0' <= c <= '9' || 'a' <= c <= 'f' || 'A' <= c <= 'F' }

  /** What decodes as hex: pairs of digits in either case. */
  lemma {:induction false} HexIsRead(s: string)
    ensures DecodeHex(s).Some? <==> |s| % 2 == 0 && forall i :: 0 <= i < |s| ==> IsHexDigit(s[i])
  {
    if |s| >= 2 {
      var rest := s[2..];
      HexIsRead(rest);
      assert Undigit(s[0]).Some? == IsHexDigit(s[0]) && Undigit(s[1]).Some? == IsHexDigit(s[1]);
      hide IsHexDigit, Undigit;
      assert forall i :: 0 <= i < |rest| ==> rest[i] == s[i + 2];
      if forall i :: 0 <= i < |rest| ==> IsHexDigit(rest[i]) {
        forall i | 2 <= i < |s| ensures IsHexDigit(s[i]) == true { assert s[i] == rest[i - 2]; }
      }
      if forall i :: 0 <= i < |s| ==> IsHexDigit(s[i]) {
        forall i | 0 <= i < |rest| ensures IsHexDigit(rest[i]) { assert rest[i] == s[i + 2]; }
      }
    } else if |s| == 1 {
      assert |s| % 2 == 1;
    }
  }

  lemma HexDigits()
    ensures [Digit(0), Digit(1), Digit(2), Digit(3), Digit(4), Digit(5), Digit(6), Digit(7)] == "01234567"
    ensures [Digit(8), Digit(9), Digit(10), Digit(11), Digit(12), Digit(13), Digit(14), Digit(15)] == "89abcdef"
  {
  }

  // --- neither encoding uses a character with a meaning in a link ------------------------

  /** None of the characters that separate the parts of a link. */
  predicate Plain(s: string) {
    forall c <- s :: c != '=' && c != '@' && c != '?' && c != '&' && c != ' ' && c != '\n'
  }

  lemma {:induction false} Base64IsPlain(b: Bytes)
    ensures Plain(Encode64(b))
  {
    if |b| >= 3 { Base64IsPlain(b[3..]); }
  }

  lemma {:induction false} HexIsPlain(b: Bytes)
    ensures Plain(EncodeHex(b))
  {
    if b != [] { HexIsPlain(b[1..]); }
  }
}
