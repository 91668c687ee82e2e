/**
 ICMP echo messages rewritten in place: the identifier, and the internet checksum of RFC 1071,
 with the IPv6 pseudo-header of section 8.1 of RFC 2460 where the family asks for it.
 */
module Icmp {
  import opened Basics

  const HEADER_LEN := 8
  const IPPROTO_ICMPV6 := 58

  /** The accumulator is 32 bits wide and wraps. */
  const WIDTH := 0x1_0000_0000

  /** No message this short wraps it. */
  const SAFE_LENGTH := 0x2_0000

  function Word(hi: byte, lo: byte): nat { (hi as int) * 0x100 + lo as int }

  function High(n: u16): byte { n / 0x100 }
  function Low(n: u16): byte { n % 0x100 }

  /** The sum of the 16-bit words of a byte string, an odd last byte padded with zero. */
  function Sum(data: Bytes): nat {
    if data == [] then 0
    else if |data| == 1 then Word(data[0], 0)
    else Word(data[0], data[1]) + Sum(data[2..])
  }

  /** One's-complement folding: carries are added back in until none is left. */
  function Fold(sum: nat): (r: u16)
    ensures r <= sum
    ensures r % 0xFFFF == sum % 0xFFFF
    ensures r == 0 <==> sum == 0
  {
    if sum < 0x1_0000 then sum
    else
      assert sum == sum / 0x1_0000 * 0xFFFF + (sum % 0x1_0000 + sum / 0x1_0000);
      ModDrop(sum / 0x1_0000, sum % 0x1_0000 + sum / 0x1_0000);
      Fold(sum % 0x1_0000 + sum / 0x1_0000)
  }

  lemma {:induction false} ModDrop(k: nat, n: nat)
    ensures (k * 0xFFFF + n) % 0xFFFF == n % 0xFFFF
  {
    if k > 0 {
      ModDrop(k - 1, n);
      assert k * 0xFFFF + n == (k - 1) * 0xFFFF + n + 0xFFFF;
    }
  }

  /** The receiver's test: the words, checksum field included, add up to all ones. */
  predicate Verifies(data: Bytes) { Fold(Sum(data)) == 0xFFFF }

  function Checksum(data: Bytes): u16 { 0xFFFF - Fold(Sum(data)) }

  lemma {:induction false} SumAppend(a: Bytes, b: Bytes)
    requires |a| % 2 == 0
    ensures Sum(a + b) == Sum(a) + Sum(b)
  {
    if a == [] {
      assert a + b == b;
    } else {
      assert (a + b)[2..] == a[2..] + b;
      SumAppend(a[2..], b);
    }
  }

  lemma {:induction false} SumBound(data: Bytes)
    ensures Sum(data) <= 0xFFFF * ((|data| + 1) / 2)
  {
    if |data| >= 2 { SumBound(data[2..]); }
  }

  // --- the checksum field ----------------------------------------------------------------

  function WithField(msg: Bytes, ck: u16): Bytes
    requires |msg| >= 4
  {
    msg[2 := High(ck)][3 := Low(ck)]
  }

  lemma SumWithField(msg: Bytes, ck: u16)
    requires |msg| >= 4
    ensures Sum(WithField(msg, ck)) == Sum(WithField(msg, 0)) + ck
  {
    var a, b := WithField(msg, ck), WithField(msg, 0);
    assert a[2..][2..] == msg[4..] == b[2..][2..];
    assert a[2..][0] == High(ck) && a[2..][1] == Low(ck);
  }

  lemma FoldsToOnes(sum: nat)
    ensures Fold(sum) == 0xFFFF <==> sum > 0 && sum % 0xFFFF == 0
  {
  }

  /** With any even prefix in front, the field that makes the whole verify is the checksum of the
      whole with that field cleared; it is the only one, but for the two zeros of one's complement. */
  lemma FieldVerifies(prefix: Bytes, msg: Bytes, ck: u16)
    requires |prefix| % 2 == 0 && |msg| >= 4
    ensures var right := Checksum(prefix + WithField(msg, 0));
            && Verifies(prefix + WithField(msg, right))
            && (Verifies(prefix + WithField(msg, ck)) ==> ck == right || (ck % 0xFFFF == 0 && right % 0xFFFF == 0))
  {
    var cleared := Sum(prefix + WithField(msg, 0));
    var right := Checksum(prefix + WithField(msg, 0));
    FieldAdds(prefix, msg, right);
    FieldAdds(prefix, msg, ck);
    var folded := Fold(cleared);
    OnesComplement(cleared, folded, right);
    if Verifies(prefix + WithField(msg, ck)) {
      FoldsToOnes(cleared + ck);
      SameResidue(cleared, right, ck);
    }
  }

  /** What the carries out of a 32-bit accumulator are worth; one's complement loses them unless they
      cancel. */
  predicate CarriesCancel(sum: nat) { sum / WIDTH % 0xFFFF == 0 }

  /** The accumulator after adding up this much. */
  function Wrap(n: nat): u32 { n % WIDTH }

  lemma WrapPlus(a: nat, b: nat)
    ensures Wrap(Wrap(a) + b) == Wrap(a + b)
  {
    var k := a / WIDTH;
    assert a + b == k * WIDTH + (Wrap(a) + b);
    WrapMultiple(k, Wrap(a) + b);
  }

  lemma {:induction false} WrapMultiple(k: nat, n: nat)
    ensures Wrap(k * WIDTH + n) == Wrap(n)
  {
    if k > 0 {
      WrapMultiple(k - 1, n);
      assert k * WIDTH + n == (k - 1) * WIDTH + n + WIDTH;
    }
  }

  lemma WrapSmall(n: nat)
    requires n < WIDTH
    ensures Wrap(n) == n
  {
  }

  function WrappedChecksum(data: Bytes): u16 { 0xFFFF - Fold(Wrap(Sum(data))) }

  /** The checksum of a wrapping accumulator verifies if and only if the carries it lost cancel. */
  lemma WrappedFieldVerifies(prefix: Bytes, msg: Bytes)
    requires |prefix| % 2 == 0 && |msg| >= 4
    ensures var whole := prefix + WithField(msg, 0);
            Verifies(prefix + WithField(msg, WrappedChecksum(whole))) <==> CarriesCancel(Sum(whole))
  {
    var sum := Sum(prefix + WithField(msg, 0));
    var k, low := sum / WIDTH, sum % WIDTH;
    var ck: u16 := 0xFFFF - Fold(low);
    FieldAdds(prefix, msg, ck);
    OnesComplement(low, Fold(low), ck);
    FoldsToOnes(low + ck);
    FoldsToOnes(sum + ck);
    LostCarries(k, low + ck);
    hide Fold, Sum;
    assert sum + ck == k * WIDTH + (low + ck);
  }

  lemma LostCarries(k: nat, n: nat)
    requires n % 0xFFFF == 0
    ensures (k * WIDTH + n) % 0xFFFF == k % 0xFFFF
  {
    var m := n / 0xFFFF;
    assert k * WIDTH + n == (k * 0x1_0001 + m) * 0xFFFF + k;
    ModDrop(k * 0x1_0001 + m, k);
  }

  lemma ShortSumsFit(data: Bytes)
    requires |data| <= SAFE_LENGTH
    ensures Sum(data) < WIDTH && CarriesCancel(Sum(data)) && WrappedChecksum(data) == Checksum(data)
  {
    SumBound(data);
    hide Sum, Fold;
  }

  /** Some longer messages get a checksum no receiver accepts: 131078 bytes of all ones do. */
  lemma LongMessageFails(msg: Bytes)
    requires |msg| == 131078 && forall i :: 0 <= i < |msg| ==> msg[i] == 0xFF
    ensures Sum(WithField(msg, 0)) == WIDTH + 65534
    ensures !Verifies(WithField(msg, WrappedChecksum(WithField(msg, 0))))
  {
    hide Sum, Fold, Verifies, WithField, WrappedChecksum;
    SumOfClearedOnes(msg);
    EmptyPrefix(msg);
    assert !CarriesCancel(WIDTH + 65534);
    hide CarriesCancel;
  }

  lemma SumOfClearedOnes(msg: Bytes)
    requires |msg| % 2 == 0 && |msg| >= 4 && forall i :: 0 <= i < |msg| ==> msg[i] == 0xFF
    ensures Sum(WithField(msg, 0)) == (|msg| / 2 - 1) * 0xFFFF
  {
    assert WithField(msg, 0xFFFF) == msg;
    SumOfOnes(msg);
    SumWithField(msg, 0xFFFF);
    hide Sum, WithField;
  }

  lemma EmptyPrefix(msg: Bytes)
    requires |msg| >= 4
    ensures Verifies(WithField(msg, WrappedChecksum(WithField(msg, 0)))) <==> CarriesCancel(Sum(WithField(msg, 0)))
  {
    hide Sum, Fold, Verifies, WithField;
    WrappedFieldVerifies([], msg);
    var ck := WrappedChecksum(WithField(msg, 0));
    assert [] + WithField(msg, 0) == WithField(msg, 0) && [] + WithField(msg, ck) == WithField(msg, ck);
  }

  lemma {:induction false} SumOfOnes(data: Bytes)
    requires |data| % 2 == 0 && forall i :: 0 <= i < |data| ==> data[i] == 0xFF
    ensures Sum(data) == |data| / 2 * 0xFFFF
  {
    if data != [] {
      assert data[0] == 0xFF && data[1] == 0xFF;
      SumOfOnes(data[2..]);
    }
  }

  lemma FieldAdds(prefix: Bytes, msg: Bytes, ck: u16)
    requires |prefix| % 2 == 0 && |msg| >= 4
    ensures Sum(prefix + WithField(msg, ck)) == Sum(prefix + WithField(msg, 0)) + ck
  {
    SumAppend(prefix, WithField(msg, ck));
    SumAppend(prefix, WithField(msg, 0));
    SumWithField(msg, ck);
  }

  lemma OnesComplement(sum: nat, folded: u16, ck: u16)
    requires folded == Fold(sum) && ck == 0xFFFF - folded
    ensures Fold(sum + ck) == 0xFFFF
  {
    FoldsToOnes(sum + ck);
    assert folded % 0xFFFF == sum % 0xFFFF && (sum == 0 ==> folded == 0);
    hide Fold;
    Complement(sum, folded, ck);
  }

  lemma Complement(sum: nat, folded: u16, ck: u16)
    requires folded % 0xFFFF == sum % 0xFFFF && ck == 0xFFFF - folded
    ensures (sum + ck) % 0xFFFF == 0
  {
    var p, q, r := folded / 0xFFFF, sum / 0xFFFF, sum % 0xFFFF;
    assert sum == q * 0xFFFF + r && folded == p * 0xFFFF + r;
    assert sum + ck == (q + 1 - p) * 0xFFFF + 0;
    ModDrop(q + 1 - p, 0);
  }

  lemma SameResidue(sum: nat, a: u16, b: u16)
    requires (sum + a) % 0xFFFF == 0 && (sum + b) % 0xFFFF == 0
    ensures a == b || (a % 0xFFFF == 0 && b % 0xFFFF == 0)
  {
    var p, q := (sum + a) / 0xFFFF, (sum + b) / 0xFFFF;
    assert sum + a == p * 0xFFFF && sum + b == q * 0xFFFF;
    assert a - b == (p - q) * 0xFFFF;
  }

  /** Changing any one word of a message that verifies is noticed, unless all zeros and all ones
      trade places. */
  lemma ChangedWordIsNoticed(a: Bytes, old_: u16, new_: u16, b: Bytes)
    requires |a| % 2 == 0 && Verifies(a + [High(old_), Low(old_)] + b)
    ensures Verifies(a + [High(new_), Low(new_)] + b) ==>
              new_ == old_ || (new_ % 0xFFFF == 0 && old_ % 0xFFFF == 0)
  {
    WordAdds(a, old_, b);
    WordAdds(a, new_, b);
    var rest := Sum(a) + Sum(b);
    FoldsToOnes(rest + old_);
    FoldsToOnes(rest + new_);
    if Verifies(a + [High(new_), Low(new_)] + b) { SameResidue(rest, old_, new_); }
  }

  lemma WordAdds(a: Bytes, w: u16, b: Bytes)
    requires |a| % 2 == 0
    ensures Sum(a + [High(w), Low(w)] + b) == Sum(a) + Sum(b) + w
  {
    var word := [High(w), Low(w)];
    assert a + word + b == a + (word + b);
    SumAppend(a, word + b);
    assert (word + b)[2..] == b;
  }

  // --- the pseudo-header -----------------------------------------------------------------

  /** What an ICMPv6 receiver puts in front of the message before summing. */
  function Pseudo(src: Bytes, dst: Bytes, len: u32): Bytes { src + dst + Be32(len) + [0, 0, 0, 58] }

  /** Its 40 bytes: the addresses, the length as 32 bits, three zeros, and 58 for the protocol. */
  lemma PseudoLayout(src: Bytes, dst: Bytes, len: u32)
    requires |src| == 16 && |dst| == 16
    ensures var p := Pseudo(src, dst, len);
            && |p| == 40 && p[..16] == src && p[16..32] == dst && p[36..] == [0, 0, 0, 58]
            && len == (p[32] as int) * 16777216 + (p[33] as int) * 65536 + (p[34] as int) * 256 + p[35] as int
  {
    var n := Be32(len);
    Be32RoundTrip(len);
    assert Pseudo(src, dst, len)[32..36] == n;
    assert FromBe32(n) == (n[0] as int) * 16777216 + (n[1] as int) * 65536 + (n[2] as int) * 256 + n[3] as int;
  }

  lemma PseudoSum(src: Bytes, dst: Bytes, len: u32)
    requires |src| == 16 && |dst| == 16
    ensures Sum(Pseudo(src, dst, len)) == Sum(src) + Sum(dst) + len / 0x1_0000 + len % 0x1_0000 + IPPROTO_ICMPV6
    ensures |Pseudo(src, dst, len)| % 2 == 0
  {
    hide Sum, Be32;
    var tail: Bytes := [0, 0, 0, 58];
    assert Word(0, 58) == IPPROTO_ICMPV6;
    SumOfFour(tail);
    LengthSum(len);
    hide Word;
    SumAppend(src, dst);
    SumAppend(src + dst, Be32(len));
    SumAppend(src + dst + Be32(len), tail);
  }

  lemma SumOfFour(b: Bytes)
    requires |b| == 4
    ensures Sum(b) == Word(b[0], b[1]) + Word(b[2], b[3])
  {
    assert Sum(b[2..]) == Word(b[2], b[3]) + Sum(b[2..][2..]);
    assert b[2..][2..] == [];
  }

  lemma LengthSum(len: u32)
    ensures Sum(Be32(len)) == len / 0x1_0000 + len % 0x1_0000
  {
    SumOfFour(Be32(len));
    hide Sum;
    assert len / 0x1_0000 == len / 0x100_0000 * 0x100 + len / 0x1_0000 % 0x100;
    assert len % 0x1_0000 == len / 0x100 % 0x100 * 0x100 + len % 0x100;
  }

  // --- in place --------------------------------------------------------------------------

  /** Adds the words of a buffer to the accumulator. `skip` is the offset of a word to leave out, if
      any. */
  method AddWords(data: array<byte>, start: u32, skip: Option<nat>) returns (sum: u32)
    requires skip.Some? ==> skip.value % 2 == 0
    ensures sum == Wrap(start + Sum(Cleared(data[..], skip)))
  {
    sum := start;
    ghost var bytes := data[..];
    var pairs := data.Length / 2;
    LeftAtEnds(bytes, skip, pairs);
    hide *;
    for k := 0 to pairs
      invariant Wrap(sum + Left(bytes, skip, k)) == Wrap(start + Sum(Cleared(bytes, skip)))
    {
      LeftStep(bytes, skip, sum, k);
      if skip != Some(2 * k) { sum := Wrap(sum + Word(data[2 * k], data[2 * k + 1])); }
    }
    if data.Length == 2 * pairs + 1 { sum := Wrap(sum + Word(data[2 * pairs], 0)); } else { WrapSmall(sum); }
  }

  /** What is left to add from the `k`-th pair of bytes on. */
  ghost function Left(data: Bytes, skip: Option<nat>, k: nat): nat
    requires 2 * k <= |data|
  {
    Sum(Cleared(data, skip)[2 * k..])
  }

  lemma LeftStep(data: Bytes, skip: Option<nat>, sum: nat, k: nat)
    requires (skip.Some? ==> skip.value % 2 == 0) && 2 * k + 1 < |data|
    ensures var next := if skip == Some(2 * k) then sum else Wrap(sum + Word(data[2 * k], data[2 * k + 1]));
            Wrap(next + Left(data, skip, k + 1)) == Wrap(sum + Left(data, skip, k))
  {
    hide *;
    LeftFirst(data, skip, k);
    WrapPlus(sum + Word(data[2 * k], data[2 * k + 1]), Left(data, skip, k + 1));
  }

  lemma LeftFirst(data: Bytes, skip: Option<nat>, k: nat)
    requires (skip.Some? ==> skip.value % 2 == 0) && 2 * k + 1 < |data|
    ensures Left(data, skip, k)
            == (if skip == Some(2 * k) then 0 else Word(data[2 * k], data[2 * k + 1])) + Left(data, skip, k + 1)
  {
    var read := Cleared(data, skip);
    assert Left(data, skip, k) == Sum(read[2 * k..]) && Left(data, skip, k + 1) == Sum(read[2 * k + 2..]);
    hide *;
    SumFrom(read, 2 * k);
    WordRead(data, skip, k);
  }

  lemma WordRead(data: Bytes, skip: Option<nat>, k: nat)
    requires (skip.Some? ==> skip.value % 2 == 0) && 2 * k + 1 < |data|
    ensures var read, i := Cleared(data, skip), 2 * k;
            Word(read[i], read[i + 1]) == if skip == Some(i) then 0 else Word(data[i], data[i + 1])
  {
    if skip.Some? && skip != Some(2 * k) {
      var half := skip.value / 2;
      assert skip.value == 2 * half;
      assert skip.value != 2 * k + 1 && skip.value + 1 != 2 * k;
    }
  }

  lemma LeftAtEnds(data: Bytes, skip: Option<nat>, pairs: nat)
    requires (skip.Some? ==> skip.value % 2 == 0) && 2 * pairs <= |data| <= 2 * pairs + 1
    ensures Left(data, skip, 0) == Sum(Cleared(data, skip))
    ensures Left(data, skip, pairs) == if |data| == 2 * pairs + 1 then Word(data[2 * pairs], 0) else 0
  {
    assert Cleared(data, skip)[0..] == Cleared(data, skip);
  }

  lemma SumFrom(data: Bytes, i: nat)
    requires i + 1 < |data|
    ensures Sum(data[i..]) == Word(data[i], data[i + 1]) + Sum(data[i + 2..])
  {
    assert data[i..][2..] == data[i + 2..];
  }

  /** A message with the word at `skip` read as zero. */
  function Cleared(data: Bytes, skip: Option<nat>): (r: Bytes)
    ensures |r| == |data|
  {
    if skip.Some? && skip.value + 1 < |data| then data[skip.value := 0][skip.value + 1 := 0] else data
  }

  /** Folds an accumulator and inverts it. */
  method FoldAndInvert(sum0: u32) returns (ck: u16)
    ensures ck == 0xFFFF - Fold(sum0)
  {
    var sum := sum0;
    while sum / 0x1_0000 != 0
      invariant Fold(sum) == Fold(sum0)
      decreases sum
    {
      sum := sum % 0x1_0000 + sum / 0x1_0000;
    }
    ck := 0xFFFF - sum;
  }

  method ComputeChecksum(data: array<byte>) returns (ck: u16)
    ensures ck == WrappedChecksum(data[..])
    ensures data.Length <= SAFE_LENGTH ==> ck == Checksum(data[..])
  {
    var sum := AddWords(data, 0, None);
    if data.Length <= SAFE_LENGTH { ShortSumsFit(data[..]); }
    ck := FoldAndInvert(sum);
  }

  /** Overwrites the identifier and clears the checksum; a message too short stays as it was. */
  method SetId(msg: array<byte>, id: u16) returns (ok: bool)
    modifies msg
    ensures ok <==> msg.Length >= HEADER_LEN
    ensures !ok ==> msg[..] == old(msg[..])
    ensures ok ==> msg[..] == WithField(old(msg[..]), 0)[4 := High(id)][5 := Low(id)]
  {
    if msg.Length < HEADER_LEN { return false; }
    msg[4], msg[5] := High(id), Low(id);
    msg[2], msg[3] := 0, 0;
    return true;
  }

  /** Writes the checksum: the message differs in that field alone, and verifies if and only if the
      accumulator lost no carries, as in every message an IP datagram can hold. */
  method SetV4Checksum(msg: array<byte>) returns (ok: bool)
    modifies msg
    ensures ok <==> msg.Length >= HEADER_LEN
    ensures !ok ==> msg[..] == old(msg[..])
    ensures ok ==> exists ck: u16 :: msg[..] == WithField(old(msg[..]), ck)
    ensures ok ==> (Verifies(msg[..]) <==> CarriesCancel(Sum(WithField(old(msg[..]), 0))))
    ensures ok && msg.Length <= SAFE_LENGTH ==> Verifies(msg[..]) && Checksum(msg[..]) == 0
  {
    if msg.Length < HEADER_LEN { return false; }
    ghost var before := msg[..];
    msg[2], msg[3] := 0, 0;
    assert msg[..] == WithField(before, 0);
    var ck := ComputeChecksum(msg);
    msg[2], msg[3] := High(ck), Low(ck);
    assert msg[..] == WithField(before, ck);
    WrappedFieldVerifies([], before);
    assert [] + WithField(before, 0) == WithField(before, 0);
    assert [] + WithField(before, ck) == WithField(before, ck);
    if msg.Length <= SAFE_LENGTH { ShortSumsFit(WithField(before, 0)); }
    return true;
  }

  method AddPseudo(src: array<byte>, dst: array<byte>, len: u32) returns (sum: u32)
    requires src.Length == 16 && dst.Length == 16
    ensures sum == Wrap(Sum(Pseudo(src[..], dst[..], len)))
  {
    ghost var from, to := src[..], dst[..];
    PseudoSum(from, to, len);
    WrapFive(Sum(from), Sum(to), len / 0x1_0000, len % 0x1_0000, IPPROTO_ICMPV6);
    assert Cleared(from, None) == from && Cleared(to, None) == to;
    hide Sum, Pseudo, Cleared, Wrap;
    sum := AddWords(src, 0, None);
    sum := AddWords(dst, sum, None);
    sum := Wrap(sum + len / 0x1_0000);
    sum := Wrap(sum + len % 0x1_0000);
    sum := Wrap(sum + IPPROTO_ICMPV6);
  }

  lemma WrapFive(a: nat, b: nat, c: nat, d: nat, e: nat)
    ensures Wrap(Wrap(Wrap(Wrap(Wrap(a) + b) + c) + d) + e) == Wrap(a + b + c + d + e)
  {
    WrapPlus(a, b);
    WrapPlus(a + b, c);
    WrapPlus(a + b + c, d);
    WrapPlus(a + b + c + d, e);
    hide Wrap;
  }

  method V6Checksum(msg: array<byte>, src: array<byte>, dst: array<byte>) returns (ck: u16)
    requires src.Length == 16 && dst.Length == 16
    ensures ck == WrappedChecksum(Pseudo(src[..], dst[..], Wrap(msg.Length)) + Cleared(msg[..], Some(2)))
  {
    var len: u32 := Wrap(msg.Length);
    assert |Pseudo(src[..], dst[..], len)| % 2 == 0 by { PseudoSum(src[..], dst[..], len); }
    SumAppend(Pseudo(src[..], dst[..], len), Cleared(msg[..], Some(2)));
    hide Sum, Pseudo, Cleared, Fold, Wrap;
    var sum := AddPseudo(src, dst, len);
    var total := AddWords(msg, sum, Some(2));
    WrapPlus(Sum(Pseudo(src[..], dst[..], len)), Sum(Cleared(msg[..], Some(2))));
    ck := FoldAndInvert(total);
  }

  /** Writes the checksum for these addresses; the receiver's sum over pseudo-header and message then
      verifies, on the same condition. */
  method SetV6Checksum(msg: array<byte>, src: array<byte>, dst: array<byte>) returns (ok: bool)
    requires src.Length == 16 && dst.Length == 16
    requires msg != src && msg != dst
    modifies msg
    ensures ok <==> msg.Length >= HEADER_LEN
    ensures !ok ==> msg[..] == old(msg[..])
    ensures ok ==> exists ck: u16 :: msg[..] == WithField(old(msg[..]), ck)
    ensures var pseudo := Pseudo(src[..], dst[..], Wrap(msg.Length));
            ok ==> (Verifies(pseudo + msg[..]) <==> CarriesCancel(Sum(pseudo + WithField(old(msg[..]), 0))))
    ensures ok && msg.Length + 40 <= SAFE_LENGTH ==> Verifies(Pseudo(src[..], dst[..], msg.Length) + msg[..])
  {
    if msg.Length < HEADER_LEN { return false; }
    ghost var before, from, to := msg[..], src[..], dst[..];
    ghost var pseudo := Pseudo(from, to, Wrap(msg.Length));
    msg[2], msg[3] := 0, 0;
    assert msg[..] == WithField(before, 0) == Cleared(msg[..], Some(2));
    assert src[..] == from && dst[..] == to;
    hide Sum, Pseudo, Cleared, Fold, Verifies, WrappedChecksum;
    var ck := V6Checksum(msg, src, dst);
    msg[2], msg[3] := High(ck), Low(ck);
    assert msg[..] == WithField(before, ck);
    assert src[..] == from && dst[..] == to;
    hide WithField;
    V6FieldVerifies(from, to, msg.Length, before);
    return true;
  }

  lemma V6FieldVerifies(src: Bytes, dst: Bytes, len: nat, msg: Bytes)
    requires |src| == 16 && |dst| == 16 && |msg| == len >= 4
    ensures var pseudo := Pseudo(src, dst, Wrap(len));
            var ck := WrappedChecksum(pseudo + WithField(msg, 0));
            && (Verifies(pseudo + WithField(msg, ck)) <==> CarriesCancel(Sum(pseudo + WithField(msg, 0))))
            && (len + 40 <= SAFE_LENGTH ==> Verifies(Pseudo(src, dst, len) + WithField(msg, ck)))
  {
    var pseudo := Pseudo(src, dst, Wrap(len));
    assert |pseudo| == 40;
    if len + 40 <= SAFE_LENGTH { WrapSmall(len); }
    hide Sum, Pseudo, Fold, Verifies, WrappedChecksum, CarriesCancel, Wrap, WithField;
    assert |WithField(msg, 0)| == len;
    WrappedFieldVerifies(pseudo, msg);
    if len + 40 <= SAFE_LENGTH { ShortSumsFit(pseudo + WithField(msg, 0)); }
  }

  /** What a server does to a reply: restore the client's identifier, then the checksum. Only those
      two fields change, and the message verifies. */
  method RestoreReply(msg: array<byte>, id: u16) returns (ok: bool)
    modifies msg
    ensures ok <==> msg.Length >= HEADER_LEN
    ensures ok ==> Word(msg[4], msg[5]) == id
    ensures ok ==> (Verifies(msg[..]) <==> CarriesCancel(Sum(WithField(msg[..], 0))))
    ensures ok && msg.Length <= SAFE_LENGTH ==> Verifies(msg[..])
    ensures forall i :: 0 <= i < msg.Length && i !in {2, 3, 4, 5} ==> msg[i] == old(msg[i])
  {
    ok := SetId(msg, id);
    if ok {
      ghost var mid := msg[..];
      ok := SetV4Checksum(msg);
      assert WithField(msg[..], 0) == WithField(mid, 0);
      assert forall i :: 0 <= i < msg.Length ==> msg[i] == msg[..][i];
    }
  }
}
