/** Admission control before authentication: caps on connections in all, and per source. */
module ConnLimit {
  import opened Basics

  datatype Ip = V4(octets: Bytes) | V6(octets: Bytes)

  predicate WellFormed(ip: Ip) { if ip.V4? then |ip.octets| == 4 else |ip.octets| == 16 }

  // --- buckets ---------------------------------------------------------------------------

  /** The source an address counts as: itself, or its IPv6 /64 network. */
  method Bucket(ip: Ip) returns (key: Ip)
    requires WellFormed(ip)
    ensures key == BucketOf(ip)
  {
    if ip.V4? { return ip; }
    var octets := ip.octets;
    for i := 8 to 16
      invariant |octets| == 16
      invariant forall j :: 0 <= j < 16 ==> octets[j] == if 8 <= j < i then 0 else ip.octets[j]
    {
      octets := octets[i := 0];
    }
    assert octets == BucketOf(ip).octets;
    return V6(octets);
  }

  function BucketOf(ip: Ip): Ip
    requires WellFormed(ip)
  {
    if ip.V4? then ip else V6(ip.octets[..8] + seq(8, _ => 0))
  }

  /** Two addresses share a bucket exactly when they are the same IPv4 address or lie in the same
      IPv6 /64; and a bucket is its own bucket. */
  lemma BucketsAreNetworks(a: Ip, b: Ip)
    requires WellFormed(a) && WellFormed(b)
    ensures BucketOf(a) == BucketOf(b) <==> (a == b || (a.V6? && b.V6? && a.octets[..8] == b.octets[..8]))
    ensures WellFormed(BucketOf(a)) && BucketOf(BucketOf(a)) == BucketOf(a)
  {
    if a.V6? { assert BucketOf(a).octets[..8] == a.octets[..8]; }
    if b.V6? { assert BucketOf(b).octets[..8] == b.octets[..8]; }
  }

  // --- counting --------------------------------------------------------------------------

  ghost function SumOf(m: map<Ip, nat>): nat
    decreases |m|
  {
    if m == map[] then 0
    else
      assert m.Keys != {};
      var k :| k in m;
      m[k] + SumOf(m - {k})
  }

  lemma {:induction false} SumWithout(m: map<Ip, nat>, k: Ip)
    requires k in m
    ensures SumOf(m) == m[k] + SumOf(m - {k})
    decreases |m|
  {
    assert m.Keys != {};
    var j :| j in m && SumOf(m) == m[j] + SumOf(m - {j});
    if j != k {
      assert |(m - {j}).Keys| < |m.Keys|;
      assert |(m - {k}).Keys| < |m.Keys|;
      SumWithout(m - {j}, k);
      SumWithout(m - {k}, j);
      assert m - {j} - {k} == m - {k} - {j};
    }
  }

  lemma SumAfter(m: map<Ip, nat>, k: Ip, n: nat)
    ensures SumOf(m[k := n]) == SumOf(m - {k}) + n
    ensures SumOf(m) == SumOf(m - {k}) + if k in m then m[k] else 0
  {
    SumWithout(m[k := n], k);
    assert m[k := n] - {k} == m - {k};
    if k in m { SumWithout(m, k); } else { assert m - {k} == m; }
  }

  // --- the limiter -----------------------------------------------------------------------

  datatype Counts = Counts(total: nat, perIp: map<Ip, nat>)

  function Current(c: Counts, key: Ip): nat { if key in c.perIp then c.perIp[key] else 0 }

  /** The counts are those of the live guards, exactly. */
  ghost predicate Exact(c: Counts, live: multiset<Ip>) {
    && c.total == |live| == SumOf(c.perIp)
    && (forall k :: Current(c, k) == live[k])
    && (forall k :: k in c.perIp ==> c.perIp[k] > 0)
  }

  function SaturatingSub(a: nat, b: nat): nat { if a >= b then a - b else 0 }

  class ConnLimiter {
    const maxTotal: nat
    const maxPerIp: nat
    var total: nat
    var perIp: map<Ip, nat>
    ghost var live: multiset<Ip>      // the buckets of the guards not yet dropped

    function View(): Counts
      reads this
    {
      Counts(total, perIp)
    }

    /** Over any sequence of acquires and drops: counts exact, both caps held. */
    ghost predicate Valid()
      reads this
    {
      && Exact(View(), live)
      && total <= maxTotal
      && (forall k :: live[k] <= maxPerIp)
    }

    constructor (maxTotal: nat, maxPerIp: nat)
      ensures Valid() && live == multiset{} && this.maxTotal == maxTotal && this.maxPerIp == maxPerIp
    {
      this.maxTotal, this.maxPerIp := maxTotal, maxPerIp;
      total, perIp := 0, map[];
      live := multiset{};
    }

    /** Admits exactly when neither cap is reached, and then counts the new guard. */
    method TryAcquire(ip: Ip) returns (guard: Option<Ip>)
      requires Valid() && WellFormed(ip)
      modifies this
      ensures Valid()
      ensures guard.None? <==> |old(live)| >= maxTotal || old(live)[BucketOf(ip)] >= maxPerIp
      ensures guard.None? ==> live == old(live) && View() == old(View())
      ensures guard.Some? ==> guard.value == BucketOf(ip) && live == old(live) + multiset{BucketOf(ip)}
    {
      var key := Bucket(ip);
      if total >= maxTotal { return None; }
      var cur := if key in perIp then perIp[key] else 0;
      assert cur == Current(View(), key) == live[key];
      if cur >= maxPerIp { return None; }
      SumAfter(perIp, key, cur + 1);
      total := total + 1;
      perIp := perIp[key := cur + 1];
      live := live + multiset{key};
      return Some(key);
    }

    /** Drops a guard: neither count can go below zero, and an empty bucket is forgotten. */
    method Drop(guard: Ip)
      requires Valid() && guard in live
      modifies this
      ensures Valid() && live == old(live) - multiset{guard}
      ensures total == old(total) - 1
      ensures guard in perIp <==> old(live)[guard] > 1
    {
      assert Current(View(), guard) == live[guard] > 0;
      SumAfter(perIp, guard, perIp[guard] - 1);
      total := SaturatingSub(total, 1);
      if guard in perIp {
        var c := perIp[guard] - 1;
        perIp := perIp[guard := c];
        if c == 0 {
          assert perIp - {guard} == old(perIp) - {guard};
          perIp := perIp - {guard};
        }
      }
      live := live - multiset{guard};
    }
  }
}
