/**
 Connection links, `leshiy://key@host?sni=..&sid=..[&quic=..&qsni=..[&qcert=..]]`: the printer, the
 client's parser and the provisioner's second parser.
 */
module Link {
  import opened Basics
  import opened TextCodec

  const SCHEME := "leshiy://"
  const KEY_LEN := 32
  const SID_LEN := 8

  datatype Quic = Quic(addr: string, sni: string, cert: Option<Bytes>)

  datatype Link = Link(key: Bytes, host: string, sni: string, sid: Bytes, quic: Option<Quic>)

  /** The sizes the types of the fields impose. */
  predicate Sized(l: Link) {
    |l.key| == KEY_LEN && |l.sid| == SID_LEN
    && (l.quic.Some? && l.quic.value.cert.Some? ==> |l.quic.value.cert.value| == KEY_LEN)
  }

  // --- splitting -------------------------------------------------------------------------

  function SplitOnce(s: string, c: char): Option<(string, string)> {
    if s == "" then None
    else if s[0] == c then Some(("", s[1..]))
    else
      match SplitOnce(s[1..], c)
      case None => None
      case Some((a, b)) => Some(([s[0]] + a, b))
  }

  function SplitAll(s: string, c: char): (parts: seq<string>)
    ensures |parts| >= 1
    decreases |s|
  {
    match SplitOnce(s, c)
    case None => [s]
    case Some((a, b)) => SplitShortens(s, c); [a] + SplitAll(b, c)
  }

  lemma {:induction false} SplitShortens(s: string, c: char)
    ensures match SplitOnce(s, c)
            case None => c !in s
            case Some((a, b)) => c !in a && s == a + [c] + b
  {
    if s != "" && s[0] != c {
      SplitShortens(s[1..], c);
      assert s == [s[0]] + s[1..];
    } else if s != "" {
      assert s == "" + [c] + s[1..];
    }
  }

  lemma {:induction false} SplitsAt(a: string, c: char, b: string)
    requires c !in a
    ensures SplitOnce(a + [c] + b, c) == Some((a, b))
  {
    var s := a + [c] + b;
    if a == "" {
      assert s[1..] == b;
    } else {
      assert s[1..] == a[1..] + [c] + b;
      SplitsAt(a[1..], c, b);
      assert a == [a[0]] + a[1..];
    }
  }

  lemma {:induction false} SplitsNowhere(s: string, c: char)
    requires c !in s
    ensures SplitOnce(s, c) == None
  {
    if s != "" { SplitsNowhere(s[1..], c); }
  }

  function Joined(parts: seq<string>, c: char): string
    requires |parts| >= 1
  {
    if |parts| == 1 then parts[0] else parts[0] + [c] + Joined(parts[1..], c)
  }

  lemma {:induction false} SplitJoined(parts: seq<string>, c: char)
    requires |parts| >= 1 && forall p <- parts :: c !in p
    ensures SplitAll(Joined(parts, c), c) == parts
  {
    if |parts| == 1 {
      SplitsNowhere(parts[0], c);
    } else {
      SplitsAt(parts[0], c, Joined(parts[1..], c));
      SplitJoined(parts[1..], c);
    }
  }

  lemma {:induction false} SplitPartsLack(s: string, c: char)
    ensures forall p <- SplitAll(s, c) :: c !in p
    decreases |s|
  {
    SplitShortens(s, c);
    if SplitOnce(s, c).Some? { SplitPartsLack(SplitOnce(s, c).value.1, c); }
  }

  // --- the printer -----------------------------------------------------------------------

  function Format(l: Link): string {
    SCHEME + (Encode64(l.key) + "@" + (l.host + "?" + ("sni=" + l.sni + "&" + ("sid=" + EncodeHex(l.sid) + FormatQuic(l.quic)))))
  }

  function FormatQuic(quic: Option<Quic>): string {
    match quic
    case None => ""
    case Some(q) => "&" + ("quic=" + q.addr + "&" + ("qsni=" + q.sni + FormatCert(q.cert)))
  }

  function FormatCert(cert: Option<Bytes>): string {
    match cert
    case None => ""
    case Some(c) => "&" + ("qcert=" + EncodeHex(c))
  }

  /** The query as key-value pairs. */
  function Pairs(l: Link): (pairs: seq<string>)
    ensures |pairs| >= 2
  {
    ["sni=" + l.sni, "sid=" + EncodeHex(l.sid)]
    + match l.quic
      case None => []
      case Some(q) =>
        ["quic=" + q.addr, "qsni=" + q.sni]
        + match q.cert case None => [] case Some(c) => ["qcert=" + EncodeHex(c)]
  }

  // --- the client's parser ---------------------------------------------------------------

  datatype Why =
    | MissingScheme | MissingAt | BadKey | KeyLength | MissingQuery | MissingSni | MissingSid
    | BadSid | SidLength | MissingQuicSni | BadCert | CertLength

  datatype Result<T> = Ok(value: T) | Malformed(why: Why)

  /** The value of the last pair with this key; a pair without '=' is nothing. */
  function Value(pairs: seq<string>, key: string): Option<string> {
    if pairs == [] then None
    else
      match Value(pairs[1..], key)
      case Some(v) => Some(v)
      case None =>
        match SplitOnce(pairs[0], '=')
        case Some((k, v)) => if k == key then Some(v) else None
        case None => None
  }

  function ParseCert(hex: Option<string>): Result<Option<Bytes>> {
    match hex
    case None => Ok(None)
    case Some(h) =>
      match DecodeHex(h)
      case None => Malformed(BadCert)
      case Some(b) => if |b| == KEY_LEN then Ok(Some(b)) else Malformed(CertLength)
  }

  function ParseQuic(pairs: seq<string>): Result<Option<Quic>> {
    match Value(pairs, "quic")
    case None => Ok(None)
    case Some(addr) =>
      match Value(pairs, "qsni")
      case None => Malformed(MissingQuicSni)
      case Some(sni) =>
        match ParseCert(Value(pairs, "qcert"))
        case Malformed(why) => Malformed(why)
        case Ok(cert) => Ok(Some(Quic(addr, sni, cert)))
  }

  function ParseSid(hex: string): Result<Bytes> {
    match DecodeHex(hex)
    case None => Malformed(BadSid)
    case Some(b) => if |b| == SID_LEN then Ok(b) else Malformed(SidLength)
  }

  function ParseQuery(key: Bytes, host: string, pairs: seq<string>): Result<Link> {
    var sni, sid := Value(pairs, "sni"), Value(pairs, "sid");
    if sni.None? then Malformed(MissingSni)
    else if sid.None? then Malformed(MissingSid)
    else
      match ParseSid(sid.value)
      case Malformed(why) => Malformed(why)
      case Ok(shortId) =>
        match ParseQuic(pairs)
        case Malformed(why) => Malformed(why)
        case Ok(quic) => Ok(Link(key, host, sni.value, shortId, quic))
  }

  function Parse(s: string): Result<Link> {
    if !(SCHEME <= s) then Malformed(MissingScheme)
    else
      match SplitOnce(s[|SCHEME|..], '@')
      case None => Malformed(MissingAt)
      case Some((auth, hostq)) =>
        match Decode64(auth)
        case None => Malformed(BadKey)
        case Some(key) =>
          if |key| != KEY_LEN then Malformed(KeyLength)
          else
            match SplitOnce(hostq, '?')
            case None => Malformed(MissingQuery)
            case Some((host, query)) => ParseQuery(key, host, SplitAll(query, '&'))
  }

  // --- what is accepted ------------------------------------------------------------------

  /** The pairs between the ampersands are what was between them. */
  lemma {:induction false} JoinedSplit(s: string, c: char)
    ensures Joined(SplitAll(s, c), c) == s
    decreases |s|
  {
    SplitShortens(s, c);
    if SplitOnce(s, c).Some? {
      var (a, b) := SplitOnce(s, c).value;
      JoinedSplit(b, c);
      assert SplitAll(s, c)[1..] == SplitAll(b, c);
    }
  }

  /** The last `key=value` among the pairs has this value; or, for None, there is none. */
  ghost predicate LastIs(pairs: seq<string>, key: string, value: Option<string>) {
    match value
    case None => forall j :: 0 <= j < |pairs| ==> !(key + "=" <= pairs[j])
    case Some(v) =>
      exists i :: 0 <= i < |pairs| && pairs[i] == key + "=" + v && forall j :: i < j < |pairs| ==> !(key + "=" <= pairs[j])
  }

  lemma PairHasKey(pair: string, key: string)
    requires '=' !in key
    ensures match SplitOnce(pair, '=')
            case None => !(key + "=" <= pair)
            case Some((k, v)) => k == key <==> key + "=" <= pair
    ensures SplitOnce(pair, '=').Some? && SplitOnce(pair, '=').value.0 == key ==>
              pair == key + "=" + SplitOnce(pair, '=').value.1
  {
    SplitShortens(pair, '=');
    if key + "=" <= pair {
      SplitsAt(key, '=', pair[|key| + 1..]);
      assert pair == key + ['='] + pair[|key| + 1..];
    }
  }

  lemma {:induction false} ValueIsLast(pairs: seq<string>, key: string)
    requires '=' !in key
    ensures LastIs(pairs, key, Value(pairs, key))
  {
    if pairs != [] {
      ValueIsLast(pairs[1..], key);
      PairHasKey(pairs[0], key);
      var rest := pairs[1..];
      match Value(rest, key)
      case Some(v) =>
        var i :| 0 <= i < |rest| && rest[i] == key + "=" + v && forall j :: i < j < |rest| ==> !(key + "=" <= rest[j]);
        assert pairs[i + 1] == key + "=" + v;
        forall j | i + 1 < j < |pairs| ensures !(key + "=" <= pairs[j]) { assert pairs[j] == rest[j - 1]; }
      case None =>
        forall j | 1 <= j < |pairs| ensures !(key + "=" <= pairs[j]) { assert pairs[j] == rest[j - 1]; }
    }
  }

  lemma LastIsOnce(pairs: seq<string>, key: string, a: Option<string>, b: Option<string>)
    requires LastIs(pairs, key, a) && LastIs(pairs, key, b)
    ensures a == b
  {
    if a.Some? {
      var i :| 0 <= i < |pairs| && pairs[i] == key + "=" + a.value && forall j :: i < j < |pairs| ==> !(key + "=" <= pairs[j]);
      assert key + "=" <= pairs[i];
      if b.Some? {
        var k :| 0 <= k < |pairs| && pairs[k] == key + "=" + b.value && forall j :: k < j < |pairs| ==> !(key + "=" <= pairs[j]);
        assert key + "=" <= pairs[k];
        assert i == k;
        SameTail(key + "=", a.value, b.value);
      }
    }
  }

  lemma SameTail(p: string, a: string, b: string)
    requires p + a == p + b
    ensures a == b
  {
    assert a == (p + a)[|p|..] && b == (p + b)[|p|..];
  }

  lemma ValueIff(pairs: seq<string>, key: string, value: Option<string>)
    requires '=' !in key
    ensures Value(pairs, key) == value <==> LastIs(pairs, key, value)
  {
    ValueIsLast(pairs, key);
    if LastIs(pairs, key, value) { LastIsOnce(pairs, key, value, Value(pairs, key)); }
    hide LastIs, Value;
  }

  /** The text has the outer shape of a link. */
  predicate Shaped(s: string, auth: string, host: string, query: string) {
    s == "leshiy://" + auth + "@" + host + "?" + query && '@' !in auth && '?' !in host
  }

  /** The fields the text stands for: the key in base64, and among the pairs of the query the last of each
      name; `qsni` is required with `quic`, and without `quic` neither it nor `qcert` is looked at. */
  ghost predicate Means(auth: string, query: string, l: Link) {
    var pairs := SplitAll(query, '&');
    && Decode64(auth) == Some(l.key) && |l.key| == 32 && |l.sid| == 8
    && LastIs(pairs, "sni", Some(l.sni))
    && (exists sid :: LastIs(pairs, "sid", Some(sid)) && DecodeHex(sid) == Some(l.sid))
    && (l.quic.None? ==> LastIs(pairs, "quic", None))
    && (l.quic.Some? ==> QuicMeans(pairs, l.quic.value))
  }

  ghost predicate QuicMeans(pairs: seq<string>, q: Quic) {
    && LastIs(pairs, "quic", Some(q.addr)) && LastIs(pairs, "qsni", Some(q.sni))
    && (q.cert.None? ==> LastIs(pairs, "qcert", None))
    && (q.cert.Some? ==>
          && |q.cert.value| == 32
          && exists hex :: LastIs(pairs, "qcert", Some(hex)) && DecodeHex(hex) == Some(q.cert.value))
  }

  lemma QuicIff(pairs: seq<string>, q: Quic)
    ensures ParseQuic(pairs) == Ok(Some(q)) <==> QuicMeans(pairs, q)
    ensures ParseQuic(pairs) == Ok(None) <==> LastIs(pairs, "quic", None)
  {
    ValueIff(pairs, "quic", Some(q.addr));
    ValueIff(pairs, "quic", None);
    ValueIff(pairs, "qsni", Some(q.sni));
    ValueIff(pairs, "qcert", None);
    forall hex { ValueIff(pairs, "qcert", Some(hex)); }
    hide LastIs, Value, DecodeHex;
    if Value(pairs, "qcert").Some? { assert LastIs(pairs, "qcert", Some(Value(pairs, "qcert").value)); }
  }

  lemma QueryIff(key: Bytes, host: string, pairs: seq<string>, l: Link)
    ensures ParseQuery(key, host, pairs) == Ok(l)
            <==> && key == l.key && host == l.host && |l.sid| == 8 && LastIs(pairs, "sni", Some(l.sni))
                 && (exists sid :: LastIs(pairs, "sid", Some(sid)) && DecodeHex(sid) == Some(l.sid))
                 && (l.quic.None? ==> LastIs(pairs, "quic", None))
                 && (l.quic.Some? ==> QuicMeans(pairs, l.quic.value))
  {
    ValueIff(pairs, "sni", Some(l.sni));
    forall sid { ValueIff(pairs, "sid", Some(sid)); }
    QuicIff(pairs, if l.quic.Some? then l.quic.value else Quic("", "", None));
    hide LastIs, Value, DecodeHex, ParseQuic, QuicMeans;
    if Value(pairs, "sid").Some? { assert LastIs(pairs, "sid", Some(Value(pairs, "sid").value)); }
  }

  lemma ShapedParses(s: string, auth: string, host: string, query: string)
    requires Shaped(s, auth, host, query)
    ensures Parse(s)
            == match Decode64(auth)
               case None => Malformed(BadKey)
               case Some(key) =>
                 if |key| != 32 then Malformed(KeyLength) else ParseQuery(key, host, SplitAll(query, '&'))
  {
    var hostq := host + "?" + query;
    var t := auth + "@" + hostq;
    assert s == "leshiy://" + t;
    assert t == s[|SCHEME|..];
    SplitsAt(auth, '@', hostq);
    SplitsAt(host, '?', query);
    hide ParseQuery, Decode64, SplitOnce, SplitAll;
  }

  lemma OkIsShaped(s: string) returns (auth: string, host: string, query: string)
    requires Parse(s).Ok?
    ensures Shaped(s, auth, host, query)
  {
    hide ParseQuery, Decode64, SplitOnce, SplitAll;
    var t := s[|SCHEME|..];
    SplitShortens(t, '@');
    auth := SplitOnce(t, '@').value.0;
    var hostq := SplitOnce(t, '@').value.1;
    SplitShortens(hostq, '?');
    host, query := SplitOnce(hostq, '?').value.0, SplitOnce(hostq, '?').value.1;
    assert s == "leshiy://" + t;
    hide Parse;
    assert t == auth + "@" + (host + "?" + query);
  }

  /** Exactly which texts the client's parser accepts, and as which link. */
  lemma ParseIff(s: string, l: Link)
    ensures Parse(s) == Ok(l) <==> exists auth, query :: Shaped(s, auth, l.host, query) && Means(auth, query, l)
  {
    if Parse(s) == Ok(l) {
      var auth, host, query := OkIsShaped(s);
      ShapedParses(s, auth, host, query);
      QueryIff(Decode64(auth).value, host, SplitAll(query, '&'), l);
      hide Parse, ParseQuery, LastIs, QuicMeans, Shaped, Decode64, SplitAll;
      assert Shaped(s, auth, l.host, query) && Means(auth, query, l);
    }
    forall auth, query | Shaped(s, auth, l.host, query) && Means(auth, query, l) ensures Parse(s) == Ok(l) {
      ShapedParses(s, auth, l.host, query);
      QueryIff(l.key, l.host, SplitAll(query, '&'), l);
      hide Parse, ParseQuery, LastIs, QuicMeans, Shaped, Decode64, SplitAll;
    }
  }

  // --- printing and parsing --------------------------------------------------------------

  /** What a link must not contain for its printed form to be read back. */
  predicate Clean(l: Link) {
    && '?' !in l.host && '&' !in l.sni
    && (l.quic.Some? ==> '&' !in l.quic.value.addr && '&' !in l.quic.value.sni)
  }

  lemma FormatIsPairs(l: Link)
    ensures Format(l) == SCHEME + (Encode64(l.key) + "@" + (l.host + "?" + Joined(Pairs(l), '&')))
  {
    var sni, sid := "sni=" + l.sni, "sid=" + EncodeHex(l.sid);
    var rest := Pairs(l)[2..];
    assert Pairs(l) == [sni, sid] + rest;
    JoinTwo(sni, sid, rest);
    if l.quic.Some? {
      var q := l.quic.value;
      assert rest == ["quic=" + q.addr, "qsni=" + q.sni] + rest[2..];
      JoinTwo("quic=" + q.addr, "qsni=" + q.sni, rest[2..]);
      if q.cert.Some? { assert rest[2..] == ["qcert=" + EncodeHex(q.cert.value)]; }
    }
    hide EncodeHex, Encode64;
    assert Joined(Pairs(l), '&') == sni + "&" + (sid + FormatQuic(l.quic));
  }

  lemma JoinTwo(a: string, b: string, rest: seq<string>)
    ensures Joined([a, b] + rest, '&') == a + "&" + (if rest == [] then b else b + ("&" + Joined(rest, '&')))
  {
    assert ([a, b] + rest)[1..] == [b] + rest;
    assert ([b] + rest)[1..] == rest;
  }

  lemma PairSplits(k: string, v: string)
    requires '=' !in k
    ensures SplitOnce(k + "=" + v, '=') == Some((k, v))
  {
    SplitsAt(k, '=', v);
  }

  /** What a lookup finds in the printed pairs. */
  function Printed(l: Link, key: string): Option<string> {
    if key == "sni" then Some(l.sni)
    else if key == "sid" then Some(EncodeHex(l.sid))
    else if l.quic.None? then None
    else if key == "quic" then Some(l.quic.value.addr)
    else if key == "qsni" then Some(l.quic.value.sni)
    else if key == "qcert" && l.quic.value.cert.Some? then Some(EncodeHex(l.quic.value.cert.value))
    else None
  }

  lemma ValueStep(k: string, v: string, rest: seq<string>, key: string)
    requires '=' !in k
    ensures Value([k + "=" + v] + rest, key)
            == if Value(rest, key).Some? then Value(rest, key) else if k == key then Some(v) else None
  {
    PairSplits(k, v);
    assert ([k + "=" + v] + rest)[1..] == rest;
  }

  lemma ValueOfPairs(l: Link, key: string)
    ensures Value(Pairs(l), key) == Printed(l, key)
  {
    hide EncodeHex;
    var cert := if l.quic.Some? && l.quic.value.cert.Some? then ["qcert=" + EncodeHex(l.quic.value.cert.value)] else [];
    var rest := [];
    if l.quic.Some? {
      var q := l.quic.value;
      if q.cert.Some? {
        var h := EncodeHex(q.cert.value);
        assert "qcert" + "=" + h == "qcert=" + h;
        ValueStep("qcert", h, [], key);
        assert cert == ["qcert" + "=" + h] + [];
      }
      assert "qsni" + "=" + q.sni == "qsni=" + q.sni && "quic" + "=" + q.addr == "quic=" + q.addr;
      var tail := ["qsni=" + q.sni] + cert;
      ValueStep("qsni", q.sni, cert, key);
      ValueStep("quic", q.addr, tail, key);
      rest := ["quic=" + q.addr] + tail;
    }
    var x := EncodeHex(l.sid);
    assert "sid" + "=" + x == "sid=" + x && "sni" + "=" + l.sni == "sni=" + l.sni;
    ValueStep("sid", x, rest, key);
    ValueStep("sni", l.sni, ["sid=" + x] + rest, key);
    assert Pairs(l) == ["sni=" + l.sni] + (["sid=" + x] + rest);
  }

  lemma ParsesItsPairs(l: Link)
    requires Sized(l)
    ensures ParseQuery(l.key, l.host, Pairs(l)) == Ok(l)
  {
    hide Value, Pairs, DecodeHex, EncodeHex;
    ValueOfPairs(l, "sni");
    ValueOfPairs(l, "sid");
    ValueOfPairs(l, "quic");
    ValueOfPairs(l, "qsni");
    ValueOfPairs(l, "qcert");
    HexRoundTrip(l.sid);
    if l.quic.Some? && l.quic.value.cert.Some? { HexRoundTrip(l.quic.value.cert.value); }
  }

  lemma PairsLackAmpersand(l: Link)
    requires Clean(l)
    ensures forall p <- Pairs(l) :: '&' !in p
  {
    HexIsPlain(l.sid);
    if l.quic.Some? && l.quic.value.cert.Some? { HexIsPlain(l.quic.value.cert.value); }
    hide EncodeHex;
  }

  lemma CleanLinksParse(l: Link)
    requires Sized(l) && Clean(l)
    ensures Parse(Format(l)) == Ok(l)
  {
    hide Decode64, Encode64, Pairs, ParseQuery, Format;
    FormatIsPairs(l);
    var query := Joined(Pairs(l), '&');
    var rest := Encode64(l.key) + "@" + (l.host + "?" + query);
    assert Format(l)[|SCHEME|..] == rest;
    Base64IsPlain(l.key);
    SplitsAt(Encode64(l.key), '@', l.host + "?" + query);
    Base64RoundTrip(l.key);
    SplitsAt(l.host, '?', query);
    PairsLackAmpersand(l);
    SplitJoined(Pairs(l), '&');
    ParsesItsPairs(l);
  }

  lemma {:induction false} ValueComesFromAPair(pairs: seq<string>, key: string, c: char)
    requires forall p <- pairs :: c !in p
    ensures Value(pairs, key).Some? ==> c !in Value(pairs, key).value
  {
    if pairs != [] {
      ValueComesFromAPair(pairs[1..], key, c);
      SplitShortens(pairs[0], '=');
      assert pairs[0] in pairs;
    }
  }

  lemma ParsedLinksAreClean(s: string)
    ensures Parse(s).Ok? ==> Clean(Parse(s).value)
  {
    hide Decode64;
    if Parse(s).Ok? {
      var hostq := SplitOnce(s[|SCHEME|..], '@').value.1;
      var query := SplitOnce(hostq, '?').value.1;
      SplitShortens(hostq, '?');
      SplitPartsLack(query, '&');
      var pairs := SplitAll(query, '&');
      ValueComesFromAPair(pairs, "sni", '&');
      ValueComesFromAPair(pairs, "quic", '&');
      ValueComesFromAPair(pairs, "qsni", '&');
    }
  }

  /** A printed link is read back with every field, exactly when its host has no '?' and none of its
      query values an '&'. */
  lemma RoundTripIffClean(l: Link)
    requires Sized(l)
    ensures Parse(Format(l)) == Ok(l) <==> Clean(l)
  {
    if Clean(l) { CleanLinksParse(l); }
    ParsedLinksAreClean(Format(l));
  }

  /** The parser's loop over the pairs, filling one variable per key. */
  method ReadPairs(query: string)
    returns (sni: Option<string>, sid: Option<string>, quic: Option<string>, qsni: Option<string>, qcert: Option<string>)
    ensures var pairs := SplitAll(query, '&');
            && sni == Value(pairs, "sni") && sid == Value(pairs, "sid") && quic == Value(pairs, "quic")
            && qsni == Value(pairs, "qsni") && qcert == Value(pairs, "qcert")
  {
    var pairs := SplitAll(query, '&');
    sni, sid, quic, qsni, qcert := None, None, None, None, None;
    var i := 0;
    while i < |pairs|
      invariant 0 <= i <= |pairs|
      invariant sni == Value(pairs[..i], "sni") && sid == Value(pairs[..i], "sid")
      invariant quic == Value(pairs[..i], "quic") && qsni == Value(pairs[..i], "qsni") && qcert == Value(pairs[..i], "qcert")
    {
      assert pairs[..i + 1] == pairs[..i] + [pairs[i]];
      forall key ensures Value(pairs[..i + 1], key) == Later(Value(pairs[..i], key), pairs[i], key) {
        LastPairWins(pairs[..i], pairs[i], key);
      }
      match SplitOnce(pairs[i], '=') {
        case Some((k, v)) =>
          if k == "sni" { sni := Some(v); }
          else if k == "sid" { sid := Some(v); }
          else if k == "quic" { quic := Some(v); }
          else if k == "qsni" { qsni := Some(v); }
          else if k == "qcert" { qcert := Some(v); }
        case None =>
      }
      i := i + 1;
    }
    assert pairs[..i] == pairs;
  }

  /** The client's parser as it runs: each step may refuse the link. */
  method ParseUri(s: string) returns (r: Result<Link>)
    ensures r == Parse(s)
  {
    hide Decode64, DecodeHex, SplitAll;
    if !(SCHEME <= s) { return Malformed(MissingScheme); }
    var at := SplitOnce(s[|SCHEME|..], '@');
    if at.None? { return Malformed(MissingAt); }
    var key := Decode64(at.value.0);
    if key.None? { return Malformed(BadKey); }
    if |key.value| != KEY_LEN { return Malformed(KeyLength); }
    var question := SplitOnce(at.value.1, '?');
    if question.None? { return Malformed(MissingQuery); }
    var sni, sid, quicAddr, quicSni, quicCert := ReadPairs(question.value.1);
    if sni.None? { return Malformed(MissingSni); }
    if sid.None? { return Malformed(MissingSid); }
    var sidBytes := DecodeHex(sid.value);
    if sidBytes.None? { return Malformed(BadSid); }
    if |sidBytes.value| != SID_LEN { return Malformed(SidLength); }
    var quic := None;
    if quicAddr.Some? {
      if quicSni.None? { return Malformed(MissingQuicSni); }
      var cert := None;
      if quicCert.Some? {
        cert := DecodeHex(quicCert.value);
        if cert.None? { return Malformed(BadCert); }
        if |cert.value| != KEY_LEN { return Malformed(CertLength); }
      }
      quic := Some(Quic(quicAddr.value, quicSni.value, cert));
    }
    return Ok(Link(key.value, question.value.0, sni.value, sidBytes.value, quic));
  }

  function Later(before: Option<string>, pair: string, key: string): Option<string> {
    match SplitOnce(pair, '=')
    case Some((k, v)) => if k == key then Some(v) else before
    case None => before
  }

  lemma {:induction false} LastPairWins(pairs: seq<string>, pair: string, key: string)
    ensures Value(pairs + [pair], key) == Later(Value(pairs, key), pair, key)
  {
    if pairs == [] {
      assert pairs + [pair] == [pair];
      assert [pair][1..] == [];
    } else {
      assert (pairs + [pair])[1..] == pairs[1..] + [pair];
      LastPairWins(pairs[1..], pair, key);
    }
  }
}
