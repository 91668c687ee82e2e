/**
 The provisioner's own reading of a printed link: it looks for `sid=`, `quic=`, `qsni=` and `qcert=`
 anywhere in the text and takes what follows up to the next separator. It agrees with the client's
 parser exactly when no earlier field gets in the way; the condition is on the fields alone.
 */
module LinkFields {
  import opened Basics
  import opened TextCodec
  import opened Link

  // --- the second parser -----------------------------------------------------------------

  function IndexOf(s: string, pat: string): Option<nat> {
    if pat <= s then Some(0)
    else if s == "" then None
    else
      match IndexOf(s[1..], pat)
      case None => None
      case Some(i) => Some(i + 1)
  }

  /** The text between the first two places the pattern occurs, or after the only one. */
  function SecondPiece(s: string, pat: string): Option<string>
    requires pat != ""
  {
    match IndexOf(s, pat)
    case None => None
    case Some(i) =>
      IndexInside(s, pat);
      var rest := s[i + |pat|..];
      match IndexOf(rest, pat)
      case None => Some(rest)
      case Some(j) => IndexInside(rest, pat); Some(rest[..j])
  }

  lemma {:induction false} IndexInside(s: string, pat: string)
    ensures IndexOf(s, pat).Some? ==> IndexOf(s, pat).value + |pat| <= |s|
  {
    if !(pat <= s) && s != "" { IndexInside(s[1..], pat); }
  }

  predicate Separator(c: char) { c == '&' || c == ' ' || c == '\n' }

  function UpToSeparator(s: string): string {
    if s == "" || Separator(s[0]) then "" else [s[0]] + UpToSeparator(s[1..])
  }

  /** What follows `name=`, if it is there and not empty. */
  function Lookup(uri: string, name: string): Option<string> {
    match SecondPiece(uri, name + "=")
    case None => None
    case Some(s) => if UpToSeparator(s) == "" then None else Some(UpToSeparator(s))
  }

  /** The short id and the key, both as text. */
  function ParseUriFields(uri: string): Option<(string, string)> {
    if !(SCHEME <= uri) then None
    else
      match SplitOnce(uri[|SCHEME|..], '@')
      case None => None
      case Some((key, _)) =>
        if key == "" then None
        else
          match Lookup(uri, "sid")
          case None => None
          case Some(sid) => Some((sid, key))
  }

  datatype QuicInfo = QuicInfo(addr: string, sni: string, cert: Option<string>)

  function ParseQuicFields(uri: string): Option<QuicInfo> {
    match Lookup(uri, "quic")
    case None => None
    case Some(addr) =>
      match Lookup(uri, "qsni")
      case None => None
      case Some(sni) => Some(QuicInfo(addr, sni, Lookup(uri, "qcert")))
  }

  // --- when it reads what was printed ----------------------------------------------------

  predicate IsName(name: string) { name == "sid" || name == "quic" || name == "qsni" || name == "qcert" }

  /** `name=` occurs in the text. */
  predicate Holds(s: string, name: string) { IndexOf(s, name + "=").Some? }

  /** What follows the first `name=`. */
  function After(s: string, name: string): string
    requires Holds(s, name)
  {
    IndexInside(s, name + "=");
    s[IndexOf(s, name + "=").value + |name| + 1..]
  }

  /** A value ends here: at the end of its field, at a separator, or at another `name=`. */
  predicate Stops(s: string, name: string) { s == "" || Separator(s[0]) || name + "=" <= s }

  predicate Opens(s: string, v: string, name: string) { v <= s && Stops(s[|v|..], name) }

  /** The value can be read back at all. */
  predicate Legible(v: string, name: string) {
    v != "" && (forall c <- v :: !Separator(c)) && !Holds(v, name)
  }

  /** No earlier field holds `name=`, or the first that does happens to repeat the value there. */
  predicate Unshadowed(fields: seq<string>, name: string, v: string) {
    fields == []
    || (if Holds(fields[0], name) then Opens(After(fields[0], name), v, name) else Unshadowed(fields[1..], name, v))
  }

  /** The host and the SNI, as they stand next to each other. */
  function Head(l: Link): string { l.host + "?" + ("sni=" + l.sni) }

  /** The free-form fields printed before the value of this name. */
  function Earlier(l: Link, name: string): seq<string> {
    if l.quic.None? || name == "sid" || name == "quic" then [Head(l)]
    else if name == "qsni" then [Head(l), l.quic.value.addr]
    else [Head(l), l.quic.value.addr, l.quic.value.sni]
  }

  /** The condition, per name, for the second parser to read this part of the link. */
  predicate Reads(l: Link, name: string) {
    match Printed(l, name)
    case Some(v) => Legible(v, name) && Unshadowed(Earlier(l, name), name, v)
    case None => Unshadowed(Earlier(l, name), name, "")
  }

  // --- values ----------------------------------------------------------------------------

  function Token(s: string, name: string): string {
    if Stops(s, name) then "" else [s[0]] + Token(s[1..], name)
  }

  lemma {:induction false} TokenIsPiece(s: string, name: string)
    ensures match IndexOf(s, name + "=")
            case None => UpToSeparator(s) == Token(s, name)
            case Some(j) => j <= |s| && UpToSeparator(s[..j]) == Token(s, name)
  {
    var pat := name + "=";
    IndexInside(s, pat);
    if s != "" && !(pat <= s) {
      TokenIsPiece(s[1..], name);
      if IndexOf(s[1..], pat).Some? {
        var j := IndexOf(s[1..], pat).value;
        assert s[..j + 1][1..] == s[1..][..j];
      }
    }
  }

  /** What a lookup makes of the text, without cutting it twice. */
  function Found(s: string, name: string): Option<string> {
    if Holds(s, name) then Some(Token(After(s, name), name)) else None
  }

  lemma LookupIsFound(uri: string, name: string)
    ensures Lookup(uri, name) == if Found(uri, name) == Some("") then None else Found(uri, name)
  {
    if Holds(uri, name) { TokenIsPiece(After(uri, name), name); }
    hide Token, UpToSeparator;
  }

  lemma {:induction false} TokenIsLegible(s: string, name: string)
    requires '=' !in name && (forall c <- name :: !Separator(c))
    ensures (forall c <- Token(s, name) :: !Separator(c)) && !Holds(Token(s, name), name)
    ensures Opens(s, Token(s, name), name)
  {
    if Stops(s, name) {
      assert s[0..] == s;
    } else {
      var t := Token(s[1..], name);
      TokenIsLegible(s[1..], name);
      assert s == [s[0]] + s[1..];
      assert Token(s, name)[1..] == t;
      assert s[|t| + 1..] == s[1..][|t|..];
      assert Token(s, name) <= s;
    }
  }

  /** Two values that open the same text are the same. */
  lemma {:induction false} OpensOnce(s: string, v: string, name: string)
    requires '=' !in name && (forall c <- name :: !Separator(c))
    requires Opens(s, v, name) && (forall c <- v :: !Separator(c)) && !Holds(v, name)
    ensures Token(s, name) == v
  {
    if v == "" {
      assert s[0..] == s;
    } else {
      assert s[|v|..] == s[1..][|v[1..]|..];
      OpensOnce(s[1..], v[1..], name);
      assert v == [v[0]] + v[1..];
      if name + "=" <= s { NoPatternAcross(s, v, name); }
    }
  }

  /** A pattern does not straddle the end of a value: its only '=' is its last character. */
  lemma NoPatternAcross(s: string, v: string, name: string)
    requires '=' !in name && (forall c <- name :: !Separator(c))
    requires v != "" && Opens(s, v, name) && !Holds(v, name)
    ensures !(name + "=" <= s)
  {
    var pat, rest := name + "=", s[|v|..];
    assert pat[|name|] == '=';
    assert forall k :: 0 <= k < |rest| ==> rest[k] == s[|v| + k];
    if |pat| <= |v| {
      assert pat <= s ==> pat <= v;
    } else if rest != "" && Separator(rest[0]) {
      assert pat[|v|] != s[|v|];
    } else if pat <= rest {
      var k := |name| - |v|;
      assert s[|name|] == rest[k] == pat[k] == name[k];
    }
  }

  lemma TokenIs(s: string, v: string, name: string)
    requires '=' !in name && (forall c <- name :: !Separator(c))
    requires (forall c <- v :: !Separator(c)) && !Holds(v, name)
    ensures Token(s, name) == v <==> Opens(s, v, name)
  {
    TokenIsLegible(s, name);
    if Opens(s, v, name) { OpensOnce(s, v, name); }
  }

  // --- places ----------------------------------------------------------------------------

  /** A character that is not in the pattern keeps its two sides apart. */
  lemma {:induction false} IndexPast(a: string, c: char, b: string, pat: string)
    requires c !in pat && pat != ""
    ensures IndexOf(a + [c] + b, pat)
            == if IndexOf(a, pat).Some? then IndexOf(a, pat)
               else if IndexOf(b, pat).Some? then Some(|a| + 1 + IndexOf(b, pat).value)
               else None
  {
    var s := a + [c] + b;
    assert s[|a|] == c;
    if |pat| > |a| { assert pat[|a|] != s[|a|]; }
    assert pat <= s <==> pat <= a;
    if a == "" {
      assert s[1..] == b;
    } else if !(pat <= s) {
      assert s[1..] == a[1..] + [c] + b;
      IndexPast(a[1..], c, b, pat);
    }
  }

  lemma {:induction false} TokenPast(a: string, c: char, b: string, name: string)
    requires Separator(c) && c !in name
    ensures Token(a + [c] + b, name) == Token(a, name)
  {
    var s, pat := a + [c] + b, name + "=";
    assert s[|a|] == c;
    if |pat| > |a| { assert pat[|a|] != s[|a|]; }
    assert pat <= s <==> pat <= a;
    if !Stops(a, name) {
      assert s[1..] == a[1..] + [c] + b;
      TokenPast(a[1..], c, b, name);
    }
  }

  /** A separator: what is found on its left is all there on the left. */
  lemma FoundPast(a: string, c: char, b: string, name: string)
    requires Separator(c) && c !in name
    ensures Found(a + [c] + b, name) == if Found(a, name).Some? then Found(a, name) else Found(b, name)
  {
    var s, pat := a + [c] + b, name + "=";
    IndexPast(a, c, b, pat);
    IndexInside(a, pat);
    IndexInside(b, pat);
    if Holds(a, name) {
      assert After(s, name) == After(a, name) + [c] + b;
      TokenPast(After(a, name), c, b, name);
    } else if Holds(b, name) {
      assert After(s, name) == After(b, name);
    }
    hide Token, IndexOf;
  }

  function FirstFound(parts: seq<string>, name: string): Option<string> {
    if parts == [] then None
    else if Found(parts[0], name).Some? then Found(parts[0], name)
    else FirstFound(parts[1..], name)
  }

  lemma {:induction false} FoundInParts(parts: seq<string>, name: string)
    requires |parts| >= 1 && '&' !in name
    ensures Found(Joined(parts, '&'), name) == FirstFound(parts, name)
  {
    hide Found;
    if |parts| == 1 {
      assert parts[1..] == [];
    } else {
      FoundPast(parts[0], '&', Joined(parts[1..], '&'), name);
      FoundInParts(parts[1..], name);
    }
  }

  lemma {:induction false} NoEqualsNoPlace(s: string, name: string)
    requires '=' !in s
    ensures !Holds(s, name)
  {
    var pat := name + "=";
    assert pat[|name|] == '=';
    if s != "" { NoEqualsNoPlace(s[1..], name); }
  }

  predicate EndsWith(s: string, t: string) { |t| <= |s| && s[|s| - |t|..] == t }

  /** In a text whose first '=' follows `key`, the pattern is there if `key` ends with the name, and
      otherwise where it is in the rest. */
  lemma {:induction false} IndexAcross(key: string, rest: string, name: string)
    requires '=' !in key && '=' !in name && name != ""
    ensures IndexOf(key + ("=" + rest), name + "=")
            == if EndsWith(key, name) then Some(|key| - |name|)
               else if IndexOf(rest, name + "=").Some? then Some(|key| + 1 + IndexOf(rest, name + "=").value)
               else None
  {
    var s, pat := key + ("=" + rest), name + "=";
    assert s[|key|] == '=' && pat[|name|] == '=';
    if key == "" {
      assert s[1..] == rest;
      assert pat[0] == name[0] && s[0] == '=';
    } else {
      assert s[1..] == key[1..] + ("=" + rest);
      if pat <= s {
        assert key == name by { PatternAtFront(key, rest, name); }
      } else {
        assert pat + rest == (name + "=") + rest;
        IndexAcross(key[1..], rest, name);
        EndsInTail(key, name);
      }
    }
  }

  lemma PatternAtFront(key: string, rest: string, name: string)
    requires '=' !in key && '=' !in name && name + "=" <= key + ("=" + rest)
    ensures key == name
  {
    var s, pat := key + ("=" + rest), name + "=";
    assert s[|name|] == pat[|name|] == '=';
    assert s[|key|] == '=';
    assert forall i :: 0 <= i < |name| ==> name[i] == pat[i] == s[i];
    assert forall i :: 0 <= i < |key| ==> key[i] == s[i];
  }

  lemma EndsInTail(key: string, name: string)
    requires key != "" && key != name
    ensures EndsWith(key[1..], name) <==> EndsWith(key, name)
  {
    if |name| < |key| {
      assert key[1..][|key[1..]| - |name|..] == key[|key| - |name|..];
    } else if |name| == |key| {
      assert key[0..] == key;
    }
  }

  /** A pair of the query: its own name is at the front, any other only inside its value. */
  lemma FoundInPair(key: string, v: string, name: string)
    requires IsName(name) && (IsName(key) || key == "sni")
    ensures Found(key + "=" + v, name) == if key == name then Some(Token(v, name)) else Found(v, name)
  {
    var s, pat := key + "=" + v, name + "=";
    assert s == key + ("=" + v);
    IndexAcross(key, v, name);
    KeysApart(key, name);
    IndexInside(v, pat);
    if key == name {
      assert After(s, name) == v;
    } else if Holds(v, name) {
      assert After(s, name) == After(v, name);
    }
    hide Token, IndexOf;
  }

  lemma KeysApart(key: string, name: string)
    requires IsName(name) && (IsName(key) || key == "sni")
    ensures EndsWith(key, name) <==> key == name
    ensures '=' !in key && name != "" && forall c <- name :: !Separator(c)
    ensures '=' !in name && '&' !in name && '@' !in name && '?' !in name
  {
    if EndsWith(key, name) {
      assert key[|key| - |name|..][0] == key[|key| - |name|];
      assert key[|key| - |name|..][|name| - 1] == key[|key| - 1];
    }
  }

  // --- the printed link ------------------------------------------------------------------

  /** The link from its host on, cut at the ampersands it was printed with. */
  function Parts(l: Link): (parts: seq<string>)
    ensures |parts| >= 2
  {
    [Head(l)] + Pairs(l)[1..]
  }

  lemma FormatIsParts(l: Link)
    ensures Format(l) == SCHEME + Encode64(l.key) + "@" + Joined(Parts(l), '&')
  {
    hide Encode64, EncodeHex, Format;
    FormatIsPairs(l);
    var pairs := Pairs(l);
    assert pairs[0] == "sni=" + l.sni;
    assert Parts(l)[1..] == pairs[1..] && |pairs| >= 2;
    hide Pairs;
    var tail := Joined(pairs[1..], '&');
    assert Joined(pairs, '&') == pairs[0] + "&" + tail;
    assert Joined(Parts(l), '&') == Head(l) + "&" + tail;
    Regroup(SCHEME, Encode64(l.key), "@", l.host, "?", pairs[0], "&", tail);
  }

  /** The same text, bracketed at other places. */
  lemma Regroup(scheme: string, key: string, at: string, host: string, q: string, p: string, a: string, t: string)
    ensures scheme + (key + at + (host + q + (p + a + t))) == scheme + key + at + (host + q + p + a + t)
  {
  }

  lemma FoundFromHost(l: Link, name: string)
    requires IsName(name)
    ensures Found(Format(l), name) == FirstFound(Parts(l), name)
  {
    FormatIsParts(l);
    Base64IsPlain(l.key);
    KeysApart("sni", name);
    FoundInParts(Parts(l), name);
    hide Format, Encode64, Parts, Found, Joined, IsName;
    FoundBehindKey(SCHEME + Encode64(l.key), Joined(Parts(l), '&'), name);
  }

  lemma FoundBehindKey(front: string, rest: string, name: string)
    requires '=' !in front && '@' !in name
    ensures Found(front + "@" + rest, name) == Found(rest, name)
  {
    NoEqualsNoPlace(front, name);
    IndexPast(front, '@', rest, name + "=");
    IndexInside(rest, name + "=");
    hide Token, IndexOf;
    if Holds(rest, name) { assert After(front + "@" + rest, name) == After(rest, name); }
  }

  /** The values that may hide a name, and then the name's own value. */
  function Values(l: Link, name: string): Option<string> {
    if Found(Head(l), name).Some? then Found(Head(l), name)
    else if name == "sid" then Some(Token(EncodeHex(l.sid), name))
    else if l.quic.None? then None
    else if name == "quic" then Some(Token(l.quic.value.addr, name))
    else if Found(l.quic.value.addr, name).Some? then Found(l.quic.value.addr, name)
    else if name == "qsni" then Some(Token(l.quic.value.sni, name))
    else if Found(l.quic.value.sni, name).Some? then Found(l.quic.value.sni, name)
    else if l.quic.value.cert.Some? then Some(Token(EncodeHex(l.quic.value.cert.value), name))
    else None
  }

  lemma HexHidesNothing(b: Bytes, name: string)
    ensures Found(EncodeHex(b), name) == None
  {
    HexIsPlain(b);
    NoEqualsNoPlace(EncodeHex(b), name);
  }

  lemma FoundPairByPair(l: Link, name: string)
    requires IsName(name)
    ensures FirstFound(Parts(l), name) == Values(l, name)
  {
    var h := EncodeHex(l.sid);
    var quic := if l.quic.None? then [] else QuicPairs(l.quic.value);
    FoundInPair("sid", h, name);
    HexHidesNothing(l.sid, name);
    assert "sid" + "=" + h == "sid=" + h;
    if l.quic.Some? { FoundInQuic(l.quic.value, name); }
    assert Parts(l) == [Head(l)] + (["sid=" + h] + quic) by { hide EncodeHex; }
    hide Found, Token, EncodeHex, Parts, QuicPairs, Head;
    OneMore(Head(l), ["sid=" + h] + quic, name);
    OneMore("sid=" + h, quic, name);
  }

  function QuicPairs(q: Quic): seq<string> {
    ["quic=" + q.addr, "qsni=" + q.sni] + CertPairs(q.cert)
  }

  lemma OneMore(part: string, parts: seq<string>, name: string)
    ensures FirstFound([part] + parts, name) == if Found(part, name).Some? then Found(part, name) else FirstFound(parts, name)
  {
    assert ([part] + parts)[1..] == parts;
  }

  lemma FoundInQuic(q: Quic, name: string)
    requires IsName(name)
    ensures FirstFound(QuicPairs(q), name)
            == if name == "quic" then Some(Token(q.addr, name))
               else if Found(q.addr, name).Some? then Found(q.addr, name)
               else if name == "qsni" then Some(Token(q.sni, name))
               else if Found(q.sni, name).Some? then Found(q.sni, name)
               else FoundCert(q.cert, name)
  {
    FoundInPair("quic", q.addr, name);
    FoundInPair("qsni", q.sni, name);
    assert "quic" + "=" + q.addr == "quic=" + q.addr && "qsni" + "=" + q.sni == "qsni=" + q.sni;
    FoundInCert(q.cert, name);
    hide Found, FoundCert, CertPairs, FirstFound, IsName, Token;
    assert QuicPairs(q) == ["quic=" + q.addr] + (["qsni=" + q.sni] + CertPairs(q.cert));
    OneMore("quic=" + q.addr, ["qsni=" + q.sni] + CertPairs(q.cert), name);
    OneMore("qsni=" + q.sni, CertPairs(q.cert), name);
  }

  function CertPairs(cert: Option<Bytes>): seq<string> {
    match cert case None => [] case Some(c) => ["qcert=" + EncodeHex(c)]
  }

  function FoundCert(cert: Option<Bytes>, name: string): Option<string> {
    if cert.Some? && name == "qcert" then Some(Token(EncodeHex(cert.value), name)) else None
  }

  lemma FoundInCert(cert: Option<Bytes>, name: string)
    requires IsName(name)
    ensures FirstFound(CertPairs(cert), name) == FoundCert(cert, name)
  {
    if cert.Some? {
      var h := EncodeHex(cert.value);
      FoundInPair("qcert", h, name);
      HexHidesNothing(cert.value, name);
      assert "qcert" + "=" + h == "qcert=" + h;
      hide Found, Token, EncodeHex;
      assert CertPairs(cert) == ["qcert=" + h] + [];
      OneMore("qcert=" + h, [], name);
    }
  }

  // --- the exact condition ---------------------------------------------------------------

  /** A lookup that meets these fields first, and then perhaps the value, reads `v` (where "" stands
      for nothing) exactly when the first field that holds the name repeats it. */
  function Seen(fields: seq<string>, name: string, own: Option<string>): Option<string> {
    if fields == [] then own
    else if Found(fields[0], name).Some? then Found(fields[0], name)
    else Seen(fields[1..], name, own)
  }

  lemma {:induction false} SeenIff(fields: seq<string>, name: string, own: Option<string>, v: string)
    requires IsName(name) && (forall c <- v :: !Separator(c)) && !Holds(v, name)
    requires own == Some(v) || (own == None && v == "")
    ensures (Seen(fields, name, own) == Some(v) || (v == "" && Seen(fields, name, own) == None))
            <==> Unshadowed(fields, name, v)
  {
    KeysApart("sni", name);
    hide Token, IsName;
    if fields != [] {
      if Holds(fields[0], name) {
        TokenIs(After(fields[0], name), v, name);
      } else {
        SeenIff(fields[1..], name, own, v);
      }
    }
  }

  lemma ValuesAreSeen(l: Link, name: string)
    requires IsName(name)
    ensures Values(l, name)
            == Seen(Earlier(l, name), name, match Printed(l, name) case None => None case Some(v) => Some(Token(v, name)))
  {
    hide Found, Token, Head, EncodeHex;
    SeenUnfolds(name, Head(l), if l.quic.Some? then l.quic.value.addr else "", if l.quic.Some? then l.quic.value.sni else "",
                match Printed(l, name) case None => None case Some(v) => Some(Token(v, name)));
    hide Seen;
  }

  lemma SeenUnfolds(name: string, a: string, b: string, c: string, own: Option<string>)
    ensures Seen([a], name, own) == if Found(a, name).Some? then Found(a, name) else own
    ensures Seen([a, b], name, own)
            == if Found(a, name).Some? then Found(a, name) else if Found(b, name).Some? then Found(b, name) else own
    ensures Seen([a, b, c], name, own)
            == if Found(a, name).Some? then Found(a, name) else if Found(b, name).Some? then Found(b, name)
               else if Found(c, name).Some? then Found(c, name) else own
  {
    hide Found;
    assert [a, b][1..] == [b] && [b, c][1..] == [c] && [a, b, c][1..] == [b, c];
    SeenOne(name, a, own);
    SeenOne(name, b, own);
    SeenOne(name, c, own);
    assert Seen([b, c], name, own) == if Found(b, name).Some? then Found(b, name) else Seen([c], name, own);
  }

  lemma SeenOne(name: string, a: string, own: Option<string>)
    ensures Seen([a], name, own) == if Found(a, name).Some? then Found(a, name) else own
  {
    hide Found;
    assert [a][1..] == [];
  }

  /** Whatever it reads is legible. */
  lemma LookupIsLegible(uri: string, name: string)
    requires IsName(name)
    ensures Lookup(uri, name).Some? ==> Legible(Lookup(uri, name).value, name)
  {
    LookupIsFound(uri, name);
    KeysApart("sni", name);
    if Holds(uri, name) { TokenIsLegible(After(uri, name), name); }
    hide Token, Lookup;
  }

  /** The exact condition. For every link and each of the four names, the second parser reads what
      was printed, or nothing if nothing was, if and only if the value is legible and no earlier
      field gets in its way. */
  lemma SecondLookupIff(l: Link, name: string)
    requires IsName(name)
    ensures Lookup(Format(l), name) == Printed(l, name) <==> Reads(l, name)
  {
    var printed := Printed(l, name);
    var v := if printed.Some? then printed.value else "";
    LookupIsFound(Format(l), name);
    FoundFromHost(l, name);
    FoundPairByPair(l, name);
    ValuesAreSeen(l, name);
    LookupIsLegible(Format(l), name);
    KeysApart("sni", name);
    hide Format, Printed, Lookup, Found, FirstFound, Parts, Values, Seen, Unshadowed, Earlier, IsName, Holds, Token;
    if printed.None? {
      EmptyHoldsNothing(name);
      SeenIff(Earlier(l, name), name, None, "");
    } else if Legible(v, name) {
      LegibleIsItsToken(v, name);
      SeenIff(Earlier(l, name), name, Some(v), v);
    }
  }

  lemma EmptyHoldsNothing(name: string)
    ensures !Holds("", name)
  {
  }

  lemma LegibleIsItsToken(v: string, name: string)
    requires '=' !in name && (forall c <- name :: !Separator(c)) && Legible(v, name)
    ensures Token(v, name) == v
  {
    assert v[|v|..] == "";
    OpensOnce(v, v, name);
  }

  // --- the two parsers -------------------------------------------------------------------

  /** The second parser returns the short id and the key as they were encoded exactly when `sid=` is
      not in the host or the SNI, or is followed there by the short id itself. */
  lemma UriFieldsIff(l: Link)
    requires Sized(l)
    ensures ParseUriFields(Format(l)) == Some((EncodeHex(l.sid), Encode64(l.key)))
            <==> Unshadowed([Head(l)], "sid", EncodeHex(l.sid))
  {
    SecondLookupIff(l, "sid");
    HexIsLegible(l.sid, "sid");
    FormatIsPairs(l);
    Base64IsPlain(l.key);
    Base64RoundTrip(l.key);
    hide Encode64, EncodeHex, Format, Lookup, Unshadowed, Head, Pairs;
    var rest := l.host + "?" + Joined(Pairs(l), '&');
    assert Format(l)[|SCHEME|..] == Encode64(l.key) + "@" + rest;
    SplitsAt(Encode64(l.key), '@', rest);
  }

  lemma HexIsLegible(b: Bytes, name: string)
    requires b != []
    ensures Legible(EncodeHex(b), name)
  {
    HexRoundTrip(b);
    HexIsPlain(b);
    NoEqualsNoPlace(EncodeHex(b), name);
  }

  function ExpectedQuic(l: Link): Option<QuicInfo> {
    match l.quic
    case None => None
    case Some(q) => Some(QuicInfo(q.addr, q.sni, match q.cert case None => None case Some(c) => Some(EncodeHex(c))))
  }

  /** And the QUIC endpoint exactly when each of its parts is read; none is returned where none was
      printed exactly when one of the two it needs is not found. */
  lemma QuicFieldsIff(l: Link)
    ensures ParseQuicFields(Format(l)) == ExpectedQuic(l)
            <==> if l.quic.Some? then Reads(l, "quic") && Reads(l, "qsni") && Reads(l, "qcert")
                 else Reads(l, "quic") || Reads(l, "qsni")
  {
    SecondLookupIff(l, "quic");
    SecondLookupIff(l, "qsni");
    SecondLookupIff(l, "qcert");
    hide EncodeHex, Format, Lookup, Reads;
  }

  /** The two parsers agree on every part of a link the client's parser reads back, if and only if
      the fields meet the condition. */
  lemma ParsersAgreeIff(l: Link)
    requires Sized(l) && Clean(l)
    ensures Parse(Format(l)) == Ok(l)
    ensures && ParseUriFields(Format(l)) == Some((EncodeHex(l.sid), Encode64(l.key)))
            && ParseQuicFields(Format(l)) == ExpectedQuic(l)
            <==> && Reads(l, "sid")
                 && if l.quic.Some? then Reads(l, "quic") && Reads(l, "qsni") && Reads(l, "qcert")
                    else Reads(l, "quic") || Reads(l, "qsni")
  {
    CleanLinksParse(l);
    UriFieldsIff(l);
    HexIsLegible(l.sid, "sid");
    QuicFieldsIff(l);
    hide Parse, Format, ParseUriFields, ParseQuicFields, ExpectedQuic, Encode64, EncodeHex, Legible, Unshadowed;
  }

  /** A name is in the text of host and SNI exactly when it is in one of them. */
  lemma HeadHolds(l: Link, name: string)
    requires IsName(name)
    ensures Holds(Head(l), name) <==> Holds(l.host, name) || Holds(l.sni, name)
  {
    KeysApart("sni", name);
    var pair := "sni=" + l.sni;
    IndexPast(l.host, '?', pair, name + "=");
    assert pair == "sni" + ("=" + l.sni);
    IndexAcross("sni", l.sni, name);
    hide IndexOf;
  }

  predicate Bare(s: string) { forall c <- s :: c != '=' && !Separator(c) }

  /** No '=' anywhere; no separator in the QUIC endpoint, if there is one, and nothing empty there. */
  predicate Simple(l: Link) {
    && Sized(l) && '=' !in l.host && '=' !in l.sni
    && (l.quic.Some? ==>
          && l.quic.value.addr != "" && Bare(l.quic.value.addr)
          && l.quic.value.sni != "" && Bare(l.quic.value.sni))
  }

  lemma {:induction false} NothingInTheWay(fields: seq<string>, name: string, v: string)
    requires forall f <- fields :: !Holds(f, name)
    ensures Unshadowed(fields, name, v)
  {
    if fields != [] { NothingInTheWay(fields[1..], name, v); }
  }

  lemma SimpleReads(l: Link, name: string)
    requires Simple(l) && IsName(name)
    ensures Reads(l, name)
  {
    HeadHolds(l, name);
    NoEqualsNoPlace(l.host, name);
    NoEqualsNoPlace(l.sni, name);
    HexIsLegible(l.sid, name);
    if l.quic.Some? {
      NoEqualsNoPlace(l.quic.value.addr, name);
      NoEqualsNoPlace(l.quic.value.sni, name);
      if l.quic.value.cert.Some? { HexIsLegible(l.quic.value.cert.value, name); }
    }
    hide Holds, EncodeHex, Head;
    NothingInTheWay(Earlier(l, name), name, match Printed(l, name) case Some(v) => v case None => "");
    hide Unshadowed, Earlier;
  }

  /** So on the links it is meant for, the second parser reads everything that was printed. */
  lemma SecondParserAgrees(l: Link)
    requires Simple(l)
    ensures ParseUriFields(Format(l)) == Some((EncodeHex(l.sid), Encode64(l.key)))
    ensures ParseQuicFields(Format(l)) == ExpectedQuic(l)
  {
    SimpleReads(l, "sid");
    SimpleReads(l, "quic");
    SimpleReads(l, "qsni");
    SimpleReads(l, "qcert");
    UriFieldsIff(l);
    QuicFieldsIff(l);
    hide Format, ParseUriFields, ParseQuicFields, ExpectedQuic, Encode64, EncodeHex;
  }

  /** An input where they part: a host that is or begins with `sid=x`, with any SNI. The client's
      parser reads the link, the second one takes another short id. */
  lemma HostWithASidMisleads(l: Link)
    requires Sized(l) && Clean(l) && "sid=x" <= l.host
    ensures Parse(Format(l)) == Ok(l)
    ensures ParseUriFields(Format(l)) != Some((EncodeHex(l.sid), Encode64(l.key)))
  {
    CleanLinksParse(l);
    UriFieldsIff(l);
    HexRoundTrip(l.sid);
    HexHasNoX(l.sid);
    hide Parse, Format, ParseUriFields, Encode64, EncodeHex;
    assert "sid=" <= Head(l) && Head(l)[4] == 'x';
    assert "sid" + "=" == "sid=";
    assert After(Head(l), "sid")[0] == 'x';
  }

  lemma HexHasNoX(b: Bytes)
    requires b != []
    ensures EncodeHex(b)[0] != 'x'
  {
  }

  /** And one where a name in an earlier field does no harm: an SNI that is `sid=` and the short id. */
  lemma SniMayRepeatTheSid(l: Link)
    requires Sized(l) && '=' !in l.host && l.sni == "sid=" + EncodeHex(l.sid)
    ensures ParseUriFields(Format(l)) == Some((EncodeHex(l.sid), Encode64(l.key)))
  {
    UriFieldsIff(l);
    hide Format, ParseUriFields, Encode64, EncodeHex;
    FirstSid(l.host, EncodeHex(l.sid));
  }

  lemma FirstSid(host: string, h: string)
    requires '=' !in host
    ensures Unshadowed([host + "?" + ("sni=" + ("sid=" + h))], "sid", h)
  {
    var front, rest := host + "?sni", "sid=" + h;
    var s := host + "?" + ("sni=" + rest);
    assert s == front + ("=" + rest) && rest == "sid" + ("=" + h);
    IndexAcross(front, rest, "sid");
    IndexAcross("sid", h, "sid");
    SniIsNoSid(host);
    hide IndexOf, EndsWith;
    assert EndsWith("sid", "sid") by { KeysApart("sid", "sid"); }
    assert After(s, "sid") == h;
    assert h[|h|..] == "";
  }

  lemma SniIsNoSid(host: string)
    ensures !EndsWith(host + "?sni", "sid")
  {
    var s := host + "?sni";
    assert s[|s| - 3..] == "sni";
  }
}
