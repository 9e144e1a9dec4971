/**
 net/url and net, as far as the keeper's address goes through them: the webhook
 writes it with JoinHostPort and URL.String, chur-init reads it with JoinPath.
 */
module Urls {
  import opened Text

  // ---- Writing ------------------------------------------------------------

  /** The ASCII characters net/url leaves as they are in a host. */
  predicate HostChar(c: char) {
    IsLetter(c) || IsDigit(c) || c in "-_.~!$&'()*+,;=:[]<>\""
  }

  function HexDigit(n: nat): char
    requires n < 16
  {
    "0123456789ABCDEF"[n]
  }

  type byte = b: nat | b < 0x100

  function EscapeByte(b: byte): string {
    ['%', HexDigit(b / 16), HexDigit(b % 16)]
  }

  function EscapeBytes(bs: seq<byte>): string {
    if bs == [] then "" else EscapeByte(bs[0]) + EscapeBytes(bs[1..])
  }

  /** The UTF-8 bytes of a character; 0x80 and above mark the bytes of a longer one. */
  function Utf8(c: char): (bs: seq<byte>)
    ensures bs != [] && forall b | b in bs :: b >= 0x80 <==> c as int >= 0x80
  {
    var n: nat := c as int;
    if n < 0x80 then [n]
    else if n < 0x800 then [0xC0 + n / 64, 0x80 + n % 64]
    else if n < 0x10000 then [0xE0 + n / 0x1000, 0x80 + n / 64 % 64, 0x80 + n % 64]
    else [0xF0 + n / 0x40000, 0x80 + n / 0x1000 % 64, 0x80 + n / 64 % 64, 0x80 + n % 64]
  }

  function EscapeChar(c: char): string {
    if HostChar(c) then [c] else EscapeBytes(Utf8(c))
  }

  /** How URL.String writes a host. */
  function EscapeHost(s: string): string {
    if s == "" then "" else EscapeChar(s[0]) + EscapeHost(s[1..])
  }

  /** net.JoinHostPort. */
  function JoinHostPort(host: string, port: string): string {
    if ':' in host then "[" + host + "]:" + port else host + ":" + port
  }

  /** URL.String of a URL that is a scheme and a host alone. */
  function HttpsURL(hostPort: string): string {
    "https://" + EscapeHost(hostPort)
  }

  // ---- Reading ------------------------------------------------------------

  predicate IsHex(c: char) {
    IsDigit(c) || 'A' <= c <= 'F' || 'a' <= c <= 'f'
  }

  function HexValue(c: char): nat
    requires IsHex(c)
  {
    if IsDigit(c) then c as int - '0' as int
    else if c <= 'F' then c as int - 'A' as int + 10
    else c as int - 'a' as int + 10
  }

  /** In a host only a byte outside ASCII, or the '%' itself, may be written with '%'. */
  predicate HostEscape(hi: char, lo: char) {
    IsHex(hi) && IsHex(lo) && (HexValue(hi) >= 8 || [hi, lo] == "25")
  }

  /** In a zone it may also be a blank or a host character. */
  predicate ZoneEscape(hi: char, lo: char) {
    && IsHex(hi) && IsHex(lo)
    && var b := HexValue(hi) * 16 + HexValue(lo);
       b == '%' as int || b == ' ' as int || HostChar(b as char)
  }

  /** The text decodes as a host, or as a zone. */
  predicate Unescapes(s: string, zone: bool) {
    s == "" ||
    if s[0] == '%' then
      |s| >= 3 && (if zone then ZoneEscape(s[1], s[2]) else HostEscape(s[1], s[2])) && Unescapes(s[3..], zone)
    else
      (HostChar(s[0]) || s[0] as int >= 0x80) && Unescapes(s[1..], zone)
  }

  /** Nothing, or ':' and digits. */
  predicate OptionalPort(s: string) {
    s == "" || (s[0] == ':' && AllDigits(s[1..]))
  }

  /** strings.Index for one character, the length when it does not occur. */
  function IndexOf(s: string, c: char): (i: nat)
    ensures i <= |s| && c !in s[..i] && (i < |s| ==> s[i] == c)
  {
    if s == "" || s[0] == c then 0 else 1 + IndexOf(s[1..], c)
  }

  /** strings.LastIndex for one character, counted from the end: the text after it. */
  function AfterLast(s: string, c: char): (rest: string)
    requires c in s
    ensures |rest| < |s| && s[|s| - |rest|..] == rest && s[|s| - |rest| - 1] == c && c !in rest
  {
    if c in s[1..] then AfterLast(s[1..], c) else s[1..]
  }

  /** Where "%25" first occurs, the length when it does not. */
  function ZoneAt(s: string): (i: nat)
    ensures i <= |s|
  {
    if |s| < 3 then |s| else if s[..3] == "%25" then 0 else 1 + ZoneAt(s[1..])
  }

  /**
   The text between brackets is an IPv6 address, perhaps with a zone. As in
   netip.ParseAddr the first of '.', ':' and '%' decides the kind of address;
   the grammar after that is `isIPv6`, of the address and the zone.
   */
  predicate AddressLiteral(s: string, isIPv6: (string, string) -> bool) {
    var addr, zone := s[..ZoneAt(s)], s[ZoneAt(s)..];
    && '%' !in addr && ':' in addr && '.' !in addr[..IndexOf(addr, ':')]
    && (zone == "" || (|zone| > 3 && Unescapes(zone, true)))
    && isIPv6(addr, zone)
  }

  /** parseHost: a bracketed address or a name, then an optional port. */
  predicate HostParses(a: string, isIPv6: (string, string) -> bool) {
    if a != "" && '[' in a[1..] then false
    else if a != "" && a[0] == '[' then
      && ']' in a
      && OptionalPort(AfterLast(a, ']'))
      && AddressLiteral(a[1..|a| - |AfterLast(a, ']')| - 1], isIPv6)
    else OptionalPort(a[IndexOf(a, ':')..]) && Unescapes(a, false)
  }

  /** No path, query, fragment, user or control character. */
  predicate HostOnly(a: string) {
    forall c | c in a :: c !in "/?#@" && c > ' ' && c != '\U{7F}'
  }

  /**
   Parse accepts the URL, for the URLs that are a scheme and a host alone; by
   WritesHostOnly the webhook writes no other.
   */
  predicate UrlParses(url: string, isIPv6: (string, string) -> bool) {
    "https://" <= url && HostOnly(url[8..]) && HostParses(url[8..], isIPv6)
  }

  // ---- What is written and read -----------------------------------------------

  /** A character that survives writing and reading: everything but the ASCII characters a host may not hold. */
  predicate Survives(c: char) {
    HostChar(c) || c == '%' || c as int >= 0x80
  }

  /** Which ASCII characters a host may not hold, listed. */
  predicate Unwritable(c: char) {
    c <= ' ' || c == '\U{7F}' || c in "/?#@\\^`{|}"
  }

  lemma SurvivesIff(c: char)
    ensures Survives(c) <==> !Unwritable(c)
  {
  }

  lemma ByteEscape(b: byte, rest: string)
    ensures Unescapes(EscapeByte(b) + rest, false) <==> ByteSurvives(b) && Unescapes(rest, false)
    ensures forall c | c in EscapeByte(b) :: c == '%' || IsHex(c)
  {
    var s := EscapeByte(b) + rest;
    assert s[0] == '%' && s[1] == HexDigit(b / 16) && s[2] == HexDigit(b % 16) && s[3..] == rest;
    HexRoundTrip(b / 16);
    HexRoundTrip(b % 16);
    assert '%' as int == 2 * 16 + 5;
  }

  predicate ByteSurvives(b: byte) {
    b >= 0x80 || b == '%' as int
  }

  lemma {:induction false} BytesEscape(bs: seq<byte>, rest: string)
    ensures Unescapes(EscapeBytes(bs) + rest, false) <==>
            (forall b | b in bs :: ByteSurvives(b)) && Unescapes(rest, false)
    ensures forall c | c in EscapeBytes(bs) :: c == '%' || IsHex(c)
  {
    if bs == [] {
      assert "" + rest == rest;
    } else {
      var first, more := EscapeByte(bs[0]), EscapeBytes(bs[1..]);
      BytesEscape(bs[1..], rest);
      ByteEscape(bs[0], more + rest);
      Associates(first, more, rest);
      assert bs == [bs[0]] + bs[1..];
    }
  }

  lemma Associates(a: string, b: string, c: string)
    ensures a + b + c == a + (b + c)
  {
  }

  lemma HexRoundTrip(n: nat)
    requires n < 16
    ensures IsHex(HexDigit(n)) && HexValue(HexDigit(n)) == n
    ensures HexDigit(n) == '2' <==> n == 2
    ensures HexDigit(n) == '5' <==> n == 5
  {
  }

  lemma CharEscape(c: char, rest: string)
    ensures Unescapes(EscapeChar(c) + rest, false) <==> Survives(c) && Unescapes(rest, false)
    ensures EscapeChar(c) != "" && (HostChar(c) || EscapeChar(c)[0] == '%')
    ensures HostChar(c) || forall x | x in EscapeChar(c) :: x == '%' || IsHex(x)
  {
    if HostChar(c) {
      assert ([c] + rest)[1..] == rest;
      assert c != '%';
    } else {
      BytesEscape(Utf8(c), rest);
      assert Utf8(c)[0] in Utf8(c);
    }
  }

  /** A written host is read back exactly when each of its characters survives. */
  lemma {:induction false} EscapeUnescapes(s: string)
    ensures Unescapes(EscapeHost(s), false) <==> forall c | c in s :: Survives(c)
  {
    if s != "" {
      EscapeUnescapes(s[1..]);
      CharEscape(s[0], EscapeHost(s[1..]));
      assert forall c | c in s :: c == s[0] || c in s[1..];
      assert forall c | c in s[1..] :: c in s;
    }
  }

  lemma {:induction false} EscapeConcat(s: string, t: string)
    ensures EscapeHost(s + t) == EscapeHost(s) + EscapeHost(t)
  {
    if s == "" {
      assert s + t == t;
    } else {
      assert (s + t)[1..] == s[1..] + t && (s + t)[0] == s[0];
      EscapeConcat(s[1..], t);
    }
  }

  /** The URL of an ordinary name and port is read as it is written out. */
  lemma OrdinaryUrlParses(host: string, port: string, isIPv6: (string, string) -> bool)
    requires (forall c | c in host :: IsLetter(c) || IsDigit(c) || c == '-' || c == '.')
    requires '.' in host && AllDigits(port)
    ensures UrlParses("https://" + (host + ":" + port), isIPv6)
  {
    var whole := host + ":" + port;
    forall c | c in whole ensures HostChar(c) {
      assert c in host || c == ':' || c in port;
    }
    EscapeHosts(whole);
    assert '[' !in host && ':' !in host;
    NamedHostParsesIff(host, port, isIPv6);
  }

  /** Writing neither adds nor removes a delimiter that a host may hold. */
  lemma {:induction false} EscapeKeeps(s: string, c: char)
    requires HostChar(c) && !IsHex(c)
    ensures c in EscapeHost(s) <==> c in s
  {
    if s != "" {
      EscapeKeeps(s[1..], c);
      CharEscape(s[0], "");
      assert c in s <==> c == s[0] || c in s[1..];
      assert c in EscapeHost(s) <==> c in EscapeChar(s[0]) || c in EscapeHost(s[1..]);
    }
  }

  lemma {:induction false} EscapeDigits(s: string)
    ensures AllDigits(EscapeHost(s)) <==> AllDigits(s)
    ensures AllDigits(s) ==> EscapeHost(s) == s
  {
    if s != "" {
      EscapeDigits(s[1..]);
      CharEscape(s[0], "");
      var first := EscapeChar(s[0]);
      assert !HostChar(s[0]) ==> first[0] == '%';
      assert forall c | c in s :: c == s[0] || c in s[1..];
      assert forall c | c in s[1..] :: c in s;
      assert forall c | c in EscapeHost(s) :: c in first || c in EscapeHost(s[1..]);
      assert forall c | c in EscapeHost(s[1..]) :: c in EscapeHost(s);
      assert first[0] in EscapeHost(s) && s[0] in s;
    }
  }

  lemma {:induction false} EscapeHosts(s: string)
    requires forall c | c in s :: HostChar(c)
    ensures EscapeHost(s) == s
  {
    if s != "" {
      EscapeHosts(s[1..]);
    }
  }

  /** What the webhook writes is a scheme and a host alone, whatever the configured names hold. */
  lemma {:induction false} WritesHostOnly(s: string)
    ensures HostOnly(EscapeHost(s))
  {
    if s != "" {
      var rest := EscapeHost(s[1..]);
      WritesHostOnly(s[1..]);
      CharEscape(s[0], "");
      forall c | c in EscapeHost(s) ensures c !in "/?#@" && c > ' ' && c != '\U{7F}' {
        if c !in rest {
          assert c in EscapeChar(s[0]);
          KeptIsPlain(c);
        }
      }
    }
  }

  lemma KeptIsPlain(c: char)
    requires HostChar(c) || c == '%' || IsHex(c)
    ensures c !in "/?#@" && c > ' ' && c != '\U{7F}'
  {
  }

  /**
   For a name without ':' the written URL is read back exactly when the port is
   made of digits alone and the name of characters that survive, '[' not among them.
   */
  lemma NamedHostParsesIff(host: string, port: string, isIPv6: (string, string) -> bool)
    requires ':' !in host && '.' in host
    ensures UrlParses(HttpsURL(JoinHostPort(host, port)), isIPv6) <==>
            AllDigits(port) && '[' !in host && forall c | c in host :: Survives(c)
  {
    var whole := host + ":" + port;
    var h, p := EscapeHost(host), EscapeHost(port);
    WrittenParts(host, port);
    WritesHostOnly(whole);
    assert HttpsURL(whole)[8..] == EscapeHost(whole);
    EscapeKeeps(host, ':');
    EscapeKeeps(host, '.');
    EscapeKeeps(whole, '[');
    EscapeDigits(port);
    EscapeUnescapes(whole);
    PlainHostParses(h, p, isIPv6);
    assert forall c | c in whole :: c in host || c == ':' || c in port;
    assert forall c | c in host :: c in whole;
  }

  /** A name without ':' is read as a name: no '[', the digits of a port, legal characters. */
  lemma PlainHostParses(h: string, p: string, isIPv6: (string, string) -> bool)
    requires ':' !in h && '.' in h
    ensures var a := h + ":" + p;
            HostParses(a, isIPv6) <==> '[' !in a && AllDigits(p) && Unescapes(a, false)
  {
    var a := h + ":" + p;
    FirstAfter(h, ":" + p, ':');
    assert a == h + (":" + p);
    assert a[|h|..] == ":" + p && (":" + p)[1..] == p;
    if '[' in a && '[' !in a[1..] {
      assert a[0] == '[';
      BracketWithoutColon(h, p, isIPv6);
    }
  }

  lemma WrittenParts(host: string, port: string)
    ensures EscapeHost(host + ":" + port) == EscapeHost(host) + ":" + EscapeHost(port)
  {
    EscapeConcat(host + ":", port);
    EscapeConcat(host, ":");
    EscapeHosts(":");
  }

  lemma {:induction false} FirstAfter(h: string, rest: string, c: char)
    requires c !in h
    ensures IndexOf(h + rest, c) == |h| + IndexOf(rest, c)
  {
    if h == "" {
      assert h + rest == rest;
    } else {
      assert (h + rest)[0] == h[0] && (h + rest)[1..] == h[1..] + rest;
      FirstAfter(h[1..], rest, c);
    }
  }

  /** A bracket at the front does not help: the '.' of the name comes before every ':'. */
  lemma BracketWithoutColon(h: string, p: string, isIPv6: (string, string) -> bool)
    requires ':' !in h && '.' in h
    requires var a := h + ":" + p; a[0] == '[' && '[' !in a[1..]
    ensures !HostParses(h + ":" + p, isIPv6)
  {
    var a := h + ":" + p;
    if ']' in a {
      var n := |a| - |AfterLast(a, ']')| - 1;
      NotAnAddress(h, p, n, isIPv6);
    }
  }

  lemma NotAnAddress(h: string, p: string, n: nat, isIPv6: (string, string) -> bool)
    requires ':' !in h && '.' in h && h[0] != '.' && 1 <= n <= |h + ":" + p|
    ensures !AddressLiteral((h + ":" + p)[1..n], isIPv6)
  {
    var a := h + ":" + p;
    var s := a[1..n];
    var addr := s[..ZoneAt(s)];
    if ':' in addr {
      var i := IndexOf(addr, ':');
      var k :| 0 <= k < |h| && h[k] == '.';
      assert forall j | 0 <= j < |addr| :: addr[j] == a[j + 1];
      assert forall j | 0 <= j < |h| :: a[j] == h[j];
      assert addr[i] == ':';
      assert i + 1 >= |h|;
      assert addr[..i][k - 1] == '.';
    }
  }

  /**
   A name with ':' is written in brackets, so it is read back exactly when it is
   an address literal and the port is made of digits.
   */
  lemma BracketedHostParsesIff(host: string, port: string, isIPv6: (string, string) -> bool)
    requires ':' in host && ']' !in port
    ensures UrlParses(HttpsURL(JoinHostPort(host, port)), isIPv6) <==>
            AllDigits(port) && '[' !in host && AddressLiteral(EscapeHost(host), isIPv6)
  {
    var whole := "[" + host + "]:" + port;
    WrittenInBrackets(host, port);
    WritesHostOnly(whole);
    assert HttpsURL(whole)[8..] == EscapeHost(whole);
    EscapeKeeps(host, '[');
    EscapeKeeps(port, ']');
    EscapeDigits(port);
    BracketsParse(EscapeHost(host), EscapeHost(port), isIPv6);
  }

  /**
   A ']' in the port moves the end of the bracket there: what stands before it
   is read as part of the address, and only what stands after it as a port.
   */
  lemma BracketInPortIff(host: string, x: string, y: string, isIPv6: (string, string) -> bool)
    requires ':' in host && ']' !in y
    ensures UrlParses(HttpsURL(JoinHostPort(host, x + "]" + y)), isIPv6) <==>
            && OptionalPort(EscapeHost(y)) && '[' !in host + x
            && AddressLiteral(EscapeHost(host + "]:" + x), isIPv6)
  {
    var inner := host + "]:" + x;
    var whole := "[" + inner + "]" + y;
    assert "[" + host + "]:" + (x + "]" + y) == whole;
    EnclosedUrl(inner, y, isIPv6);
    assert '[' in inner <==> '[' in host + x;
  }

  lemma EnclosedUrl(inner: string, y: string, isIPv6: (string, string) -> bool)
    requires ']' !in y
    ensures UrlParses(HttpsURL("[" + inner + "]" + y), isIPv6) <==>
            OptionalPort(EscapeHost(y)) && '[' !in inner && AddressLiteral(EscapeHost(inner), isIPv6)
  {
    var whole := "[" + inner + "]" + y;
    WrittenWithRest(inner, y);
    WritesHostOnly(whole);
    assert HttpsURL(whole)[8..] == EscapeHost(whole);
    EscapeKeeps(inner, '[');
    EscapeKeeps(y, ']');
    EnclosedParses(EscapeHost(inner), EscapeHost(y), isIPv6);
  }

  lemma WrittenWithRest(inner: string, y: string)
    ensures EscapeHost("[" + inner + "]" + y) == "[" + EscapeHost(inner) + "]" + EscapeHost(y)
  {
    EscapeConcat("[" + inner + "]", y);
    WrittenBetween("[", inner, "]");
  }

  lemma EnclosedParses(h: string, rest: string, isIPv6: (string, string) -> bool)
    requires ']' !in rest
    ensures HostParses("[" + h + "]" + rest, isIPv6) <==>
            OptionalPort(rest) && '[' !in h && AddressLiteral(h, isIPv6)
  {
    var a := "[" + h + "]" + rest;
    BracketParts(h, rest, a);
    EnclosedText(h, rest, a, isIPv6);
  }

  lemma EnclosedText(h: string, rest: string, a: string, isIPv6: (string, string) -> bool)
    requires a != "" && a[0] == '[' && ']' in a && AfterLast(a, ']') == rest && a[1..|a| - |rest| - 1] == h
    requires '[' in a[1..] <==> '[' in h || '[' in rest
    ensures HostParses(a, isIPv6) <==> OptionalPort(rest) && '[' !in h && AddressLiteral(h, isIPv6)
  {
    if OptionalPort(rest) {
      PortHasNoBracket(rest);
    }
  }

  lemma PortHasNoBracket(rest: string)
    requires OptionalPort(rest)
    ensures '[' !in rest
  {
    if rest != "" {
      assert rest == [rest[0]] + rest[1..];
    }
  }

  lemma WrittenInBrackets(host: string, port: string)
    ensures EscapeHost("[" + host + "]:" + port) == "[" + EscapeHost(host) + "]" + ":" + EscapeHost(port)
  {
    assert "[" + host + "]:" + port == ("[" + host + "]") + ":" + port;
    WrittenParts("[" + host + "]", port);
    WrittenBetween("[", host, "]");
  }

  lemma WrittenBetween(a: string, s: string, b: string)
    requires forall c | c in a || c in b :: HostChar(c)
    ensures EscapeHost(a + s + b) == a + EscapeHost(s) + b
  {
    EscapeConcat(a + s, b);
    EscapeConcat(a, s);
    EscapeHosts(a);
    EscapeHosts(b);
  }

  lemma BracketsParse(h: string, p: string, isIPv6: (string, string) -> bool)
    requires ']' !in p
    ensures HostParses("[" + h + "]" + ":" + p, isIPv6) <==>
            '[' !in h && AllDigits(p) && AddressLiteral(h, isIPv6)
  {
    var rest := ":" + p;
    assert "[" + h + "]" + ":" + p == "[" + h + "]" + rest;
    EnclosedParses(h, rest, isIPv6);
    PortText(p);
  }

  lemma PortText(p: string)
    ensures OptionalPort(":" + p) <==> AllDigits(p)
  {
    assert (":" + p)[1..] == p;
  }

  lemma BracketParts(h: string, rest: string, a: string)
    requires ']' !in rest && a == "[" + h + "]" + rest
    ensures a[0] == '[' && ']' in a && AfterLast(a, ']') == rest
    ensures a[1..|a| - |rest| - 1] == h
    ensures '[' in a[1..] <==> '[' in h || '[' in rest
  {
    LastIs("[" + h, rest, ']');
    BracketTail(h, rest, a);
  }

  lemma BracketTail(h: string, rest: string, a: string)
    requires a == "[" + h + "]" + rest
    ensures a[0] == '[' && a[1..|a| - |rest| - 1] == h
    ensures '[' in a[1..] <==> '[' in h || '[' in rest
  {
    assert a[1..] == h + "]" + rest;
  }

  lemma {:induction false} LastIs(x: string, y: string, c: char)
    requires c !in y
    ensures c in x + [c] + y && AfterLast(x + [c] + y, c) == y
  {
    var s := x + [c] + y;
    if x == "" {
      assert s[1..] == y;
    } else {
      assert s[1..] == x[1..] + [c] + y;
      LastIs(x[1..], y, c);
    }
  }
}
