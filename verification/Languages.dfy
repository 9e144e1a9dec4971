/**
 What the validators accept, described by alphabets and by how the texts are
 put together, and the proofs that they accept exactly that.
 */
module Languages {
  import opened Paths
  import opened ProviderEnv
  import opened Text
  import opened Validate
  import Urls

  // ---- Alphabets --------------------------------------------------------------------

  const LOWER := "abcdefghijklmnopqrstuvwxyz"
  const UPPER := "ABCDEFGHIJKLMNOPQRSTUVWXYZ"
  const DIGITS := "0123456789"

  predicate Over(s: string, alphabet: string) {
    forall c | c in s :: c in alphabet
  }

  lemma LowerIs(c: char)
    ensures c in LOWER <==> 'a' <= c <= 'z'
  {
    if 'a' <= c <= 'z' {
      var i := c as int - 'a' as int;
      assert LOWER[i] == c;
    }
  }

  lemma UpperIs(c: char)
    ensures c in UPPER <==> 'A' <= c <= 'Z'
  {
    if 'A' <= c <= 'Z' {
      var i := c as int - 'A' as int;
      assert UPPER[i] == c;
    }
  }

  lemma DigitsAre(c: char)
    ensures c in DIGITS <==> IsDigit(c)
  {
    if IsDigit(c) {
      var i := c as int - '0' as int;
      assert DIGITS[i] == c;
    }
  }

  /** The 65 characters of names. */
  predicate NameChar(c: char) {
    c in LOWER || c in UPPER || c in DIGITS || c in "-_."
  }

  lemma NameCharIs(c: char)
    ensures NameChar(c) <==> AllowedRune(c)
    ensures NameChar(c) ==> c as int < 0x80 && c != '/' && c != '\\'
  {
    LowerIs(c);
    UpperIs(c);
    DigitsAre(c);
  }

  lemma {:induction false} AsciiLen(s: string)
    requires forall c | c in s :: c as int < 0x80
    ensures ByteLen(s) == |s|
  {
    if s != "" {
      assert forall c | c in s[1..] :: c in s;
      assert s[0] in s;
      AsciiLen(s[1..]);
    }
  }

  // ---- Names and paths ----------------------------------------------------------------

  /** No way to cut the text has two dots at the cut. */
  ghost predicate NoDoubleDot(s: string) {
    forall a, b :: s != a + ".." + b
  }

  lemma NoDoubleDotIff(s: string)
    ensures NoDoubleDot(s) <==> !HasDotDot(s)
  {
    if i :| 0 <= i < |s| - 1 && s[i] == '.' && s[i + 1] == '.' {
      assert s == s[..i] + ".." + s[i + 2..];
    }
    forall a: string, b: string | s == a + ".." + b ensures HasDotDot(s) {
      assert s[|a|] == '.' && s[|a| + 1] == '.';
    }
  }

  /** Characters of names, and no two dots in a row. */
  ghost predicate Name(s: string) {
    (forall c | c in s :: NameChar(c)) && NoDoubleDot(s)
  }

  /** A flat ref: 1 to 255 characters of a name, with neither '-' nor '.' at an end. */
  ghost predicate FlatRefText(s: string) {
    Name(s) && 1 <= |s| <= 255 && s[0] !in "-." && s[|s| - 1] !in "-."
  }

  ghost predicate SecretKeyText(s: string) {
    Name(s) && |s| <= 253
  }

  /** Names, the empty one among them, joined by slashes. */
  ghost predicate NamesJoined(s: string, pieces: seq<string>) {
    pieces != [] && (forall p | p in pieces :: Name(p)) && s == JoinSlash(pieces)
  }

  /** A keeper ref: names joined by slashes, the first not empty, at most 4096 characters. */
  ghost predicate KeeperRefText(s: string) {
    |s| <= 4096 && exists pieces :: NamesJoined(s, pieces) && pieces[0] != ""
  }

  /** A mount path: nothing, or a slash and names joined by slashes, at most 4096 characters. */
  ghost predicate MountPathText(s: string) {
    s == "" || (|s| <= 4096 && exists pieces :: NamesJoined(s[1..], pieces) && s[0] == '/')
  }

  /** A base path: a mount path with a name in it other than "" and ".". */
  ghost predicate BasePathText(s: string) {
    && |s| <= 4096
    && exists pieces ::
         s != "" && s[0] == '/' && NamesJoined(s[1..], pieces) && exists p :: p in pieces && p != "" && p != "."
  }

  // ---- Each validator accepts its language --------------------------------------------

  lemma FlatRefIff(s: string)
    ensures ValidSecretRef(s) <==> FlatRefText(s)
  {
    AllNameChars(s);
    NoDoubleDotIff(s);
    if forall c | c in s :: NameChar(c) {
      AsciiLen(s);
    }
    if s != "" {
      assert s[0] in "-." <==> Edge(s[0]);
      assert s[|s| - 1] in "-." <==> Edge(s[|s| - 1]);
    }
  }

  lemma SecretKeyIff(s: string)
    ensures ValidSecretKey(s) <==> SecretKeyText(s)
  {
    AllNameChars(s);
    NoDoubleDotIff(s);
    if forall c | c in s :: NameChar(c) {
      AsciiLen(s);
    }
  }

  lemma AllNameChars(s: string)
    ensures (forall c | c in s :: NameChar(c)) <==> (forall c | c in s :: AllowedRune(c))
    ensures forall c | c in s && NameChar(c) :: c as int < 0x80 && c != '/' && c != '\\'
  {
    forall c | c in s
      ensures NameChar(c) <==> AllowedRune(c)
      ensures NameChar(c) ==> c as int < 0x80 && c != '/' && c != '\\'
    {
      NameCharIs(c);
    }
  }

  lemma {:induction false} JoinSplit(s: string)
    ensures JoinSlash(Split(s)) == s
  {
    if s != "" {
      JoinSplit(s[1..]);
      var rest := Split(s[1..]);
      if s[0] == '/' {
        assert Split(s)[1..] == rest;
      } else if |rest| > 1 {
        assert Split(s)[1..] == rest[1..];
      }
      assert s == [s[0]] + s[1..];
    }
  }

  lemma PiecesAreNames(s: string)
    requires (forall c | c in s :: AllowedMountRune(c)) && !HasDotDot(s)
    ensures forall p | p in Split(s) :: Name(p)
  {
    forall k | 0 <= k < |Split(s)| ensures Name(Split(s)[k]) {
      var p := Split(s)[k];
      var at := SplitPiece(s, k);
      assert forall i | 0 <= i < |p| :: p[i] == s[at + i];
      NoDoubleDotIff(p);
      AllNameChars(p);
      forall c | c in p ensures AllowedRune(c) {
        assert c in s;
      }
    }
  }

  lemma NamesHoldNoSlash(pieces: seq<string>)
    requires forall p | p in pieces :: Name(p)
    ensures forall p | p in pieces :: '/' !in p
  {
    forall p | p in pieces ensures '/' !in p {
      AllNameChars(p);
    }
  }

  lemma DotDotBetween(a: string, b: string)
    requires !HasDotDot(a) && !HasDotDot(b)
    ensures !HasDotDot(a + "/" + b)
  {
    var s := a + "/" + b;
    forall i | 0 <= i < |s| - 1 && s[i] == '.' ensures s[i + 1] != '.' {
      if i < |a| - 1 {
        assert s[i] == a[i] && s[i + 1] == a[i + 1];
      } else if i > |a| {
        assert s[i] == b[i - |a| - 1] && s[i + 1] == b[i - |a|];
      }
    }
  }

  lemma {:induction false} JoinedChars(pieces: seq<string>)
    requires forall p | p in pieces :: Name(p)
    ensures (forall c | c in JoinSlash(pieces) :: AllowedMountRune(c)) && !HasDotDot(JoinSlash(pieces))
  {
    if pieces != [] {
      var p := pieces[0];
      assert Name(p);
      AllNameChars(p);
      NoDoubleDotIff(p);
      if |pieces| > 1 {
        JoinedChars(pieces[1..]);
        DotDotBetween(p, JoinSlash(pieces[1..]));
      }
    }
  }

  /** The characters of a path, without two dots in a row: names joined by slashes. */
  lemma JoinedIff(s: string)
    ensures (exists pieces :: NamesJoined(s, pieces)) <==> (forall c | c in s :: AllowedMountRune(c)) && !HasDotDot(s)
    ensures (exists pieces :: NamesJoined(s, pieces)) ==> NamesJoined(s, Split(s))
    ensures forall pieces :: NamesJoined(s, pieces) ==> pieces == Split(s)
  {
    if (forall c | c in s :: AllowedMountRune(c)) && !HasDotDot(s) {
      PiecesAreNames(s);
      JoinSplit(s);
      assert NamesJoined(s, Split(s));
    }
    forall pieces | NamesJoined(s, pieces)
      ensures pieces == Split(s) && (forall c | c in s :: AllowedMountRune(c)) && !HasDotDot(s)
    {
      JoinedChars(pieces);
      NamesHoldNoSlash(pieces);
      SplitJoined(pieces);
    }
  }

  lemma PathLen(s: string)
    requires forall c | c in s :: AllowedMountRune(c)
    ensures ByteLen(s) == |s|
  {
    AsciiLen(s);
  }

  lemma KeeperRefIff(s: string)
    ensures ValidKeeperRef(s) <==> KeeperRefText(s)
  {
    JoinedIff(s);
    if forall c | c in s :: AllowedMountRune(c) {
      PathLen(s);
    }
    FirstPiece(s);
  }

  /** The first piece is empty exactly for an empty text and one that starts with a slash. */
  lemma FirstPiece(s: string)
    ensures Split(s)[0] != "" <==> s != "" && s[0] != '/'
  {
  }

  lemma AfterSlash(s: string)
    requires s != "" && s[0] == '/'
    ensures HasDotDot(s) <==> HasDotDot(s[1..])
    ensures (forall c | c in s :: AllowedMountRune(c)) <==> forall c | c in s[1..] :: AllowedMountRune(c)
    ensures Split(s) == [""] + Split(s[1..])
  {
    var t := s[1..];
    assert s == "/" + t;
    if i :| 0 <= i < |s| - 1 && s[i] == '.' && s[i + 1] == '.' {
      assert t[i - 1] == '.' && t[i] == '.';
    }
    if i :| 0 <= i < |t| - 1 && t[i] == '.' && t[i + 1] == '.' {
      assert s[i + 1] == '.' && s[i + 2] == '.';
    }
  }

  lemma MountPathIff(s: string)
    ensures ValidMountPath(s) <==> MountPathText(s)
  {
    if s != "" && s[0] == '/' {
      AfterSlash(s);
      JoinedIff(s[1..]);
      if forall c | c in s :: AllowedMountRune(c) {
        PathLen(s);
      }
    }
  }

  lemma BasePathIff(s: string)
    ensures ValidLocalBasePath(s) <==> BasePathText(s)
  {
    if s != "" && s[0] == '/' {
      AfterSlash(s);
      JoinedIff(s[1..]);
      if (forall c | c in s :: AllowedMountRune(c)) && !HasDotDot(s) {
        PathLen(s);
        NotRootIff(s);
      }
    }
  }

  lemma NotRootIff(s: string)
    requires s != "" && s[0] == '/' && !HasDotDot(s)
    ensures Clean(s) != "/" <==> exists p :: p in Split(s[1..]) && p != "" && p != "."
    ensures Clean(s) != "."
  {
    AfterSlash(s);
    ComponentsAreNames(s);
    CleanKeepsComponents(s);
    NamesEmpty(Split(s));
    assert forall p :: p in Split(s) <==> p == "" || p in Split(s[1..]);
    var comps := Components(s);
    if comps != [] {
      assert Proper(comps[0]) && comps[0] in comps;
      assert |JoinSlash(comps)| >= |comps[0]| > 0;
    }
  }

  // ---- Keys of the provider-env annotation -----------------------------------------------

  /** CHUR_ and then capital letters, digits and underscores, 128 characters at most. */
  ghost predicate EnvKeyText(k: string) {
    |k| <= 128 && exists rest :: k == "CHUR_" + rest && forall c | c in rest :: c in UPPER || c in DIGITS || c == '_'
  }

  lemma EnvKeyIff(k: string)
    ensures ValidKey(k) <==> EnvKeyText(k)
  {
    forall c ensures (c in UPPER || c in DIGITS || c == '_') <==> c == '_' || 'A' <= c <= 'Z' || IsDigit(c) {
      UpperIs(c);
      DigitsAre(c);
    }
    if forall c | c in k :: c == '_' || 'A' <= c <= 'Z' || IsDigit(c) {
      AsciiLen(k);
    }
    if "CHUR_" <= k {
      assert k == "CHUR_" + k[5..];
    }
    if rest :| k == "CHUR_" + rest && forall c | c in rest :: c in UPPER || c in DIGITS || c == '_' {
      assert forall c | c in k :: c in "CHUR_" || c in rest;
      AsciiLen(k);
    }
  }

  /** The names the webhook sets itself. */
  predicate Managed(k: string) {
    || k == "CHUR_PROVIDER" || k == "CHUR_SECRET_REF" || k == "CHUR_SECRET_KEY" || k == "CHUR_MOUNT_PATH"
    || k == "CHUR_MAX_SECRET_SIZE" || k == "CHUR_LOCAL_BASE_PATH" || k == "CHUR_KEEPER_URL"
    || k == "CHUR_KEEPER_TLS_CERT_PATH" || k == "CHUR_KEEPER_TLS_KEY_PATH" || k == "CHUR_KEEPER_SERVER_CA"
    || k == "CHUR_KEEPER_CLIENT_MAX_SECRET_SIZE" || k == "CHUR_KEEPER_INSECURE_SKIP_VERIFY"
  }

  lemma ManagedIsReserved(k: string)
    ensures Managed(k) <==> k in RESERVED
  {
  }

  /** A text in UTF-8. */
  function Utf8Text(s: string): seq<Urls.byte> {
    if s == "" then [] else Urls.Utf8(s[0]) + Utf8Text(s[1..])
  }

  lemma {:induction false} ByteLenIsUtf8(s: string)
    ensures ByteLen(s) == |Utf8Text(s)|
  {
    if s != "" {
      ByteLenIsUtf8(s[1..]);
    }
  }

  /** What admission takes from the annotation: keys of that form, none managed, values up to 4096 bytes. */
  ghost predicate ExtraText(extra: map<string, string>) {
    forall k | k in extra :: EnvKeyText(k) && !Managed(k) && |Utf8Text(extra[k])| <= 4096
  }

  lemma ExtraIff(extra: map<string, string>)
    ensures AllAcceptable(extra) <==> ExtraText(extra)
  {
    forall k | k in extra
      ensures Acceptable(k, extra[k]) <==> EnvKeyText(k) && !Managed(k) && |Utf8Text(extra[k])| <= 4096
    {
      EnvKeyIff(k);
      ManagedIsReserved(k);
      ByteLenIsUtf8(extra[k]);
    }
  }

  // ---- UTF-8 ------------------------------------------------------------------------------

  /** The bits of a byte after its marker. */
  function After(b: Urls.byte, marker: int): int {
    b as int - marker
  }

  /** The number in the bytes of one character (RFC 3629 section 3). */
  function Utf8Value(bs: seq<Urls.byte>): int {
    if |bs| == 1 then After(bs[0], 0)
    else if |bs| == 2 then After(bs[0], 0xC0) * 0x40 + After(bs[1], 0x80)
    else if |bs| == 3 then After(bs[0], 0xE0) * 0x1000 + After(bs[1], 0x80) * 0x40 + After(bs[2], 0x80)
    else if |bs| == 4 then
      After(bs[0], 0xF0) * 0x40000 + After(bs[1], 0x80) * 0x1000 + After(bs[2], 0x80) * 0x40 + After(bs[3], 0x80)
    else -1
  }

  /** The markers: one byte below 0x80, or a lead byte that tells the length and continuation bytes. */
  predicate Utf8Marked(bs: seq<Urls.byte>) {
    && 1 <= |bs| <= 4
    && (match |bs|
        case 1 => bs[0] < 0x80
        case 2 => 0xC0 <= bs[0] < 0xE0
        case 3 => 0xE0 <= bs[0] < 0xF0
        case _ => 0xF0 <= bs[0] < 0xF8)
    && forall i | 1 <= i < |bs| :: 0x80 <= bs[i] < 0xC0
  }

  lemma SixBits(n: nat)
    ensures n == n / 64 * 64 + n % 64 && n / 64 / 64 == n / 0x1000 && n / 0x1000 / 64 == n / 0x40000
  {
  }

  /** Each character is written in well-marked bytes, as few as will do, that hold its number. */
  lemma Utf8RoundTrip(c: char)
    ensures |Urls.Utf8(c)| ==
            if c as int < 128 then 1 else if c as int < 2048 then 2 else if c as int < 65536 then 3 else 4
    ensures Utf8Marked(Urls.Utf8(c)) && Utf8Value(Urls.Utf8(c)) == c as int
  {
    var n: nat := c as int;
    SixBits(n);
    SixBits(n / 64);
    SixBits(n / 0x1000);
  }
}
