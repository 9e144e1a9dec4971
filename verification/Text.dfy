/**
 String facts shared by the model. A string is a sequence of Unicode code
 points; Go's `len` counts UTF-8 bytes and is `ByteLen` here.
 */
module Text {
  import opened Wrappers

  function Utf8Width(c: char): nat {
    if c as int < 0x80 then 1 else if c as int < 0x800 then 2 else if c as int < 0x10000 then 3 else 4
  }

  function ByteLen(s: string): nat {
    if s == "" then 0 else Utf8Width(s[0]) + ByteLen(s[1..])
  }

  predicate HasDotDot(s: string) {
    exists i | 0 <= i < |s| - 1 :: s[i] == '.' && s[i + 1] == '.'
  }

  predicate IsDigit(c: char) {
    '0' <= c <= '9'
  }

  predicate IsLetter(c: char) {
    'a' <= c <= 'z' || 'A' <= c <= 'Z'
  }

  // ---- Splitting on '/' -------------------------------------------------

  /** strings.Split(s, "/"): always at least one piece. */
  function Split(s: string): (pieces: seq<string>)
    ensures |pieces| >= 1
  {
    if s == "" then [""]
    else
      var rest := Split(s[1..]);
      if s[0] == '/' then [""] + rest else [[s[0]] + rest[0]] + rest[1..]
  }

  /** The first character joins the first piece, whatever pieces follow. */
  lemma PrefixFirst(c: char, first: seq<string>, tail: seq<string>)
    requires first != []
    ensures var rest := first + tail;
            && [""] + rest == ([""] + first) + tail
            && [[c] + rest[0]] + rest[1..] == ([[c] + first[0]] + first[1..]) + tail
  {
    var rest := first + tail;
    assert rest[0] == first[0] && rest[1..] == first[1..] + tail;
  }

  lemma {:induction false} SplitConcat(a: string, b: string)
    ensures Split(a + "/" + b) == Split(a) + Split(b)
  {
    var s := a + "/" + b;
    if a == "" {
      assert s[0] == '/' && s[1..] == b;
    } else {
      assert s[0] == a[0] && s[1..] == a[1..] + "/" + b;
      SplitConcat(a[1..], b);
      PrefixFirst(a[0], Split(a[1..]), Split(b));
    }
  }

  lemma {:induction false} SplitPlain(a: string)
    requires '/' !in a
    ensures Split(a) == [a]
  {
    if a != "" {
      SplitPlain(a[1..]);
      assert a == [a[0]] + a[1..];
    }
  }

  /** Every piece is a stretch of the string, found at `at`, and holds no separator. */
  lemma {:induction false} SplitPiece(s: string, k: nat) returns (at: nat)
    requires k < |Split(s)|
    ensures '/' !in Split(s)[k]
    ensures at + |Split(s)[k]| <= |s| && s[at..at + |Split(s)[k]|] == Split(s)[k]
    ensures k == 0 ==> at == 0
  {
    at := 0;
    if s != "" && (s[0] != '/' || k > 0) {
      var k' := if s[0] == '/' then k - 1 else k;
      var at' := SplitPiece(s[1..], k');
      var piece := Split(s[1..])[k'];
      at := if k == 0 then 0 else at' + 1;
      if k == 0 {
        assert Split(s)[0] == [s[0]] + piece;
        assert s[..1 + |piece|] == [s[0]] + s[1..][..|piece|];
      } else {
        assert Split(s)[k] == piece;
        assert s[1..][at'..at' + |piece|] == s[at' + 1..at' + 1 + |piece|];
      }
    }
  }

  // ---- Decimal numerals -------------------------------------------------

  predicate AllDigits(s: string) {
    forall c | c in s :: IsDigit(c)
  }

  function DigitValue(c: char): nat
    requires IsDigit(c)
  {
    c as int - '0' as int
  }

  function Value(s: string): nat
    requires AllDigits(s)
  {
    if s == "" then 0
    else Value(s[..|s| - 1]) * 10 + DigitValue(s[|s| - 1])
  }

  /** fmt's %d for a non-negative number. */
  function Digits(n: nat): string {
    var last := [('0' as int + n % 10) as char];
    if n < 10 then last else Digits(n / 10) + last
  }

  /** Printing then reading a number is the identity, and prints no leading zero. */
  lemma {:induction false} ValueOfDigits(n: nat)
    ensures Digits(n) != "" && AllDigits(Digits(n)) && Value(Digits(n)) == n
    ensures n > 0 ==> Digits(n)[0] != '0'
    ensures |Digits(n)| > 1 ==> n > 0
  {
    var s := Digits(n);
    if n < 10 {
      assert s[..|s| - 1] == "";
    } else {
      ValueOfDigits(n / 10);
      assert s[..|s| - 1] == Digits(n / 10);
    }
  }

  /** A text of digits without a leading zero is the print of its value, and of no other number. */
  lemma {:induction false} DigitsOfValue(s: string)
    requires s != "" && AllDigits(s) && (|s| > 1 ==> s[0] != '0')
    ensures Digits(Value(s)) == s
    ensures |s| > 1 ==> Value(s) >= 10
  {
    var init, last := s[..|s| - 1], s[|s| - 1];
    assert s == init + [last];
    assert ('0' as int + DigitValue(last)) as char == last;
    if init != "" {
      assert init[0] == s[0] && AllDigits(init);
      if |init| == 1 {
        assert init[..0] == "" && Value(init) == DigitValue(init[0]) > 0;
      }
      DigitsOfValue(init);
      assert Value(s) == Value(init) * 10 + DigitValue(last) && Value(s) / 10 == Value(init);
    }
  }

  // ---- Lexicographic order (Go's < on strings) --------------------------

  predicate Less(a: string, b: string) {
    b != "" && (a == "" || a[0] < b[0] || (a[0] == b[0] && Less(a[1..], b[1..])))
  }

  lemma {:induction false} LessTransitive(a: string, b: string, c: string)
    requires Less(a, b) && Less(b, c)
    ensures Less(a, c)
  {
    if a != "" && a[0] == b[0] == c[0] {
      LessTransitive(a[1..], b[1..], c[1..]);
    }
  }

  lemma {:induction false} LessTrichotomy(a: string, b: string)
    ensures Less(a, b) || a == b || Less(b, a)
    ensures Less(a, b) ==> a != b && !Less(b, a)
  {
    if a != "" && b != "" && a[0] == b[0] {
      LessTrichotomy(a[1..], b[1..]);
      assert a == [a[0]] + a[1..] && b == [b[0]] + b[1..];
    }
  }

  /** a comes before b: it is cut short where they part, or has the smaller character there. */
  ghost predicate PartsBefore(a: string, b: string, i: nat) {
    i <= |a| && i < |b| && a[..i] == b[..i] && (i == |a| || a[i] < b[i])
  }

  lemma PartsLater(a: string, b: string, i: nat)
    requires a != "" && b != "" && a[0] == b[0]
    ensures PartsBefore(a, b, i + 1) <==> PartsBefore(a[1..], b[1..], i)
  {
    if i < |a| && i < |b| {
      assert a[..i + 1] == [a[0]] + a[1..][..i] && b[..i + 1] == [b[0]] + b[1..][..i];
      assert a[1..][..i] == a[..i + 1][1..] && b[1..][..i] == b[..i + 1][1..];
    }
  }

  lemma SameStart(a: string, b: string, i: nat)
    requires PartsBefore(a, b, i)
    ensures i == 0 || (a != "" && a[0] == b[0])
  {
    if i > 0 {
      assert a[0] == a[..i][0] && b[0] == b[..i][0];
    }
  }

  lemma {:induction false} LessIff(a: string, b: string)
    ensures Less(a, b) <==> exists i: nat :: PartsBefore(a, b, i)
  {
    forall i: nat | PartsBefore(a, b, i) ensures i == 0 || (a != "" && a[0] == b[0]) {
      SameStart(a, b, i);
    }
    if a != "" && b != "" && a[0] == b[0] {
      LessIff(a[1..], b[1..]);
      if Less(a, b) {
        var i: nat :| PartsBefore(a[1..], b[1..], i);
        PartsLater(a, b, i);
      }
      if i: nat :| PartsBefore(a, b, i) {
        assert i > 0;
        PartsLater(a, b, i - 1);
      }
    } else if Less(a, b) {
      assert PartsBefore(a, b, 0);
    }
  }
}
