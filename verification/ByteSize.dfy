/** internal/bytesize: size strings with optional binary suffixes. */
module ByteSize {
  import opened Text
  import opened Wrappers

  datatype Error = Empty | Syntax | OutOfRange | Negative | Overflow

  /** unicode.IsSpace. */
  predicate IsSpace(c: char) {
    var n := c as int;
    || 0x09 <= n <= 0x0D || n == 0x20 || n == 0x85 || n == 0xA0 || n == 0x1680
    || 0x2000 <= n <= 0x200A || n == 0x2028 || n == 0x2029 || n == 0x202F || n == 0x205F || n == 0x3000
  }

  /** strings.TrimSpace. */
  function Trim(s: string): string
    decreases |s|
  {
    if s == "" then ""
    else if IsSpace(s[0]) then Trim(s[1..])
    else if IsSpace(s[|s| - 1]) then Trim(s[..|s| - 1])
    else s
  }

  /** strings.HasSuffix for a two-character suffix. */
  predicate HasSuffix(s: string, first: char, second: char) {
    |s| >= 2 && s[|s| - 2] == first && s[|s| - 1] == second
  }

  function Signed(negative: bool, digits: string): int
    requires AllDigits(digits)
  {
    var n: int := Value(digits);
    if negative then -n else n
  }

  /** strconv.ParseInt(s, 10, 64). */
  function ParseInt(s: string): Result<int, Error> {
    var negative := s != "" && s[0] == '-';
    var digits := if s != "" && (s[0] == '-' || s[0] == '+') then s[1..] else s;
    if digits == "" || !AllDigits(digits) then Err(Syntax)
    else
      var n := Signed(negative, digits);
      if -MAX_INT64 - 1 <= n <= MAX_INT64 then Ok(n) else Err(OutOfRange)
  }

  function Multiplier(t: string): int {
    if HasSuffix(t, 'G', 'i') || HasSuffix(t, 'g', 'i') then 0x4000_0000
    else if HasSuffix(t, 'M', 'i') || HasSuffix(t, 'm', 'i') then 0x10_0000
    else if HasSuffix(t, 'K', 'i') || HasSuffix(t, 'k', 'i') then 0x400
    else 1
  }

  function Numeral(t: string): string {
    if Multiplier(t) == 1 then t else t[..|t| - 2]
  }

  function Parse(s: string): Result<int, Error> {
    var t := Trim(s);
    if t == "" then Err(Empty)
    else
      match ParseInt(Numeral(t))
      case Err(e) => Err(e)
      case Ok(n) =>
        if n < 0 then Err(Negative)
        else if n > MAX_INT64 / Multiplier(t) then Err(Overflow)
        else Ok(n * Multiplier(t))
  }

  // ---- What a size string means, without reference to the parser ---------

  datatype Sign = NoSign | Plus | Minus

  function SignText(sign: Sign): string {
    match sign case NoSign => "" case Plus => "+" case Minus => "-"
  }

  datatype Unit = One | Ki | LowerKi | Mi | LowerMi | Gi | LowerGi

  function UnitText(unit: Unit): string {
    match unit
    case One => "" case Ki => "Ki" case LowerKi => "ki" case Mi => "Mi"
    case LowerMi => "mi" case Gi => "Gi" case LowerGi => "gi"
  }

  function UnitBytes(unit: Unit): int {
    match unit
    case One => 1
    case Ki => 1024 case LowerKi => 1024
    case Mi => 1024 * 1024 case LowerMi => 1024 * 1024
    case Gi => 1024 * 1024 * 1024 case LowerGi => 1024 * 1024 * 1024
  }

  function Written(sign: Sign, digits: string, unit: Unit): string {
    SignText(sign) + digits + UnitText(unit)
  }

  function Meaning(sign: Sign, digits: string, unit: Unit): int
    requires AllDigits(digits)
  {
    var n: int := Value(digits);
    (if sign == Minus then -n else n) * UnitBytes(unit)
  }

  /** t reads as a signed decimal with a unit, and its exact value is v. */
  ghost predicate Denotes(t: string, v: int) {
    exists sign, digits, unit ::
      digits != "" && AllDigits(digits) && t == Written(sign, digits, unit) && v == Meaning(sign, digits, unit)
  }

  lemma WrittenUnit(num: string, unit: Unit)
    requires num != "" && IsDigit(num[|num| - 1])
    ensures Multiplier(num + UnitText(unit)) == UnitBytes(unit)
    ensures Numeral(num + UnitText(unit)) == num
  {
    var t := num + UnitText(unit);
    if unit == One {
      assert t == num;
    } else {
      assert t[|t| - 2] == UnitText(unit)[0] && t[|t| - 1] == UnitText(unit)[1];
    }
  }

  lemma ReadUnit(t: string) returns (unit: Unit)
    ensures t == Numeral(t) + UnitText(unit) && UnitBytes(unit) == Multiplier(t)
  {
    unit := if HasSuffix(t, 'G', 'i') then Gi else if HasSuffix(t, 'g', 'i') then LowerGi
            else if HasSuffix(t, 'M', 'i') then Mi else if HasSuffix(t, 'm', 'i') then LowerMi
            else if HasSuffix(t, 'K', 'i') then Ki else if HasSuffix(t, 'k', 'i') then LowerKi else One;
  }

  lemma ParseIntWritten(sign: Sign, digits: string)
    requires digits != "" && AllDigits(digits)
    requires -MAX_INT64 - 1 <= Signed(sign == Minus, digits) <= MAX_INT64
    ensures ParseInt(SignText(sign) + digits) == Ok(Signed(sign == Minus, digits))
  {
    var num := SignText(sign) + digits;
    assert IsDigit(digits[0]);
    if sign == NoSign {
      assert num == digits;
    } else {
      assert num[1..] == digits;
    }
  }

  /** The division guard refuses exactly the products that do not fit an int64. */
  lemma GuardIsExact(n: nat, unit: Unit)
    ensures n > MAX_INT64 / UnitBytes(unit) <==> n * UnitBytes(unit) > MAX_INT64
  {
    var b := UnitBytes(unit);
    assert b == 1 || b == 1024 || b == 1048576 || b == 1073741824;
  }

  /** Parse accepts a string exactly when it denotes a value in 0..MaxInt64, and returns that value. */
  lemma ParseIff(s: string, v: int)
    ensures Parse(s) == Ok(v) <==> Denotes(Trim(s), v) && 0 <= v <= MAX_INT64
  {
    if Parse(s) == Ok(v) {
      ParseSound(s, v);
    }
    if Denotes(Trim(s), v) && 0 <= v <= MAX_INT64 {
      var sign, digits, unit :| digits != "" && AllDigits(digits) &&
        Trim(s) == Written(sign, digits, unit) && v == Meaning(sign, digits, unit);
      ParseComplete(s, sign, digits, unit);
    }
  }

  lemma ParseSound(s: string, v: int)
    requires Parse(s) == Ok(v)
    ensures Denotes(Trim(s), v) && 0 <= v <= MAX_INT64
  {
    var t := Trim(s);
    var unit := ReadUnit(t);
    var sign, digits := ParsedInt(Numeral(t));
    var n := ParseInt(Numeral(t)).value;
    assert v == n * UnitBytes(unit);
    assert t == Written(sign, digits, unit) && v == Meaning(sign, digits, unit);
    GuardIsExact(n, unit);
  }

  lemma ParsedInt(num: string) returns (sign: Sign, digits: string)
    requires ParseInt(num).Ok?
    ensures digits != "" && AllDigits(digits) && num == SignText(sign) + digits
    ensures var n: int := Value(digits); ParseInt(num).value == if sign == Minus then -n else n
  {
    sign := if num[0] == '-' then Minus else if num[0] == '+' then Plus else NoSign;
    digits := if sign == NoSign then num else num[1..];
    assert num == SignText(sign) + digits;
  }

  /** A product with a unit is no smaller than the number, and of the same sign. */
  lemma Scaled(n: int, unit: Unit)
    ensures n * UnitBytes(unit) >= 0 <==> n >= 0
    ensures n >= 0 ==> n <= n * UnitBytes(unit)
  {
    var b := UnitBytes(unit);
    assert b == 1 || b == 1024 || b == 1048576 || b == 1073741824;
  }

  lemma ParseComplete(s: string, sign: Sign, digits: string, unit: Unit)
    requires digits != "" && AllDigits(digits) && Trim(s) == Written(sign, digits, unit)
    requires 0 <= Meaning(sign, digits, unit) <= MAX_INT64
    ensures Parse(s) == Ok(Meaning(sign, digits, unit))
  {
    var num := SignText(sign) + digits;
    assert IsDigit(digits[|digits| - 1]) && num[|num| - 1] == digits[|digits| - 1];
    WrittenUnit(num, unit);
    var n := Signed(sign == Minus, digits);
    Scaled(n, unit);
    ParseIntWritten(sign, digits);
    GuardIsExact(n, unit);
    ParsedNumeral(s, num, unit, n);
  }

  lemma ParsedNumeral(s: string, num: string, unit: Unit, n: nat)
    requires Trim(s) == num + UnitText(unit) && num != "" && ParseInt(num) == Ok(n)
    requires Numeral(Trim(s)) == num && Multiplier(Trim(s)) == UnitBytes(unit)
    requires n <= MAX_INT64 / UnitBytes(unit)
    ensures Parse(s) == Ok(n * UnitBytes(unit))
  {
  }

  // ---- Blanks around the text -------------------------------------------------------

  /** The code points of Unicode's White_Space property. */
  const BLANKS: set<int> := {
    9, 10, 11, 12, 13, 32, 133, 160, 5760, 8192, 8193, 8194, 8195, 8196, 8197, 8198, 8199, 8200, 8201, 8202,
    8232, 8233, 8239, 8287, 12288
  }

  predicate Blank(s: string) {
    forall c | c in s :: c as int in BLANKS
  }

  lemma SpaceIsBlank(c: char)
    ensures IsSpace(c) <==> c as int in BLANKS
  {
  }

  predicate Spaces(s: string) {
    forall c | c in s :: IsSpace(c)
  }

  lemma SpacesAreBlank(s: string)
    ensures Spaces(s) <==> Blank(s)
  {
    forall c | c in s ensures IsSpace(c) <==> c as int in BLANKS {
      SpaceIsBlank(c);
    }
  }

  /** Trim takes spaces off both ends ... */
  lemma {:induction false} TrimSplits(s: string) returns (a: string, b: string)
    ensures Spaces(a) && Spaces(b) && s == a + Trim(s) + b
    decreases |s|
  {
    if s == "" {
      a, b := "", "";
    } else if IsSpace(s[0]) {
      a, b := TrimSplits(s[1..]);
      a := [s[0]] + a;
    } else if IsSpace(s[|s| - 1]) {
      a, b := TrimSplits(s[..|s| - 1]);
      b := b + [s[|s| - 1]];
    } else {
      a, b := "", "";
    }
  }

  /** ... and all of them. */
  lemma {:induction false} TrimInner(a: string, t: string, b: string)
    requires Spaces(a) && Spaces(b) && t != "" && !IsSpace(t[0]) && !IsSpace(t[|t| - 1])
    ensures Trim(a + t + b) == t
    decreases |a| + |b|
  {
    var s := a + t + b;
    if a != "" {
      assert s[0] == a[0] && a[0] in a && s[1..] == a[1..] + t + b;
      TrimInner(a[1..], t, b);
    } else {
      assert s[0] == t[0];
      if b != "" {
        assert s[|s| - 1] == b[|b| - 1] && b[|b| - 1] in b && s[..|s| - 1] == a + t + b[..|b| - 1];
        TrimInner(a, t, b[..|b| - 1]);
      } else {
        assert s == t;
      }
    }
  }

  lemma DenotesNoBlankEnds(t: string, v: int)
    requires Denotes(t, v)
    ensures t != "" && !IsSpace(t[0]) && !IsSpace(t[|t| - 1])
  {
    var sign, digits, unit :| digits != "" && AllDigits(digits) &&
      t == Written(sign, digits, unit) && v == Meaning(sign, digits, unit);
    WrittenEnds(sign, digits, unit);
  }

  lemma WrittenEnds(sign: Sign, digits: string, unit: Unit)
    requires digits != "" && AllDigits(digits)
    ensures var t := Written(sign, digits, unit);
            && t != "" && (IsDigit(t[0]) || t[0] in "+-") && (IsDigit(t[|t| - 1]) || t[|t| - 1] == 'i')
  {
    var t := Written(sign, digits, unit);
    assert IsDigit(digits[0]) && IsDigit(digits[|digits| - 1]);
    assert t[0] == if sign == NoSign then digits[0] else SignText(sign)[0];
    assert t[|t| - 1] == if unit == One then digits[|digits| - 1] else 'i';
  }

  /** s is a text that denotes v, with blanks before and after it. */
  ghost predicate DenotesInBlanks(s: string, v: int) {
    exists a, t, b :: Blank(a) && Blank(b) && s == a + t + b && Denotes(t, v)
  }

  lemma TrimmedDenotesIff(s: string, v: int)
    ensures Denotes(Trim(s), v) <==> DenotesInBlanks(s, v)
  {
    if Denotes(Trim(s), v) {
      var a, b := TrimSplits(s);
      SpacesAreBlank(a);
      SpacesAreBlank(b);
    }
    if DenotesInBlanks(s, v) {
      var a, t, b :| Blank(a) && Blank(b) && s == a + t + b && Denotes(t, v);
      SpacesAreBlank(a);
      SpacesAreBlank(b);
      DenotesNoBlankEnds(t, v);
      TrimInner(a, t, b);
    }
  }

  /** Parse accepts exactly a text that denotes a value of an int64, not negative, between any blanks. */
  lemma ParseTextIff(s: string, v: int)
    ensures Parse(s) == Ok(v) <==> DenotesInBlanks(s, v) && 0 <= v <= 9_223_372_036_854_775_807
  {
    ParseIff(s, v);
    TrimmedDenotesIff(s, v);
  }

  lemma PrintDenotes(n: nat, unit: Unit)
    ensures Denotes(Digits(n) + UnitText(unit), n * UnitBytes(unit))
  {
    ValueOfDigits(n);
    var digits := Digits(n);
    assert digits + UnitText(unit) == Written(NoSign, digits, unit);
    assert n * UnitBytes(unit) == Meaning(NoSign, digits, unit);
  }

  /** Printing a size and parsing it back is the identity, also between blanks. */
  lemma PrintParse(n: nat, unit: Unit, a: string, b: string)
    requires n * UnitBytes(unit) <= MAX_INT64 && Blank(a) && Blank(b)
    ensures Parse(a + (Digits(n) + UnitText(unit)) + b) == Ok(n * UnitBytes(unit))
  {
    PrintDenotes(n, unit);
    ParseBetween(a, Digits(n) + UnitText(unit), b, n * UnitBytes(unit));
  }

  lemma ParseBetween(a: string, t: string, b: string, v: int)
    requires Blank(a) && Blank(b) && Denotes(t, v) && 0 <= v <= MAX_INT64
    ensures Parse(a + t + b) == Ok(v)
  {
    assert DenotesInBlanks(a + t + b, v);
    ParseTextIff(a + t + b, v);
  }
}
