/**
 * String helpers with the meaning JavaScript gives them: the white-space set used by
 * `trim()` and the regular-expression class `\s`, substring search, lower-casing,
 * decimal rendering of integers, `parseInt(s, 10)` and `Number(s)` on integer text.
 */
module Text {

  /** The characters `String.prototype.trim` and `\s` treat as white space (a fixed set). */
  predicate IsSpace(c: char) {
    c == ' ' || c == '\t' || c == '\n' || c == '\r' || c == '\U{000B}' || c == '\U{000C}'
    || c == '\U{00A0}' || c == '\U{1680}' || ('\U{2000}' <= c <= '\U{200A}')
    || c == '\U{2028}' || c == '\U{2029}' || c == '\U{202F}' || c == '\U{205F}'
    || c == '\U{3000}' || c == '\U{FEFF}'
  }

  /** Every character is white space (the empty string included). */
  predicate IsBlank(s: string) {
    forall i | 0 <= i < |s| :: IsSpace(s[i])
  }

  predicate HasSpace(s: string) {
    exists i | 0 <= i < |s| :: IsSpace(s[i])
  }

  /** A character outside the Basic Multilingual Plane, which UTF-16 stores as two code units. */
  predicate IsAstral(c: char) {
    c as int > 0xFFFF
  }

  /** `s.length`: the number of UTF-16 code units, two for each astral character. */
  function CodeUnits(s: string): (n: nat)
    ensures |s| <= n <= 2 * |s|
  {
    if s == [] then 0 else (if IsAstral(s[0]) then 2 else 1) + CodeUnits(s[1..])
  }

  /** Text without astral characters has one code unit per character. */
  lemma {:induction false} CodeUnitsOfBmp(s: string)
    requires forall i | 0 <= i < |s| :: !IsAstral(s[i])
    ensures CodeUnits(s) == |s|
  {
    if s != [] {
      forall i | 0 <= i < |s[1..]| ensures !IsAstral(s[1..][i]) {
        assert s[1..][i] == s[i + 1];
      }
      CodeUnitsOfBmp(s[1..]);
    }
  }

  /** Text made only of astral characters has two code units per character. */
  lemma {:induction false} CodeUnitsOfAstral(s: string)
    requires forall i | 0 <= i < |s| :: IsAstral(s[i])
    ensures CodeUnits(s) == 2 * |s|
  {
    if s != [] {
      forall i | 0 <= i < |s[1..]| ensures IsAstral(s[1..][i]) {
        assert s[1..][i] == s[i + 1];
      }
      CodeUnitsOfAstral(s[1..]);
    }
  }

  /** Drops leading white space. */
  function TrimStart(s: string): (r: string)
    ensures |r| <= |s| && r == s[|s| - |r|..]
    ensures IsBlank(s[..|s| - |r|])
    ensures r == [] || !IsSpace(r[0])
  {
    if s != [] && IsSpace(s[0]) then TrimStart(s[1..]) else s
  }

  /** Drops trailing white space. */
  function TrimEnd(s: string): (r: string)
    ensures |r| <= |s| && r == s[..|r|]
    ensures IsBlank(s[|r|..])
    ensures r == [] || !IsSpace(r[|r| - 1])
  {
    if s != [] && IsSpace(s[|s| - 1]) then TrimEnd(s[..|s| - 1]) else s
  }

  /** `s.trim()`. */
  function Trim(s: string): string {
    TrimEnd(TrimStart(s))
  }

  /** `s.trim()` is empty exactly when `s` is blank. */
  lemma TrimEmptyIffBlank(s: string)
    ensures Trim(s) == "" <==> IsBlank(s)
  {
    var t := TrimStart(s);
    if Trim(s) == "" {
      assert IsBlank(t[0..]);
      assert t[0..] == t;
      assert t == [];
      assert s[..|s|] == s;
    }
  }

  /** `s.includes(sub)`. */
  predicate Contains(s: string, sub: string) {
    exists i | 0 <= i <= |s| - |sub| :: OccursAt(s, sub, i)
  }

  predicate OccursAt(s: string, sub: string, i: int) {
    0 <= i <= |s| - |sub| && s[i..i + |sub|] == sub
  }

  /** Removes every white-space character (`s.replace(/\s/g, '')`). */
  function RemoveSpaces(s: string): (r: string)
    ensures |r| <= |s|
    ensures !HasSpace(r)
    ensures forall c :: c in r <==> c in s && !IsSpace(c)
  {
    if s == [] then []
    else if IsSpace(s[0]) then RemoveSpaces(s[1..])
    else [s[0]] + RemoveSpaces(s[1..])
  }

  /** Removing white space a second time changes nothing. */
  lemma {:induction false} RemoveSpacesIdempotent(s: string)
    ensures RemoveSpaces(RemoveSpaces(s)) == RemoveSpaces(s)
  {
    if s != [] {
      RemoveSpacesIdempotent(s[1..]);
      if !IsSpace(s[0]) {
        var r := [s[0]] + RemoveSpaces(s[1..]);
        assert r[1..] == RemoveSpaces(s[1..]);
      }
    }
  }

  predicate IsDigit(c: char) {
    '0' <= c <= '9'
  }

  predicate AllDigits(s: string) {
    forall i | 0 <= i < |s| :: IsDigit(s[i])
  }

  /** Lower-cases ASCII letters and leaves every other character alone. */
  function ToLower(s: string): (r: string)
    ensures |r| == |s|
    ensures forall i | 0 <= i < |s| :: r[i] == (if 'A' <= s[i] <= 'Z' then (s[i] as int + 32) as char else s[i])
  {
    if s == [] then []
    else [if 'A' <= s[0] <= 'Z' then (s[0] as int + 32) as char else s[0]] + ToLower(s[1..])
  }

  function DigitChar(d: int): char
    requires 0 <= d < 10
  {
    ('0' as int + d) as char
  }

  function DigitValue(c: char): int
    requires IsDigit(c)
  {
    c as int - '0' as int
  }

  /** Decimal digits of a natural number, without leading zeros. */
  function NatToString(n: nat): (r: string)
    ensures |r| > 0 && AllDigits(r)
    decreases n
  {
    if n < 10 then [DigitChar(n)] else NatToString(n / 10) + [DigitChar(n % 10)]
  }

  /** `String(n)` for an integer. */
  function IntToString(n: int): (r: string)
    ensures |r| > 0
  {
    if n < 0 then "-" + NatToString(-n) else NatToString(n)
  }

  /** The number a string of decimal digits denotes. */
  function DigitsValue(s: string): (n: nat)
    requires AllDigits(s)
  {
    if s == [] then 0 else DigitsValue(s[..|s| - 1]) * 10 + DigitValue(s[|s| - 1])
  }

  /** The longest prefix of `s` made of decimal digits. */
  function DigitPrefix(s: string): (r: string)
    ensures |r| <= |s| && r == s[..|r|] && AllDigits(r)
    ensures |r| == |s| || !IsDigit(s[|r|])
  {
    if s != [] && IsDigit(s[0]) then [s[0]] + DigitPrefix(s[1..]) else []
  }

  /**
   * `parseInt(s, 10)` restricted to what the model needs: leading white space is skipped,
   * an optional sign is read, then the longest run of digits; `None` stands for NaN.
   */
  function ParseInt(s: string): (r: Option<int>)
  {
    var t := TrimStart(s);
    var negative := t != [] && t[0] == '-';
    var body := if t != [] && (t[0] == '-' || t[0] == '+') then t[1..] else t;
    var digits := DigitPrefix(body);
    var magnitude: int := if digits == [] then 0 else DigitsValue(digits);
    if digits == [] then None
    else if negative then Some(-magnitude)
    else Some(magnitude)
  }

  /**
   * `Number(s)` on integer text: surrounding white space is ignored, blank text is 0,
   * an optional sign and digits give their value, and anything else is NaN (`None`).
   */
  function StringToNumber(s: string): (r: Option<int>)
    ensures IsBlank(s) ==> r == Some(0)
  {
    var t := Trim(s);
    TrimEmptyIffBlank(s);
    if t == "" then Some(0)
    else if t[0] == '-' && |t| > 1 && AllDigits(t[1..]) then Some(0 - DigitsValue(t[1..]) as int)
    else if t[0] == '+' && |t| > 1 && AllDigits(t[1..]) then Some(DigitsValue(t[1..]))
    else if AllDigits(t) then Some(DigitsValue(t))
    else None
  }

  datatype Option<+T> = None | Some(value: T)

  lemma {:induction false} DigitsValueOfNatToString(n: nat)
    ensures DigitsValue(NatToString(n)) == n
    decreases n
  {
    if n >= 10 {
      DigitsValueOfNatToString(n / 10);
      var s := NatToString(n / 10) + [DigitChar(n % 10)];
      assert s[..|s| - 1] == NatToString(n / 10);
    }
  }

  lemma {:induction false} DigitPrefixOfDigits(s: string)
    requires AllDigits(s)
    ensures DigitPrefix(s) == s
  {
    if s != [] {
      DigitPrefixOfDigits(s[1..]);
    }
  }

  /** The digit prefix of digits followed by text that does not start with a digit is those digits. */
  lemma {:induction false} DigitPrefixOfDigitsThen(digits: string, rest: string)
    requires AllDigits(digits)
    requires rest == [] || !IsDigit(rest[0])
    ensures DigitPrefix(digits + rest) == digits
  {
    if digits != [] {
      assert (digits + rest)[1..] == digits[1..] + rest;
      DigitPrefixOfDigitsThen(digits[1..], rest);
    } else {
      assert digits + rest == rest;
    }
  }

  /** `parseInt` reads the number a text starts with: a natural number's digits followed by a non-digit. */
  lemma ParseIntOfNumberedText(n: nat, rest: string)
    requires rest == [] || !IsDigit(rest[0])
    ensures ParseInt(NatToString(n) + rest) == Some(n)
  {
    var digits := NatToString(n);
    var s := digits + rest;
    DigitsValueOfNatToString(n);
    DigitPrefixOfDigitsThen(digits, rest);
    assert s[0] == digits[0] && IsDigit(digits[0]);
    TrimStartUnspaced(s);
  }

  /** `parseInt(String(n), 10) == n`: the decimal rendering of an integer reads back as itself. */
  lemma ParseIntOfIntToString(n: int)
    ensures ParseInt(IntToString(n)) == Some(n)
  {
    var m: nat := if n < 0 then -n else n;
    var digits := NatToString(m);
    DigitsValueOfNatToString(m);
    DigitPrefixOfDigits(digits);
    if n < 0 {
      ParseIntSigned(digits);
    } else {
      ParseIntUnsigned(digits);
    }
  }

  /** `Number(String(n)) == n`: the decimal rendering of an integer converts back to it. */
  lemma StringToNumberOfIntToString(n: int)
    ensures StringToNumber(IntToString(n)) == Some(n)
  {
    var m: nat := if n < 0 then -n else n;
    var digits := NatToString(m);
    DigitsValueOfNatToString(m);
    if n < 0 {
      NumberOfSigned(digits);
    } else {
      NumberOfUnsigned(digits);
    }
  }

  /** Text that starts and ends with a non-space character is its own trim. */
  lemma TrimOfUnspaced(s: string)
    requires s != [] && !IsSpace(s[0]) && !IsSpace(s[|s| - 1])
    ensures Trim(s) == s
  {
    TrimStartUnspaced(s);
  }

  /**
   * Text without surrounding white space that starts with none of a digit, a sign, a point
   * or the `I` of `Infinity` is no numeric literal, so it converts to NaN.
   */
  lemma NumberOfNonNumeric(s: string)
    requires s != [] && !IsSpace(s[0]) && !IsSpace(s[|s| - 1])
    requires !IsDigit(s[0]) && s[0] != '-' && s[0] != '+' && s[0] != '.' && s[0] != 'I'
    ensures StringToNumber(s) == None
  {
    TrimOfUnspaced(s);
  }

  lemma NumberOfSigned(digits: string)
    requires digits != [] && AllDigits(digits)
    ensures StringToNumber("-" + digits) == Some(0 - DigitsValue(digits) as int)
  {
    var s := "-" + digits;
    assert s[|s| - 1] == digits[|digits| - 1];
    TrimOfUnspaced(s);
    assert s[1..] == digits;
  }

  lemma NumberOfUnsigned(digits: string)
    requires digits != [] && AllDigits(digits)
    ensures StringToNumber(digits) == Some(DigitsValue(digits) as int)
  {
    TrimOfUnspaced(digits);
    assert IsDigit(digits[0]);
  }

  lemma ParseIntSigned(digits: string)
    requires digits != [] && AllDigits(digits) && DigitPrefix(digits) == digits
    ensures ParseInt("-" + digits) == Some(0 - DigitsValue(digits) as int)
  {
    var s := "-" + digits;
    TrimStartUnspaced(s);
    var t := TrimStart(s);
    assert t[0] == '-';
    assert t[1..] == digits;
    assert DigitPrefix(t[1..]) == digits;
  }

  lemma ParseIntUnsigned(digits: string)
    requires digits != [] && AllDigits(digits) && DigitPrefix(digits) == digits
    ensures ParseInt(digits) == Some(DigitsValue(digits) as int)
  {
    assert IsDigit(digits[0]);
    TrimStartUnspaced(digits);
  }

  /** Text that starts with a non-space character has no leading white space to drop. */
  lemma TrimStartUnspaced(s: string)
    requires s != [] && !IsSpace(s[0])
    ensures TrimStart(s) == s
  {
  }
}
