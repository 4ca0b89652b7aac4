/** The string primitives the TypeScript code calls: `toLowerCase`, `trim`,
    `includes`, `startsWith` and `Number.parseInt`. */
module Text {
  import opened Wrappers

  /** `toLowerCase`, restricted to the ASCII letters. */
  function LowerChar(c: char): char
  {
    if 'A' <= c <= 'Z' then (c as int + 32) as char else c
  }

  function ToLower(s: string): (r: string)
    ensures |r| == |s|
    ensures forall i :: 0 <= i < |s| ==> r[i] == LowerChar(s[i])
  {
    seq(|s|, i requires 0 <= i < |s| => LowerChar(s[i]))
  }

  /** Lowercasing a joined string lowercases each part. */
  lemma ToLowerConcat(a: string, b: string)
    ensures ToLower(a + b) == ToLower(a) + ToLower(b)
  {
  }

  /** The characters `trim` and `parseInt` skip: the WhiteSpace and
      LineTerminator code points of ECMAScript (sections 12.2 and 12.3). */
  predicate IsSpace(c: char)
  {
    var n := c as int;
    n == 0x09 || n == 0x0A || n == 0x0B || n == 0x0C || n == 0x0D || n == 0x20
    || n == 0xA0 || n == 0x1680 || (0x2000 <= n <= 0x200A) || n == 0x2028
    || n == 0x2029 || n == 0x202F || n == 0x205F || n == 0x3000 || n == 0xFEFF
  }

  /** The number of white-space characters `s` starts with. */
  function LeadingSpaces(s: string): (i: nat)
    ensures i <= |s|
    ensures forall j :: 0 <= j < i ==> IsSpace(s[j])
    ensures i < |s| ==> !IsSpace(s[i])
  {
    if s != [] && IsSpace(s[0]) then 1 + LeadingSpaces(s[1..]) else 0
  }

  /** The position after the last character of `s` that is not white space. */
  function TrailingStart(s: string): (i: nat)
    ensures i <= |s|
    ensures forall j :: i <= j < |s| ==> IsSpace(s[j])
    ensures i > 0 ==> !IsSpace(s[i - 1])
  {
    if s != [] && IsSpace(s[|s| - 1]) then TrailingStart(s[..|s| - 1]) else |s|
  }

  /** `trimStart`. */
  function TrimStart(s: string): string
  {
    s[LeadingSpaces(s)..]
  }

  /** `trimEnd`. */
  function TrimEnd(s: string): string
  {
    s[..TrailingStart(s)]
  }

  /** `trim`. */
  function Trim(s: string): string
  {
    TrimEnd(TrimStart(s))
  }

  /** `trim` keeps one contiguous piece of its input, with white space at
      neither end, and drops only white space around it. */
  lemma TrimShape(s: string)
    ensures var r := Trim(s);
      (r == [] || (!IsSpace(r[0]) && !IsSpace(r[|r| - 1])))
      && (exists i, j ::
            && 0 <= i <= j <= |s| && r == s[i..j]
            && (forall m :: 0 <= m < i ==> IsSpace(s[m]))
            && (forall m :: j <= m < |s| ==> IsSpace(s[m])))
  {
    var i := LeadingSpaces(s);
    var t := s[i..];
    var k := TrailingStart(t);
    assert Trim(s) == s[i..i + k];
    assert forall m :: i + k <= m < |s| ==> s[m] == t[m - i];
  }

  /** A string with no white space at either end is its own trim. */
  lemma TrimUnpadded(s: string)
    requires s == [] || (!IsSpace(s[0]) && !IsSpace(s[|s| - 1]))
    ensures Trim(s) == s
  {
  }

  /** Trimming twice is trimming once. */
  lemma TrimIdempotent(s: string)
    ensures Trim(Trim(s)) == Trim(s)
  {
    TrimShape(s);
    TrimUnpadded(Trim(s));
  }

  /** `String.prototype.includes`: `t` occurs as a contiguous piece of `s`. */
  predicate Includes(s: string, t: string)
  {
    exists i :: 0 <= i <= |s| && OccursAt(s, t, i)
  }

  /** `t` occurs in `s` starting at position `i`. */
  predicate OccursAt(s: string, t: string, i: int)
  {
    0 <= i && i + |t| <= |s| && s[i..i + |t|] == t
  }

  /** A string that lacks the first character of `t` does not include `t`. */
  lemma NotIncludesFirst(s: string, t: string)
    requires t != [] && t[0] !in s
    ensures !Includes(s, t)
  {
    forall i | 0 <= i <= |s|
      ensures !OccursAt(s, t, i)
    {
      if i + |t| <= |s| {
        assert s[i] in s;
        assert s[i..i + |t|][0] == s[i];
      }
    }
  }

  /** `String.prototype.startsWith`. */
  predicate StartsWith(s: string, prefix: string)
  {
    |prefix| <= |s| && s[..|prefix|] == prefix
  }

  /** The value of a digit in base 10 or 16, if `c` is one. */
  function DigitValue(c: char, radix: nat): Option<nat>
  {
    var d :=
      if '0' <= c <= '9' then Some(c as int - '0' as int)
      else if 'a' <= c <= 'f' then Some(c as int - 'a' as int + 10)
      else if 'A' <= c <= 'F' then Some(c as int - 'A' as int + 10)
      else None;
    if d.Some? && d.value < radix then Some(d.value as nat) else None
  }

  /** The length of the longest prefix of `s` made of digits of `radix`. */
  function DigitRun(s: string, radix: nat): (k: nat)
    ensures k <= |s|
    ensures forall j :: 0 <= j < k ==> DigitValue(s[j], radix).Some?
    ensures k < |s| ==> DigitValue(s[k], radix).None?
  {
    if s == [] || DigitValue(s[0], radix).None? then 0 else 1 + DigitRun(s[1..], radix)
  }

  lemma MulNat(a: nat, b: nat)
    ensures a * b >= 0
  {
  }

  /** The number a string of digits denotes, most significant digit first. */
  function DigitsValue(ds: string, radix: nat): nat
    requires forall j :: 0 <= j < |ds| ==> DigitValue(ds[j], radix).Some?
  {
    if ds == [] then 0
    else
      var init := ds[..|ds| - 1];
      assert forall j :: 0 <= j < |init| ==> init[j] == ds[j];
      var high := DigitsValue(init, radix);
      assert high * radix >= 0 by { MulNat(high, radix); }
      high * radix + DigitValue(ds[|ds| - 1], radix).value
  }

  /** The longest run of digits at the front of `body`, read in `radix`;
      `None` when there is no digit. */
  function ParseDigits(body: string, radix: nat): Option<nat>
  {
    var k := DigitRun(body, radix);
    if k == 0 then None else Some(DigitsValue(body[..k], radix))
  }

  /** An unsigned number: a `0x`/`0X` prefix selects base 16, else base 10. */
  function ParseUnsigned(u: string): Option<nat>
  {
    if StartsWith(u, "0x") || StartsWith(u, "0X") then ParseDigits(u[2..], 16)
    else ParseDigits(u, 10)
  }

  /** `Number.parseInt(s)` with no radix: leading white space skipped, an
      optional sign, then an unsigned number; `None` stands for `NaN`. */
  function ParseInt(s: string): Option<int>
  {
    var t := TrimStart(s);
    if t != [] && t[0] == '-' then
      match ParseUnsigned(t[1..])
      case Some(n) => var v: int := n; Some(-v)
      case None => None
    else
      var u := ParseUnsigned(if t != [] && t[0] == '+' then t[1..] else t);
      match u
      case Some(n) => Some(n)
      case None => None
  }

  /** The decimal spelling of a natural number, as `String(n)` writes it. */
  function DecimalString(n: nat): (s: string)
    ensures |s| >= 1
    ensures forall j :: 0 <= j < |s| ==> '0' <= s[j] <= '9'
  {
    var digit := ('0' as int + n % 10) as char;
    if n < 10 then [digit] else DecimalString(n / 10) + [digit]
  }

  lemma {:induction false} DecimalValue(n: nat)
    ensures forall j :: 0 <= j < |DecimalString(n)| ==> DigitValue(DecimalString(n)[j], 10).Some?
    ensures DigitsValue(DecimalString(n), 10) == n
  {
    var s := DecimalString(n);
    if n >= 10 {
      DecimalValue(n / 10);
      assert s[..|s| - 1] == DecimalString(n / 10);
    }
  }

  /** A string made only of digits is one run of digits. */
  lemma {:induction false} DigitRunAll(s: string, radix: nat)
    requires forall j :: 0 <= j < |s| ==> DigitValue(s[j], radix).Some?
    ensures DigitRun(s, radix) == |s|
  {
    if s != [] {
      DigitRunAll(s[1..], radix);
    }
  }

  /** A non-empty string of decimal digits, read as an unsigned number. */
  lemma ParseUnsignedDigits(s: string)
    requires |s| >= 1 && forall j :: 0 <= j < |s| ==> '0' <= s[j] <= '9'
    ensures forall j :: 0 <= j < |s| ==> DigitValue(s[j], 10).Some?
    ensures ParseUnsigned(s) == Some(DigitsValue(s, 10))
  {
    assert forall j :: 0 <= j < |s| ==> DigitValue(s[j], 10).Some?;
    DigitRunAll(s, 10);
    assert s[..|s|] == s;
    assert !StartsWith(s, "0x") && !StartsWith(s, "0X") by {
      if |s| >= 2 { assert '0' <= s[1] <= '9'; }
    }
  }

  /** A non-empty string of decimal digits parses as the number it denotes. */
  lemma ParseIntDigits(s: string)
    requires |s| >= 1 && forall j :: 0 <= j < |s| ==> '0' <= s[j] <= '9'
    ensures forall j :: 0 <= j < |s| ==> DigitValue(s[j], 10).Some?
    ensures ParseInt(s) == Some(DigitsValue(s, 10))
  {
    ParseUnsignedDigits(s);
    assert LeadingSpaces(s) == 0 by {
      assert '0' <= s[0] <= '9';
    }
    assert TrimStart(s) == s;
  }

  /** `parseInt` reads back every decimal number `String` writes. */
  lemma ParseIntDecimal(n: nat)
    ensures ParseInt(DecimalString(n)) == Some(n)
  {
    DecimalValue(n);
    ParseIntDigits(DecimalString(n));
  }

  /** A leading minus sign negates the unsigned number after it. */
  lemma ParseIntMinus(u: string)
    ensures ParseInt(['-'] + u) == if ParseUnsigned(u).Some? then Some(-(ParseUnsigned(u).value as int)) else None
  {
    var s := ['-'] + u;
    assert LeadingSpaces(s) == 0 by {
      assert s[0] == '-';
    }
    assert TrimStart(s) == s;
    assert s[1..] == u;
  }

  /** `parseInt` reads back every negative number `String` writes. */
  lemma ParseIntNegative(n: nat)
    ensures ParseInt("-" + DecimalString(n)) == Some(-(n as int))
  {
    DecimalValue(n);
    ParseUnsignedDigits(DecimalString(n));
    ParseIntMinus(DecimalString(n));
  }

  /** A string with no digit in front of it is `NaN`. */
  lemma ParseIntNaN(s: string)
    requires s == [] || (!IsSpace(s[0]) && s[0] != '-' && s[0] != '+' && DigitValue(s[0], 10).None?)
    ensures ParseInt(s) == None
  {
  }
}
