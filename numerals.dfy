/** The two number/text conversions of JavaScript the front-end relies on: `Number.prototype.toString(radix)`
    (and `BigInt.prototype.toString`) on non-negative integers, and the global `parseInt(string, radix)`
    as section 19.2.5 of ECMA-262 defines it. */
module Numerals {

  /** What `parseInt` returns: an integer, or NaN when no digit could be read. */
  datatype JsNumber = Num(value: int) | NaN

  predicate IsRadix(radix: nat)
  {
    2 <= radix <= 36
  }

  /** The digit `toString` writes for `d`: `0`-`9`, then lower-case `a`-`z`. */
  function DigitChar(d: nat): (c: char)
    requires d < 36
    ensures DigitValue(c) == d
  {
    if d < 10 then ('0' as int + d) as char else ('a' as int + d - 10) as char
  }

  /** The value of `c` read as a digit of any radix up to 36, upper or lower case; 36 when `c` is no digit. */
  function DigitValue(c: char): nat
  {
    if '0' <= c <= '9' then c as int - '0' as int
    else if 'a' <= c <= 'z' then c as int - 'a' as int + 10
    else if 'A' <= c <= 'Z' then c as int - 'A' as int + 10
    else 36
  }

  predicate IsDigit(c: char, radix: nat)
  {
    DigitValue(c) < radix
  }

  predicate AllDigits(s: string, radix: nat)
  {
    forall i :: 0 <= i < |s| ==> IsDigit(s[i], radix)
  }

  /** The value of the digit string `s` in `radix`, most significant digit first. */
  function DigitsValue(s: string, radix: nat): nat
  {
    if s == [] then 0 else DigitsValue(s[..|s| - 1], radix) * radix + DigitValue(s[|s| - 1])
  }

  /** `n.toString(radix)` for a non-negative integer `n`: the shortest digit string, with no leading zero. */
  function ToRadix(n: nat, radix: nat): (s: string)
    requires IsRadix(radix)
    ensures |s| >= 1 && AllDigits(s, radix)
    decreases n
  {
    if n < radix then [DigitChar(n)]
    else
      DivMod(n, radix);
      ToRadix(n / radix, radix) + [DigitChar(n % radix)]
  }

  /** `n.toString()`: the decimal form. */
  function ToDecimal(n: nat): (s: string)
    ensures |s| >= 1 && AllDigits(s, 10)
  {
    ToRadix(n, 10)
  }

  lemma {:induction false} DigitsValueSnoc(s: string, c: char, radix: nat)
    ensures DigitsValue(s + [c], radix) == DigitsValue(s, radix) * radix + DigitValue(c)
  {
    assert (s + [c])[..|s + [c]| - 1] == s;
  }

  lemma DivMod(n: nat, radix: nat)
    requires IsRadix(radix) && n >= radix
    ensures 1 <= n / radix < n && n % radix < radix && n / radix * radix + n % radix == n
  {
  }

  /** Reading back what `toString(radix)` wrote gives the number again. */
  lemma {:induction false} ToRadixValue(n: nat, radix: nat)
    requires IsRadix(radix)
    ensures DigitsValue(ToRadix(n, radix), radix) == n
    decreases n
  {
    if n >= radix {
      var q, m := n / radix, n % radix;
      DivMod(n, radix);
      var s, c := ToRadix(q, radix), DigitChar(m);
      assert ToRadix(n, radix) == s + [c];
      ToRadixValue(q, radix);
      DigitsValueSnoc(s, c, radix);
      assert DigitsValue(s + [c], radix) == q * radix + m;
    }
  }

  /** `toString(radix)` writes no leading zero: its first digit is `0` only for zero itself. */
  lemma {:induction false} ToRadixNoLeadingZero(n: nat, radix: nat)
    requires IsRadix(radix)
    ensures ToRadix(n, radix)[0] == '0' <==> n == 0
    decreases n
  {
    if n >= radix {
      ToRadixNoLeadingZero(n / radix, radix);
    }
  }

  /** Written digits never include a sign, a prefix letter such as `x`, or white space. */
  lemma {:induction false} ToRadixIsLowerDigits(n: nat, radix: nat)
    requires IsRadix(radix)
    ensures AllLowerDigits(ToRadix(n, radix), radix)
    decreases n
  {
    if n >= radix {
      var q := n / radix;
      DivMod(n, radix);
      ToRadixIsLowerDigits(q, radix);
      var s := ToRadix(q, radix);
      var c := DigitChar(n % radix);
      assert IsLowerDigit(c, radix);
      assert forall i :: 0 <= i < |s + [c]| ==> (s + [c])[i] == if i < |s| then s[i] else c;
    }
  }

  predicate AllLowerDigits(s: string, radix: nat)
  {
    forall i :: 0 <= i < |s| ==> IsLowerDigit(s[i], radix)
  }

  predicate IsLowerDigit(c: char, radix: nat)
  {
    ('0' <= c <= '9' || 'a' <= c <= 'z') && IsDigit(c, radix)
  }

  /** A leading zero does not change the value of a digit string. */
  lemma {:induction false} DigitsValueLeadingZero(s: string, radix: nat)
    ensures DigitsValue("0" + s, radix) == DigitsValue(s, radix)
    decreases |s|
  {
    if s != [] {
      var init := s[..|s| - 1];
      assert ("0" + s)[..|"0" + s| - 1] == "0" + init;
      DigitsValueLeadingZero(init, radix);
    }
  }

  /** `s` is the decimal form of `n` as `toString()` writes it: decimal digits, no leading zero. */
  predicate IsDecimalOf(s: string, n: nat)
  {
    |s| >= 1 && AllDigits(s, 10) && (s[0] == '0' ==> s == "0") && DigitsValue(s, 10) == n
  }

  /** A digit string whose first digit is not zero is worth at least its first digit. */
  lemma {:induction false} DigitsValueAtLeastFirst(s: string, radix: nat)
    requires |s| >= 1 && radix >= 1
    ensures DigitsValue(s, radix) >= DigitValue(s[0])
    decreases |s|
  {
    if |s| > 1 {
      var init := s[..|s| - 1];
      DigitsValueAtLeastFirst(init, radix);
      assert init[0] == s[0];
      var v := DigitsValue(init, radix);
      assert DigitsValue(s, radix) == v * radix + DigitValue(s[|s| - 1]);
      MulAtLeast(v, radix);
    }
  }

  lemma MulAtLeast(v: nat, k: nat)
    requires k >= 1
    ensures v * k >= v
  {
    assert v * k == v + v * (k - 1);
  }

  /** `toString()` writes the one decimal form of `n`, and no other string is a decimal form of `n`. */
  lemma {:induction false} DecimalForm(s: string, n: nat)
    ensures IsDecimalOf(s, n) <==> s == ToDecimal(n)
    decreases |s|
  {
    if s == ToDecimal(n) {
      ToRadixValue(n, 10);
      ToRadixNoLeadingZero(n, 10);
      if s[0] == '0' {
        assert n == 0;
      }
    }
    if IsDecimalOf(s, n) && |s| == 1 {
      assert DigitsValue(s, 10) == DigitValue(s[0]) by {
        DigitsValueSnoc([], s[0], 10);
        assert [] + [s[0]] == s;
      }
      assert DigitChar(DigitValue(s[0])) == s[0];
    }
    if IsDecimalOf(s, n) && |s| > 1 {
      var init, c := s[..|s| - 1], s[|s| - 1];
      var q := DigitsValue(init, 10);
      assert init[0] == s[0] && s[0] != '0';
      assert IsDigit(init[0], 10);
      DigitsValueAtLeastFirst(init, 10);
      assert n == q * 10 + DigitValue(c);
      assert n / 10 == q && n % 10 == DigitValue(c);
      assert AllDigits(init, 10);
      DecimalForm(init, q);
      assert DigitChar(DigitValue(c)) == c;
      assert s == init + [c];
      assert n >= 10;
      assert ToDecimal(n) == ToDecimal(q) + [DigitChar(n % 10)];
    }
  }

  // ---- parseInt -------------------------------------------------------------------------------

  /** The characters `parseInt` skips before the number: StrWhiteSpaceChar of ECMA-262
      (white space of category Zs, tab, vertical tab, form feed, no-break space, byte order mark,
      and the line terminators). */
  predicate IsJsWhiteSpace(c: char)
  {
    c == ' ' || c == '\t' || c == '\n' || c == '\r' || c == 0x0B as char || c == 0x0C as char
    || c == 0xA0 as char || c == 0x1680 as char || (0x2000 <= c as int <= 0x200A)
    || c == 0x2028 as char || c == 0x2029 as char || c == 0x202F as char || c == 0x205F as char
    || c == 0x3000 as char || c == 0xFEFF as char
  }

  /** `s` without its leading white space. */
  function TrimStart(s: string): (r: string)
    ensures |r| <= |s| && r == s[|s| - |r|..]
    ensures r == [] || !IsJsWhiteSpace(r[0])
  {
    if s != [] && IsJsWhiteSpace(s[0]) then TrimStart(s[1..]) else s
  }

  /** The longest prefix of `s` made of digits of `radix`. */
  function DigitPrefix(s: string, radix: nat): (p: string)
    ensures p <= s && AllDigits(p, radix)
    ensures |p| == |s| || !IsDigit(s[|p|], radix)
  {
    if s != [] && IsDigit(s[0], radix) then [s[0]] + DigitPrefix(s[1..], radix) else []
  }

  /** The digit prefix is determined by where the digits stop. */
  lemma {:induction false} DigitPrefixOf(d: string, rest: string, radix: nat)
    requires AllDigits(d, radix)
    requires rest == [] || !IsDigit(rest[0], radix)
    ensures DigitPrefix(d + rest, radix) == d
    decreases |d|
  {
    if d != [] {
      assert (d + rest)[1..] == d[1..] + rest;
      DigitPrefixOf(d[1..], rest, radix);
    }
  }

  /** `parseInt(s, radix)`; `radix` 0 stands for an omitted radix, as it does in JavaScript.
      Leading white space is skipped, one sign is read, a `0x`/`0X` prefix is dropped when the
      radix is 16 or omitted (and then selects radix 16), and the longest run of digits that follows
      is the number; without any such digit the result is NaN. */
  function ParseInt(s: string, radix: nat): (r: JsNumber)
    ensures radix != 0 && !IsRadix(radix) ==> r == NaN
  {
    var t := TrimStart(s);
    var negative := t != [] && t[0] == '-';
    var u := if t != [] && (t[0] == '-' || t[0] == '+') then t[1..] else t;
    if radix != 0 && !IsRadix(radix) then NaN
    else
      var stripPrefix := radix == 0 || radix == 16;
      var prefixed := stripPrefix && |u| >= 2 && u[0] == '0' && (u[1] == 'x' || u[1] == 'X');
      var r := if prefixed then 16 else if radix == 0 then 10 else radix;
      var z := DigitPrefix(if prefixed then u[2..] else u, r);
      if z == [] then NaN
      else
        var v: int := DigitsValue(z, r);
        Num(if negative then -v else v)
  }

  /** `parseInt` reads back what `toString()` wrote, with radix 10 or with the radix omitted. */
  lemma ParseIntDecimal(n: nat)
    ensures ParseInt(ToDecimal(n), 10) == Num(n)
    ensures ParseInt(ToDecimal(n), 0) == Num(n)
  {
    DecimalShape(n);
  }

  /** A decimal form has no leading white space, no sign and no `0x`, and is all digits. */
  lemma DecimalShape(n: nat)
    ensures var d := ToDecimal(n);
      TrimStart(d) == d && d[0] != '-' && d[0] != '+' && !(|d| >= 2 && d[0] == '0' && (d[1] == 'x' || d[1] == 'X')) &&
      DigitPrefix(d, 10) == d && DigitsValue(d, 10) == n
  {
    var d := ToDecimal(n);
    ToRadixIsLowerDigits(n, 10);
    assert !IsJsWhiteSpace(d[0]);
    assert d == d + [];
    DigitPrefixOf(d, [], 10);
    ToRadixValue(n, 10);
    assert |d| >= 2 ==> IsLowerDigit(d[1], 10);
  }

  /** `parseInt(s, 16)` of `0x` followed by hex digits is the value of those digits. */
  lemma ParseIntHexPrefixed(d: string)
    requires d != [] && AllDigits(d, 16)
    ensures ParseInt("0x" + d, 16) == Num(DigitsValue(d, 16))
    ensures ParseInt("0x" + d, 0) == Num(DigitsValue(d, 16))
  {
    var s := "0x" + d;
    assert TrimStart(s) == s;
    assert s[2..] == d;
    assert d == d + [];
    DigitPrefixOf(d, [], 16);
  }
}
