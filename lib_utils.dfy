/** `numberToHex` of frontend/src/lib/utils.ts: a non-negative integer as `0x` followed by an
    even number of lower-case hex digits. */
module LibUtils {
  import opened Numerals

  /** `num.toString(16)`, with one `0` put in front when that has an odd number of digits. */
  function PaddedHex(num: nat): (digits: string)
    ensures |digits| % 2 == 0 && AllDigits(digits, 16)
  {
    var hexValue := ToRadix(num, 16);
    if |hexValue| % 2 != 0 then "0" + hexValue else hexValue
  }

  function NumberToHex(num: nat): (r: string)
    ensures |r| >= 4 && r[..2] == "0x"
    ensures (|r| - 2) % 2 == 0
  {
    "0x" + PaddedHex(num)
  }

  /** The digits after `0x` are the input in base 16. */
  lemma NumberToHexValue(num: nat)
    ensures DigitsValue(NumberToHex(num)[2..], 16) == num
  {
    var hexValue := ToRadix(num, 16);
    assert NumberToHex(num)[2..] == PaddedHex(num);
    ToRadixValue(num, 16);
    DigitsValueLeadingZero(hexValue, 16);
  }

  /** At most one `0` is added, and only to an odd-length `toString(16)`; a positive input gets no
      other leading zero. */
  lemma NumberToHexPadding(num: nat)
    ensures |NumberToHex(num)| - 2 - |ToRadix(num, 16)| in {0, 1}
    ensures |ToRadix(num, 16)| % 2 == 0 ==> NumberToHex(num)[2..] == ToRadix(num, 16)
    ensures |ToRadix(num, 16)| % 2 == 1 ==> NumberToHex(num)[2..] == "0" + ToRadix(num, 16)
    ensures num > 0 ==> (NumberToHex(num)[2] == '0' <==> |ToRadix(num, 16)| % 2 == 1)
  {
    ToRadixNoLeadingZero(num, 16);
    assert NumberToHex(num)[2..] == PaddedHex(num);
  }

  /** Zero is written `0x00`: `toString(16)` gives the odd-length `0`, which is padded. */
  lemma NumberToHexZero()
    ensures NumberToHex(0) == "0x00"
  {
  }

  /** `parseInt(numberToHex(n), 16)` is `n` again: `parseInt` drops the `0x` and the padding zero. */
  lemma NumberToHexParses(num: nat)
    ensures ParseInt(NumberToHex(num), 16) == Num(num)
    ensures ParseInt(NumberToHex(num), 0) == Num(num)
  {
    var digits := PaddedHex(num);
    assert NumberToHex(num) == "0x" + digits;
    ParseIntHexPrefixed(digits);
    NumberToHexValue(num);
    assert NumberToHex(num)[2..] == digits;
  }
}
