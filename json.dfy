/** The JSON text the front-end keeps in browser storage. `Stringify` is `JSON.stringify` on the
    values the event records turn into (strings, integers, arrays, objects with their keys in
    order); `Parse` is `JSON.parse` on text of that canonical form (no white space between tokens,
    integers only). */
module Json {
  import opened Wrappers
  import opened Numerals

  datatype Value = Str(s: string) | Int(n: int) | Arr(items: seq<Value>) | Obj(members: seq<Member>)
  datatype Member = Member(key: string, value: Value)

  // ---- JSON.stringify ------------------------------------------------------------------------

  function Stringify(v: Value): string
    decreases v, 1
  {
    match v
    case Str(s) => Quote(s)
    case Int(n) => IntText(n)
    case Arr(items) => "[" + Elements(items) + "]"
    case Obj(members) => "{" + Members(members) + "}"
  }

  function Elements(items: seq<Value>): string
    decreases items, 0
  {
    if items == [] then ""
    else if |items| == 1 then Stringify(items[0])
    else Stringify(items[0]) + "," + Elements(items[1..])
  }

  function Members(members: seq<Member>): string
    decreases members, 0
  {
    if members == [] then ""
    else
      var m := Quote(members[0].key) + ":" + Stringify(members[0].value);
      if |members| == 1 then m else m + "," + Members(members[1..])
  }

  function IntText(n: int): string
  {
    if n < 0 then "-" + ToDecimal(-n) else ToDecimal(n)
  }

  function Quote(s: string): string
  {
    "\"" + Escape(s) + "\""
  }

  function Escape(s: string): string
  {
    if s == [] then "" else EscapeChar(s[0]) + Escape(s[1..])
  }

  /** How `JSON.stringify` writes one character of a string: the quote and the backslash are
      escaped, the control characters with a short escape get it, the other control characters
      become a `\u00xx` escape in lower-case hex, and every other character stands for itself. */
  function EscapeChar(c: char): string
  {
    if c == '"' then "\\\""
    else if c == '\\' then "\\\\"
    else if c == 8 as char then "\\b"
    else if c == '\t' then "\\t"
    else if c == '\n' then "\\n"
    else if c == 12 as char then "\\f"
    else if c == '\r' then "\\r"
    else if (c as int) < 0x20 then "\\u00" + [DigitChar(c as int / 16), DigitChar(c as int % 16)]
    else [c]
  }

  // ---- JSON.parse ----------------------------------------------------------------------------

  /** The value the whole of `s` denotes, or None where `JSON.parse` throws. */
  function Parse(s: string): (r: Option<Value>)
  {
    match ParseValue(s)
    case Some((v, rest)) => if rest == [] then Some(v) else None
    case None => None
  }

  /** The value at the front of `s`, and the text after it. */
  function ParseValue(s: string): (r: Option<(Value, string)>)
    ensures r.Some? ==> |r.value.1| < |s|
    decreases |s|, 0
  {
    if s == [] then None
    else if s[0] == '"' then AsStr(ParseStringBody(s[1..]))
    else if s[0] == '[' then AsArr(ParseElements(s[1..]))
    else if s[0] == '{' then AsObj(ParseMembers(s[1..]))
    else ParseNumber(s)
  }

  function AsStr(r: Option<(string, string)>): (r': Option<(Value, string)>)
    ensures r'.Some? <==> r.Some?
    ensures r.Some? ==> r'.value == (Str(r.value.0), r.value.1)
  {
    match r
    case Some((t, rest)) => Some((Str(t), rest))
    case None => None
  }

  function AsArr(r: Option<(seq<Value>, string)>): (r': Option<(Value, string)>)
    ensures r'.Some? <==> r.Some?
    ensures r.Some? ==> r'.value == (Arr(r.value.0), r.value.1)
  {
    match r
    case Some((items, rest)) => Some((Arr(items), rest))
    case None => None
  }

  function AsObj(r: Option<(seq<Member>, string)>): (r': Option<(Value, string)>)
    ensures r'.Some? <==> r.Some?
    ensures r.Some? ==> r'.value == (Obj(r.value.0), r.value.1)
  {
    match r
    case Some((members, rest)) => Some((Obj(members), rest))
    case None => None
  }

  /** An integer: an optional minus sign, then `0` or a non-zero digit followed by more digits. */
  function ParseNumber(s: string): (r: Option<(Value, string)>)
    ensures r.Some? ==> |r.value.1| < |s|
  {
    var negative := s != [] && s[0] == '-';
    var t := if negative then s[1..] else s;
    if t == [] || !IsDigit(t[0], 10) then None
    else
      var d := if t[0] == '0' then "0" else DigitPrefix(t, 10);
      Some((Int(Signed(negative, DigitsValue(d, 10))), t[|d|..]))
  }

  function Signed(negative: bool, n: nat): int
  {
    if negative then -(n as int) else n
  }

  /** The elements of an array whose `[` has been read, up to and including its `]`. */
  function ParseElements(s: string): (r: Option<(seq<Value>, string)>)
    ensures r.Some? ==> |r.value.1| < |s|
    decreases |s|, 2
  {
    if s != [] && s[0] == ']' then Some(([], s[1..])) else ParseElementList(s)
  }

  function ParseElementList(s: string): (r: Option<(seq<Value>, string)>)
    ensures r.Some? ==> |r.value.1| < |s|
    decreases |s|, 1
  {
    match ParseValue(s)
    case None => None
    case Some((v, rest)) => ElementsAfter(v, rest)
  }

  /** The array elements from `v` on, `v` read and `rest` following it. */
  function ElementsAfter(v: Value, rest: string): (r: Option<(seq<Value>, string)>)
    ensures r.Some? ==> |r.value.1| < |rest|
    decreases |rest|, 3
  {
    if rest != [] && rest[0] == ',' then Cons(v, ParseElementList(rest[1..]))
    else if rest != [] && rest[0] == ']' then Some(([v], rest[1..]))
    else None
  }

  function Cons<T>(x: T, r: Option<(seq<T>, string)>): (r': Option<(seq<T>, string)>)
    ensures r'.Some? <==> r.Some?
    ensures r.Some? ==> r'.value == ([x] + r.value.0, r.value.1)
  {
    match r
    case Some((xs, rest)) => Some(([x] + xs, rest))
    case None => None
  }

  /** The members of an object whose `{` has been read, up to and including its `}`. */
  function ParseMembers(s: string): (r: Option<(seq<Member>, string)>)
    ensures r.Some? ==> |r.value.1| < |s|
    decreases |s|, 2
  {
    if s != [] && s[0] == '}' then Some(([], s[1..])) else ParseMemberList(s)
  }

  function ParseMemberList(s: string): (r: Option<(seq<Member>, string)>)
    ensures r.Some? ==> |r.value.1| < |s|
    decreases |s|, 1
  {
    if s == [] || s[0] != '"' then None
    else
      match ParseStringBody(s[1..])
      case None => None
      case Some((key, afterKey)) =>
        if afterKey == [] || afterKey[0] != ':' then None
        else
          match ParseValue(afterKey[1..])
          case None => None
          case Some((v, rest)) => MembersAfter(Member(key, v), rest)
  }

  /** The object members from `m` on, `m` read and `rest` following it. */
  function MembersAfter(m: Member, rest: string): (r: Option<(seq<Member>, string)>)
    ensures r.Some? ==> |r.value.1| < |rest|
    decreases |rest|, 3
  {
    if rest != [] && rest[0] == ',' then Cons(m, ParseMemberList(rest[1..]))
    else if rest != [] && rest[0] == '}' then Some(([m], rest[1..]))
    else None
  }

  /** The characters of a string whose opening `"` has been read, and the text after its closing `"`.
      A raw control character is an error, as in `JSON.parse`. */
  function ParseStringBody(s: string): (r: Option<(string, string)>)
    ensures r.Some? ==> |r.value.1| < |s|
  {
    if s == [] then None
    else if s[0] == '"' then Some(([], s[1..]))
    else if s[0] == '\\' then
      match ParseEscape(s[1..])
      case None => None
      case Some((c, rest)) => Prepend(c, ParseStringBody(rest))
    else if (s[0] as int) < 0x20 then None
    else Prepend(s[0], ParseStringBody(s[1..]))
  }

  function Prepend(c: char, r: Option<(string, string)>): (r': Option<(string, string)>)
    ensures r'.Some? <==> r.Some?
    ensures r.Some? ==> r'.value == ([c] + r.value.0, r.value.1)
  {
    match r
    case Some((t, rest)) => Some(([c] + t, rest))
    case None => None
  }

  /** The character an escape denotes, the backslash already read. A `\u` escape of a lone
      surrogate half is refused: a string here holds Unicode scalar values only. */
  function ParseEscape(s: string): (r: Option<(char, string)>)
    ensures r.Some? ==> |r.value.1| < |s|
  {
    if s == [] then None
    else if s[0] == '"' then Some(('"', s[1..]))
    else if s[0] == '\\' then Some(('\\', s[1..]))
    else if s[0] == '/' then Some(('/', s[1..]))
    else if s[0] == 'b' then Some((8 as char, s[1..]))
    else if s[0] == 't' then Some(('\t', s[1..]))
    else if s[0] == 'n' then Some(('\n', s[1..]))
    else if s[0] == 'f' then Some((12 as char, s[1..]))
    else if s[0] == 'r' then Some(('\r', s[1..]))
    else if s[0] == 'u' && |s| >= 5 && AllDigits(s[1..5], 16) then
      var code := DigitsValue(s[1..5], 16);
      if code < 0xD800 || 0xE000 <= code < 0x11_0000 then Some((code as char, s[5..])) else None
    else None
  }

  // ---- Reading back what was written ---------------------------------------------------------

  /** What may follow a value inside the text `Stringify` writes. */
  predicate CanFollow(rest: string)
  {
    rest == [] || rest[0] == ',' || rest[0] == ']' || rest[0] == '}'
  }

  /** `JSON.parse(JSON.stringify(v))` is `v`. */
  lemma ParseStringify(v: Value)
    ensures Parse(Stringify(v)) == Some(v)
  {
    assert Stringify(v) + [] == Stringify(v);
    ParseStringifyValue(v, []);
  }

  lemma {:induction false} ParseStringifyValue(v: Value, rest: string)
    requires CanFollow(rest)
    ensures ParseValue(Stringify(v) + rest) == Some((v, rest))
    decreases v, 2
  {
    match v
    case Str(str) => ParseStringifyStr(str, rest);
    case Int(n) => ParseIntText(n, rest);
    case Arr(items) => ParseStringifyArr(items, rest);
    case Obj(members) => ParseStringifyObj(members, rest);
  }

  lemma ParseStringifyStr(str: string, rest: string)
    ensures ParseValue(Stringify(Str(str)) + rest) == Some((Str(str), rest))
  {
    ParseEscaped(str, rest);
    ParseValueOpening(Escape(str) + "\"" + rest, '"');
    assert Stringify(Str(str)) + rest == "\"" + (Escape(str) + "\"" + rest);
  }

  lemma {:induction false} ParseStringifyArr(items: seq<Value>, rest: string)
    ensures ParseValue(Stringify(Arr(items)) + rest) == Some((Arr(items), rest))
    decreases items, 1
  {
    var body := Elements(items) + "]" + rest;
    ParseValueOpening(body, '[');
    assert Stringify(Arr(items)) + rest == "[" + body;
    if items == [] {
      assert body == "]" + rest;
    } else {
      ParseStringifyElements(items, rest);
      ElementsStart(items, "]" + rest);
    }
  }

  lemma {:induction false} ParseStringifyObj(members: seq<Member>, rest: string)
    ensures ParseValue(Stringify(Obj(members)) + rest) == Some((Obj(members), rest))
    decreases members, 1
  {
    var body := Members(members) + "}" + rest;
    ParseValueOpening(body, '{');
    assert Stringify(Obj(members)) + rest == "{" + body;
    if members == [] {
      assert body == "}" + rest;
    } else {
      ParseStringifyMembers(members, rest);
      assert body[0] == '"';
    }
  }

  /** How `ParseValue` continues after a quote or an opening bracket. */
  lemma ParseValueOpening(body: string, open: char)
    requires open == '"' || open == '[' || open == '{'
    ensures open == '"' ==> ParseValue([open] + body) == AsStr(ParseStringBody(body))
    ensures open == '[' ==> ParseValue([open] + body) == AsArr(ParseElements(body))
    ensures open == '{' ==> ParseValue([open] + body) == AsObj(ParseMembers(body))
  {
    assert ([open] + body)[1..] == body;
  }

  /** A written value never begins with a closing bracket. */
  lemma ValueStart(v: Value, t: string)
    ensures |Stringify(v) + t| > 0 && (Stringify(v) + t)[0] in {'"', '[', '{', '-', '0', '1', '2', '3', '4', '5', '6', '7', '8', '9'}
  {
    match v
    case Str(_) =>
    case Int(n) =>
      var m: nat := if n < 0 then -n else n;
      ToRadixIsLowerDigits(m, 10);
      assert IsLowerDigit(ToDecimal(m)[0], 10);
    case Arr(_) =>
    case Obj(_) =>
  }

  lemma ElementsStart(items: seq<Value>, t: string)
    requires items != []
    ensures |Elements(items) + t| > 0 && (Elements(items) + t)[0] != ']'
  {
    if |items| == 1 {
      ValueStart(items[0], t);
    } else {
      ValueStart(items[0], "," + Elements(items[1..]) + t);
      assert Elements(items) + t == Stringify(items[0]) + ("," + Elements(items[1..]) + t);
    }
  }

  lemma {:induction false} ParseStringifyElements(items: seq<Value>, rest: string)
    requires items != []
    ensures ParseElementList(Elements(items) + "]" + rest) == Some((items, rest))
    decreases items, 0
  {
    var tail := if |items| == 1 then "]" + rest else "," + (Elements(items[1..]) + "]" + rest);
    var s := Stringify(items[0]) + tail;
    ElementsLayout(items, rest, tail);
    ParseStringifyValue(items[0], tail);
    assert ParseElementList(s) == ElementsAfter(items[0], tail);
    if |items| == 1 {
      ElementsAfterClose(items[0], rest);
      assert [items[0]] == items;
    } else {
      ElementsAfterComma(items[0], Elements(items[1..]) + "]" + rest);
      ParseStringifyElements(items[1..], rest);
      assert [items[0]] + items[1..] == items;
    }
  }

  lemma ElementsAfterClose(v: Value, rest: string)
    ensures ElementsAfter(v, "]" + rest) == Some(([v], rest))
  {
    assert ("]" + rest)[1..] == rest;
  }

  lemma ElementsAfterComma(v: Value, more: string)
    ensures ElementsAfter(v, "," + more) == Cons(v, ParseElementList(more))
  {
    assert ("," + more)[1..] == more;
  }

  lemma {:induction false} ParseStringifyMembers(members: seq<Member>, rest: string)
    requires members != []
    ensures ParseMemberList(Members(members) + "}" + rest) == Some((members, rest))
    decreases members, 0
  {
    var m := members[0];
    var tail := if |members| == 1 then "}" + rest else "," + (Members(members[1..]) + "}" + rest);
    var afterKey := ":" + (Stringify(m.value) + tail);
    var s := "\"" + (Escape(m.key) + "\"" + afterKey);
    MembersLayout(members, rest, tail);
    MemberListStep(m.key, afterKey, s);
    assert afterKey[1..] == Stringify(m.value) + tail;
    ParseStringifyValue(m.value, tail);
    assert ParseMemberList(s) == MembersAfter(Member(m.key, m.value), tail);
    if |members| == 1 {
      assert tail[1..] == rest;
      assert [m] == members;
    } else {
      assert tail[1..] == Members(members[1..]) + "}" + rest;
      ParseStringifyMembers(members[1..], rest);
      assert [m] + members[1..] == members;
    }
  }

  lemma ElementsLayout(items: seq<Value>, rest: string, tail: string)
    requires items != []
    requires tail == if |items| == 1 then "]" + rest else "," + (Elements(items[1..]) + "]" + rest)
    ensures Elements(items) + "]" + rest == Stringify(items[0]) + tail
  {
    if |items| > 1 {
      SeparatedLayout(Stringify(items[0]), Elements(items[1..]), "]", rest);
    }
  }

  lemma MembersLayout(members: seq<Member>, rest: string, tail: string)
    requires members != []
    requires tail == if |members| == 1 then "}" + rest else "," + (Members(members[1..]) + "}" + rest)
    ensures Members(members) + "}" + rest
         == "\"" + (Escape(members[0].key) + "\"" + (":" + (Stringify(members[0].value) + tail)))
  {
    var m := members[0];
    var head := Quote(m.key) + ":" + Stringify(m.value);
    if |members| > 1 {
      SeparatedLayout(head, Members(members[1..]), "}", rest);
    }
    QuotedLayout(Escape(m.key), Stringify(m.value), tail);
  }

  lemma SeparatedLayout(head: string, more: string, close: string, rest: string)
    ensures (head + "," + more) + close + rest == head + ("," + (more + close + rest))
  {
  }

  lemma QuotedLayout(e: string, v: string, tail: string)
    ensures ("\"" + e + "\"") + ":" + v + tail == "\"" + (e + "\"" + (":" + (v + tail)))
  {
  }

  /** A member list that starts with a written key goes on with the value after the colon. */
  lemma MemberListStep(key: string, afterKey: string, s: string)
    requires s == "\"" + (Escape(key) + "\"" + afterKey)
    requires afterKey != [] && afterKey[0] == ':'
    ensures var r := ParseValue(afterKey[1..]);
      r.Some? ==> ParseMemberList(s) == MembersAfter(Member(key, r.value.0), r.value.1)
  {
    ParseEscaped(key, afterKey);
    assert s[1..] == Escape(key) + "\"" + afterKey;
  }

  lemma ParseIntText(n: int, rest: string)
    requires CanFollow(rest)
    ensures ParseValue(IntText(n) + rest) == Some((Int(n), rest))
  {
    var m: nat := if n < 0 then -n else n;
    var d := ToDecimal(m);
    var t := d + rest;
    var s := if n < 0 then "-" + t else t;
    assert IntText(n) + rest == s;
    ToRadixIsLowerDigits(m, 10);
    assert IsLowerDigit(d[0], 10);
    assert s != [] && s[0] != '"' && s[0] != '[' && s[0] != '{';
    assert ParseValue(s) == ParseNumber(s);
    assert (if s[0] == '-' then s[1..] else s) == t;
    ParseIntDigits(m, rest);
  }

  /** The digits of `m` followed by what can follow a value read back as `m`. */
  lemma ParseIntDigits(m: nat, rest: string)
    requires CanFollow(rest)
    ensures var d := ToDecimal(m);
      var t := d + rest;
      t != [] && IsDigit(t[0], 10) &&
      (if t[0] == '0' then "0" else DigitPrefix(t, 10)) == d &&
      DigitsValue(d, 10) == m && t[|d|..] == rest
  {
    var d := ToDecimal(m);
    var t := d + rest;
    assert t[0] == d[0];
    DigitPrefixOf(d, rest, 10);
    ToRadixValue(m, 10);
    ToRadixNoLeadingZero(m, 10);
    if d[0] == '0' {
      assert m == 0;
      assert d == "0";
    }
    assert t[|d|..] == rest;
  }

  /** The body of a quoted string reads back as the string, whatever follows the closing quote. */
  lemma {:induction false} ParseEscaped(s: string, rest: string)
    ensures ParseStringBody(Escape(s) + "\"" + rest) == Some((s, rest))
    decreases |s|
  {
    if s == [] {
      assert Escape(s) + "\"" + rest == "\"" + rest;
    } else {
      var t := Escape(s[1..]) + "\"" + rest;
      assert Escape(s) + "\"" + rest == EscapeChar(s[0]) + t;
      ParseEscaped(s[1..], rest);
      ParseEscapeChar(s[0], t);
      assert [s[0]] + s[1..] == s;
    }
  }

  lemma ParseEscapeChar(c: char, t: string)
    ensures ParseStringBody(EscapeChar(c) + t) == Prepend(c, ParseStringBody(t))
  {
    var e := EscapeChar(c);
    if c == '"' || c == '\\' || c == 8 as char || c == '\t' || c == '\n' || c == 12 as char || c == '\r' {
      assert |e| == 2 && e[0] == '\\';
      assert (e + t)[1..] == [e[1]] + t;
    } else if (c as int) < 0x20 {
      ControlEscape(c, t);
    } else {
      assert (e + t)[1..] == t;
    }
  }

  /** A `\u00xx` escape reads back as the control character it was written for. */
  lemma ControlEscape(c: char, t: string)
    requires (c as int) < 0x20
    requires c != 8 as char && c != '\t' && c != '\n' && c != 12 as char && c != '\r'
    ensures ParseStringBody(EscapeChar(c) + t) == Prepend(c, ParseStringBody(t))
  {
    var h, l := DigitChar(c as int / 16), DigitChar(c as int % 16);
    var w := "u00" + [h, l] + t;
    assert EscapeChar(c) + t == "\\" + w;
    assert ("\\" + w)[1..] == w;
    assert w[1..5] == ['0', '0', h, l];
    assert w[5..] == t;
    assert DigitsValue(['0', '0', h, l], 16) == c as int by {
      DigitsValueSnoc(['0', '0', h], l, 16);
      DigitsValueSnoc(['0', '0'], h, 16);
      DigitsValueSnoc(['0'], '0', 16);
      DigitsValueSnoc([], '0', 16);
      assert [] + ['0'] == ['0'];
      assert ['0'] + ['0'] == ['0', '0'];
      assert ['0', '0'] + [h] == ['0', '0', h];
      assert ['0', '0', h] + [l] == ['0', '0', h, l];
    }
    assert ParseEscape(w) == Some((c, t));
  }

  // ---- Objects -------------------------------------------------------------------------------

  /** The value of `key` in the members of a parsed object; with repeated keys the last one counts,
      as with `JSON.parse`. */
  function Get(members: seq<Member>, key: string): (r: Option<Value>)
    ensures r.Some? <==> exists i :: 0 <= i < |members| && members[i].key == key
  {
    if members == [] then None
    else if members[|members| - 1].key == key then Some(members[|members| - 1].value)
    else Get(members[..|members| - 1], key)
  }
}
