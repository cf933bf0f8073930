/** Values and string operations shared by the whole model: an Option type for
    JavaScript's optional fields, JavaScript truthiness of those fields, and the
    few String/Number built-ins the console relies on (trim, split, join, includes,
    number-to-text, parseInt). */
module Common {

  datatype Option<T> = None | Some(value: T) {
    function GetOr(default: T): T {
      match this
      case Some(v) => v
      case None => default
    }
  }

  /** A string-valued field is truthy in JavaScript when it is present and non-empty. */
  predicate Truthy(o: Option<string>) {
    o.Some? && o.value != ""
  }

  /** A number-valued field is truthy when it is present and not zero. */
  predicate TruthyNum(o: Option<int>) {
    o.Some? && o.value != 0
  }

  // ---------------------------------------------------------------------------
  // Characters

  /** The characters JavaScript's `\s` and `String.prototype.trim` treat as white
      space: WhiteSpace and LineTerminator of ECMA-262. */
  predicate IsWs(c: char) {
    c == ' ' || c == '\t' || c == '\n' || c == '\r' || c == '\U{000B}' || c == '\U{000C}'
    || c == '\U{00A0}' || c == '\U{1680}' || ('\U{2000}' <= c <= '\U{200A}')
    || c == '\U{2028}' || c == '\U{2029}' || c == '\U{202F}' || c == '\U{205F}'
    || c == '\U{3000}' || c == '\U{FEFF}'
  }

  predicate IsDigit(c: char) {
    '0' <= c <= '9'
  }

  predicate AllDigits(s: string) {
    forall i :: 0 <= i < |s| ==> IsDigit(s[i])
  }

  function DigitChar(d: nat): (c: char)
    requires d < 10
    ensures IsDigit(c)
  {
    ('0' as int + d) as char
  }

  function DigitValue(c: char): (d: nat)
    requires IsDigit(c)
    ensures d < 10
  {
    c as int - '0' as int
  }

  // ---------------------------------------------------------------------------
  // Number to text (Number.prototype.toString for integers)

  function NatToString(n: nat): (r: string)
    ensures |r| >= 1 && AllDigits(r)
    decreases n
  {
    if n < 10 then [DigitChar(n)] else NatToString(n / 10) + [DigitChar(n % 10)]
  }

  function IntToString(i: int): string {
    if i < 0 then "-" + NatToString(-i) else NatToString(i)
  }

  /** The value of a string of decimal digits, read left to right. */
  function DigitsValue(s: string): nat
    requires AllDigits(s)
    decreases |s|
  {
    if s == [] then 0 else DigitsValue(s[..|s| - 1]) * 10 + DigitValue(s[|s| - 1])
  }

  /** Reading back the decimal text of a number gives the number. */
  lemma {:induction false} DigitsValueOfNatToString(n: nat)
    ensures DigitsValue(NatToString(n)) == n
    decreases n
  {
    var r := NatToString(n);
    if n >= 10 {
      DigitsValueOfNatToString(n / 10);
      assert r[..|r| - 1] == NatToString(n / 10);
    }
  }

  /** Decimal text is injective: distinct numbers never share a text. */
  lemma NatToStringInjective(m: nat, n: nat)
    requires NatToString(m) == NatToString(n)
    ensures m == n
  {
    DigitsValueOfNatToString(m);
    DigitsValueOfNatToString(n);
  }

  // ---------------------------------------------------------------------------
  // parseInt with the default radix

  function TrimStart(s: string): string
    decreases |s|
  {
    if s != [] && IsWs(s[0]) then TrimStart(s[1..]) else s
  }

  function TrimEnd(s: string): string
    decreases |s|
  {
    if s != [] && IsWs(s[|s| - 1]) then TrimEnd(s[..|s| - 1]) else s
  }

  /** String.prototype.trim */
  function Trim(s: string): string {
    TrimEnd(TrimStart(s))
  }

  /** The longest prefix of `s` made of decimal digits. */
  function DigitPrefix(s: string): (r: string)
    ensures |r| <= |s| && AllDigits(r) && r == s[..|r|]
    ensures |r| == |s| || !IsDigit(s[|r|])
    decreases |s|
  {
    if s != [] && IsDigit(s[0]) then [s[0]] + DigitPrefix(s[1..]) else []
  }

  /** The value of a hexadecimal digit of either case; None for any other character. */
  function HexValue(c: char): Option<nat> {
    if '0' <= c <= '9' then Some(c as int - '0' as int)
    else if 'a' <= c <= 'f' then Some(c as int - 'a' as int + 10)
    else if 'A' <= c <= 'F' then Some(c as int - 'A' as int + 10)
    else None
  }

  predicate AllHex(s: string) {
    forall i :: 0 <= i < |s| ==> HexValue(s[i]).Some?
  }

  /** The longest prefix of `s` made of hexadecimal digits. */
  function HexPrefix(s: string): (r: string)
    ensures |r| <= |s| && AllHex(r) && r == s[..|r|]
    ensures |r| == |s| || HexValue(s[|r|]).None?
    decreases |s|
  {
    if s != [] && HexValue(s[0]).Some? then [s[0]] + HexPrefix(s[1..]) else []
  }

  function HexDigitsValue(s: string): nat
    requires AllHex(s)
    decreases |s|
  {
    if s == [] then 0 else HexDigitsValue(s[..|s| - 1]) * 16 + HexValue(s[|s| - 1]).value
  }

  /** `0x` or `0X`, which switches parseInt without a radix to base 16. */
  predicate HexMarked(s: string) {
    |s| >= 2 && s[0] == '0' && (s[1] == 'x' || s[1] == 'X')
  }

  /** parseInt(s) without a radix: leading white space, an optional sign, then
      either `0x`/`0X` and the longest run of hexadecimal digits, or the longest
      run of decimal digits; None stands for NaN (no digit in that run). */
  function ParseInt(s: string): Option<int> {
    var t := TrimStart(s);
    var neg := |t| > 0 && t[0] == '-';
    var rest := if |t| > 0 && (t[0] == '-' || t[0] == '+') then t[1..] else t;
    var hex := HexMarked(rest);
    var ds := if hex then HexPrefix(rest[2..]) else DigitPrefix(rest);
    var v: int := if hex then HexDigitsValue(ds) else DigitsValue(ds);
    if ds == [] then None
    else if neg then Some(-v)
    else Some(v)
  }

  lemma {:induction false} DigitPrefixOfDigits(s: string)
    requires AllDigits(s)
    ensures DigitPrefix(s) == s
    decreases |s|
  {
    if s != [] {
      DigitPrefixOfDigits(s[1..]);
      assert [s[0]] + s[1..] == s;
    }
  }

  lemma ParseIntOfPlainDigits(digits: string)
    requires digits != [] && AllDigits(digits)
    ensures ParseInt(digits) == Some(DigitsValue(digits))
  {
    assert !IsWs(digits[0]) && digits[0] != '-' && digits[0] != '+';
    assert TrimStart(digits) == digits;
    assert !HexMarked(digits) by {
      if |digits| >= 2 { assert IsDigit(digits[1]); }
    }
    DigitPrefixOfDigits(digits);
  }

  lemma ParseIntOfNegatedDigits(digits: string)
    requires digits != [] && AllDigits(digits)
    ensures var v: int := DigitsValue(digits); ParseInt("-" + digits) == Some(-v)
  {
    var s := "-" + digits;
    assert s[0] == '-';
    assert TrimStart(s) == s;
    assert s[1..] == digits;
    assert !HexMarked(digits) by {
      if |digits| >= 2 { assert IsDigit(digits[1]); }
    }
    DigitPrefixOfDigits(digits);
    assert DigitPrefix(s[1..]) == digits;
  }

  /** parseInt undoes Number.prototype.toString on every integer. */
  lemma ParseIntOfIntToString(i: int)
    ensures ParseInt(IntToString(i)) == Some(i)
  {
    var n: nat := if i < 0 then -i else i;
    var digits := NatToString(n);
    DigitsValueOfNatToString(n);
    assert IsDigit(digits[0]);
    if i < 0 {
      ParseIntOfNegatedDigits(digits);
    } else {
      ParseIntOfPlainDigits(digits);
    }
  }

  lemma {:induction false} HexPrefixOfHex(s: string)
    requires AllHex(s)
    ensures HexPrefix(s) == s
    decreases |s|
  {
    if s != [] {
      HexPrefixOfHex(s[1..]);
      assert [s[0]] + s[1..] == s;
    }
  }

  /** `0x` followed by hexadecimal digits reads as their base-16 value (a sign
      in front applies as ParseIntSign says). */
  lemma ParseIntOfHex(mark: char, digits: string)
    requires mark == 'x' || mark == 'X'
    requires digits != [] && AllHex(digits)
    ensures ParseInt(['0', mark] + digits) == Some(HexDigitsValue(digits))
  {
    var rest := ['0', mark] + digits;
    assert rest[2..] == digits;
    HexPrefixOfHex(digits);
    assert TrimStart(rest) == rest;
  }

  /** A sign in front of a number that starts with neither white space nor a
      sign negates it or leaves it as it is. */
  lemma ParseIntSign(sign: string, rest: string)
    requires sign == "+" || sign == "-"
    requires rest == [] || (!IsWs(rest[0]) && rest[0] != '-' && rest[0] != '+')
    ensures ParseInt(sign + rest) == match ParseInt(rest)
                                     case None => None
                                     case Some(v) => Some(if sign == "-" then -v else v)
  {
    var s := sign + rest;
    assert s[0] == sign[0] && s[1..] == rest;
    assert TrimStart(s) == s;
    assert TrimStart(rest) == rest;
  }

  /** `0x` with no hexadecimal digit after it is NaN, even when decimal digits
      could be read before the `x`. */
  lemma ParseIntOfBareHexMark(tail: string)
    requires tail == [] || HexValue(tail[0]).None?
    ensures ParseInt("0x" + tail) == None
  {
    var s := "0x" + tail;
    assert TrimStart(s) == s;
    assert s[2..] == tail;
  }


  // ---------------------------------------------------------------------------
  // Substrings

  predicate IsPrefix(p: string, s: string) {
    |p| <= |s| && s[..|p|] == p
  }

  /** String.prototype.endsWith */
  predicate EndsWith(s: string, suffix: string) {
    |suffix| <= |s| && s[|s| - |suffix|..] == suffix
  }

  lemma ConcatAssoc(a: string, b: string, c: string)
    ensures (a + b) + c == a + (b + c)
  {
  }

  lemma Regroup(a: string, b: string, c: string, d: string)
    ensures a + (b + c + d) == a + b + c + d
  {
  }

  lemma PrefixOfConcat(a: string, b: string)
    ensures IsPrefix(a, a + b)
  {
    assert (a + b)[..|a|] == a;
  }

  lemma EndsWithConcat(a: string, b: string)
    ensures EndsWith(a + b, b)
  {
    assert (a + b)[|a|..] == b;
  }

  /** String.prototype.includes */
  predicate Contains(s: string, sub: string)
    decreases |s|
  {
    IsPrefix(sub, s) || (s != [] && Contains(s[1..], sub))
  }

  /** includes holds exactly when the text occurs at some position. */
  lemma {:induction false} ContainsAt(s: string, sub: string, k: nat)
    requires k + |sub| <= |s| && s[k..k + |sub|] == sub
    ensures Contains(s, sub)
    decreases k
  {
    if k > 0 {
      assert s[1..][k - 1..k - 1 + |sub|] == sub;
      ContainsAt(s[1..], sub, k - 1);
    } else {
      assert s[..|sub|] == sub;
    }
  }

  /** A text found in the middle of a concatenation is included in it. */
  lemma ContainsMiddle(a: string, b: string, c: string)
    ensures Contains(a + b + c, b)
  {
    var s := a + b + c;
    assert s[|a|..|a| + |b|] == b;
    ContainsAt(s, b, |a|);
  }

  /** A text between four others, grouped as a command line is built, is included. */
  lemma ContainsInside(z: string, a: string, f: string, b: string, t: string)
    ensures Contains(z + (a + f + b) + t, f)
  {
    assert z + (a + f + b) + t == (z + a) + f + (b + t);
    ContainsMiddle(z + a, f, b + t);
  }

  /** The position at which an included text occurs. */
  lemma {:induction false} ContainsIndex(s: string, sub: string) returns (k: nat)
    requires Contains(s, sub)
    ensures k + |sub| <= |s| && s[k..k + |sub|] == sub
    decreases |s|
  {
    if IsPrefix(sub, s) {
      k := 0;
    } else {
      var j := ContainsIndex(s[1..], sub);
      k := j + 1;
      assert s[k..k + |sub|] == s[1..][j..j + |sub|];
    }
  }

  /** A text that starts an included text is included too. */
  lemma ContainsStart(s: string, sub: string, p: string)
    requires Contains(s, sub) && IsPrefix(p, sub)
    ensures Contains(s, p)
  {
    var k := ContainsIndex(s, sub);
    assert s[k..k + |p|] == sub[..|p|];
    ContainsAt(s, p, k);
  }

  /** Text included in either half of a concatenation is included in the whole. */
  lemma ContainsConcat(a: string, b: string, sub: string)
    requires Contains(a, sub) || Contains(b, sub)
    ensures Contains(a + b, sub)
  {
    if Contains(a, sub) {
      var k := ContainsIndex(a, sub);
      assert (a + b)[k..k + |sub|] == a[k..k + |sub|];
      ContainsAt(a + b, sub, k);
    } else {
      var k := ContainsIndex(b, sub);
      assert (a + b)[|a| + k..|a| + k + |sub|] == b[k..k + |sub|];
      ContainsAt(a + b, sub, |a| + k);
    }
  }

  /** Every part of a join is included in the joined text. */
  lemma {:induction false} JoinContainsPart(parts: seq<string>, sep: string, i: nat)
    requires i < |parts|
    ensures Contains(Join(parts, sep), parts[i])
    decreases |parts|
  {
    if |parts| == 1 {
      ContainsMiddle("", parts[0], "");
      assert "" + parts[0] + "" == parts[0];
    } else if i == 0 {
      ContainsMiddle("", parts[0], sep + Join(parts[1..], sep));
      assert "" + parts[0] + (sep + Join(parts[1..], sep)) == Join(parts, sep);
    } else {
      JoinContainsPart(parts[1..], sep, i - 1);
      ContainsConcat(parts[0] + sep, Join(parts[1..], sep), parts[i]);
      assert (parts[0] + sep) + Join(parts[1..], sep) == Join(parts, sep);
    }
  }

  /** A one-character text is included exactly when the character occurs. */
  lemma ContainsChar(s: string, c: char)
    ensures Contains(s, [c]) <==> c in s
  {
    if c in s {
      var k :| 0 <= k < |s| && s[k] == c;
      assert s[k..k + 1] == [c];
      ContainsAt(s, [c], k);
    }
    if Contains(s, [c]) {
      var k := ContainsIndex(s, [c]);
      assert s[k] == s[k..k + 1][0];
    }
  }

  /** A text holding the separator splits into at least two parts. */
  lemma {:induction false} SplitHasSecondPart(s: string, c: char)
    requires c in s
    ensures |Split(s, c)| >= 2
    decreases |s|
  {
    if s[0] != c {
      assert c in s[1..];
      SplitHasSecondPart(s[1..], c);
    }
  }

  lemma {:induction false} EverythingContainsEmpty(s: string)
    ensures Contains(s, "")
  {
    assert IsPrefix("", s);
  }

  // ---------------------------------------------------------------------------
  // split and join

  /** String.prototype.split with a one-character separator. */
  function Split(s: string, c: char): (r: seq<string>)
    ensures |r| >= 1
    decreases |s|
  {
    if s == [] then [""]
    else if s[0] == c then [""] + Split(s[1..], c)
    else
      var t := Split(s[1..], c);
      [[s[0]] + t[0]] + t[1..]
  }

  /** Array.prototype.join */
  function Join(parts: seq<string>, sep: string): string
    decreases |parts|
  {
    if |parts| == 0 then ""
    else if |parts| == 1 then parts[0]
    else parts[0] + sep + Join(parts[1..], sep)
  }

  /** Splitting at the first separator: the text before it is the first part. */
  lemma {:induction false} SplitAtFirst(a: string, c: char, rest: string)
    requires c !in a
    ensures Split(a + [c] + rest, c) == [a] + Split(rest, c)
    decreases |a|
  {
    if a == [] {
      assert a + [c] + rest == [c] + rest;
      assert ([c] + rest)[1..] == rest;
    } else {
      var s := a + [c] + rest;
      assert s[0] == a[0];
      assert s[1..] == a[1..] + [c] + rest;
      SplitAtFirst(a[1..], c, rest);
      assert [a[0]] + a[1..] == a;
    }
  }

  /** A text without the separator splits into itself. */
  lemma {:induction false} SplitNoSeparator(a: string, c: char)
    requires c !in a
    ensures Split(a, c) == [a]
    decreases |a|
  {
    if a != [] {
      assert c !in a[1..];
      SplitNoSeparator(a[1..], c);
      assert [a[0]] + a[1..] == a;
    }
  }

  /** split undoes join when no part contains the separator. */
  lemma {:induction false} SplitJoin(parts: seq<string>, c: char)
    requires |parts| >= 1
    requires forall i :: 0 <= i < |parts| ==> c !in parts[i]
    ensures Split(Join(parts, [c]), c) == parts
    decreases |parts|
  {
    if |parts| == 1 {
      SplitNoSeparator(parts[0], c);
    } else {
      SplitJoin(parts[1..], c);
      SplitAtFirst(parts[0], c, Join(parts[1..], [c]));
      assert [parts[0]] + parts[1..] == parts;
    }
  }
  /** The first part opens the join and the last part closes it. */
  lemma {:induction false} JoinEnds(parts: seq<string>, sep: string)
    requires |parts| >= 1
    ensures IsPrefix(parts[0], Join(parts, sep))
    ensures var j, l := Join(parts, sep), parts[|parts| - 1]; |l| <= |j| && j[|j| - |l|..] == l
    decreases |parts|
  {
    if |parts| > 1 {
      JoinEnds(parts[1..], sep);
      var j := Join(parts, sep);
      var r := Join(parts[1..], sep);
      assert j == parts[0] + sep + r;
      assert j[|j| - |r|..] == r;
    }
  }

  // ---------------------------------------------------------------------------
  // trim on texts that need none

  /** trimStart removes a prefix and leaves no white space in front. */
  lemma {:induction false} TrimStartShape(s: string)
    ensures var r := TrimStart(s); |r| <= |s| && r == s[|s| - |r|..] && (r == [] || !IsWs(r[0]))
    decreases |s|
  {
    if s != [] && IsWs(s[0]) {
      TrimStartShape(s[1..]);
    }
  }

  /** trimEnd removes a suffix and leaves no white space at the end. */
  lemma {:induction false} TrimEndShape(s: string)
    ensures var r := TrimEnd(s); |r| <= |s| && r == s[..|r|] && (r == [] || !IsWs(r[|r| - 1]))
    decreases |s|
  {
    if s != [] && IsWs(s[|s| - 1]) {
      TrimEndShape(s[..|s| - 1]);
    }
  }

  /** A text made of white space only. */
  predicate Blank(s: string) {
    forall i :: 0 <= i < |s| ==> IsWs(s[i])
  }

  lemma {:induction false} TrimStartBlank(s: string)
    ensures TrimStart(s) == [] <==> Blank(s)
    decreases |s|
  {
    if s != [] && IsWs(s[0]) {
      TrimStartBlank(s[1..]);
      assert forall i :: 1 <= i < |s| ==> s[i] == s[1..][i - 1];
    }
  }

  /** `s.trim()` is falsy exactly when `s` is blank. */
  lemma TrimBlank(s: string)
    ensures Trim(s) == [] <==> Blank(s)
  {
    TrimStartBlank(s);
    TrimStartShape(s);
    var t := TrimStart(s);
    if t != [] {
      TrimKeepsFirst(t);
    }
  }

  /** A non-empty text with no white space at either end is its own trim. */
  lemma TrimBare(s: string)
    requires s != [] && !IsWs(s[0]) && !IsWs(s[|s| - 1])
    ensures TrimStart(s) == s && Trim(s) == s
  {
  }

  /** A text that opens with a non-blank character keeps it through trim. */
  lemma {:induction false} TrimKeepsFirst(s: string)
    requires s != [] && !IsWs(s[0])
    ensures Trim(s) != [] && Trim(s)[0] == s[0]
    decreases |s|
  {
    assert TrimStart(s) == s;
    if IsWs(s[|s| - 1]) {
      var t := s[..|s| - 1];
      assert t != [] && t[0] == s[0];
      TrimKeepsFirst(t);
      assert TrimStart(t) == t;
    }
  }
}
