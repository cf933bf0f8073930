/** JSON.stringify for the flat records the console serialises: string
    escaping as ECMA-262 QuoteJSONString performs it, and the two-space indented
    layout of `JSON.stringify(value, null, 2)`. */
module Json {
  import opened Common

  // ---------------------------------------------------------------------------
  // String literals

  function HexDigit(d: nat): (c: char)
    requires d < 16
  {
    if d < 10 then DigitChar(d) else ('a' as int + d - 10) as char
  }

  lemma HexValueOfHexDigit(d: nat)
    requires d < 16
    ensures HexValue(HexDigit(d)) == Some(d)
  {
  }

  /** The escape JSON.stringify writes for one character. */
  function EscapeChar(c: char): (r: string)
    ensures |r| >= 1
    ensures |r| == 1 <==> r == [c]
  {
    if c == '"' then "\\\""
    else if c == '\\' then "\\\\"
    else if c == '\U{0008}' then "\\b"
    else if c == '\U{000C}' then "\\f"
    else if c == '\n' then "\\n"
    else if c == '\r' then "\\r"
    else if c == '\t' then "\\t"
    else if c < ' ' then "\\u00" + [HexDigit(c as int / 16), HexDigit(c as int % 16)]
    else [c]
  }

  function Escape(s: string): string
    decreases |s|
  {
    if s == [] then "" else EscapeChar(s[0]) + Escape(s[1..])
  }

  /** Text without quotes, backslashes or control characters is written as is. */
  lemma {:induction false} EscapePlain(s: string)
    requires forall i :: 0 <= i < |s| ==> ' ' <= s[i] && s[i] != '"' && s[i] != '\\'
    ensures Escape(s) == s
    decreases |s|
  {
    if s != [] {
      EscapePlain(s[1..]);
      assert [s[0]] + s[1..] == s;
    }
  }

  /** A string literal: the escaped text between double quotes. */
  function Quote(s: string): string {
    "\"" + Escape(s) + "\""
  }

  function Prepend(c: char, o: Option<string>): Option<string> {
    match o
    case None => None
    case Some(t) => Some([c] + t)
  }

  /** The text a JSON string literal's body denotes, or None when the body is
      not well formed (a bare quote or control character, a bad escape). */
  function Unescape(s: string): Option<string>
    decreases |s|
  {
    if s == [] then Some("")
    else if s[0] == '\\' then
      if |s| < 2 then None
      else if s[1] == '"' then Prepend('"', Unescape(s[2..]))
      else if s[1] == '\\' then Prepend('\\', Unescape(s[2..]))
      else if s[1] == '/' then Prepend('/', Unescape(s[2..]))
      else if s[1] == 'b' then Prepend('\U{0008}', Unescape(s[2..]))
      else if s[1] == 'f' then Prepend('\U{000C}', Unescape(s[2..]))
      else if s[1] == 'n' then Prepend('\n', Unescape(s[2..]))
      else if s[1] == 'r' then Prepend('\r', Unescape(s[2..]))
      else if s[1] == 't' then Prepend('\t', Unescape(s[2..]))
      else if s[1] == 'u' && |s| >= 6 then
        match (HexValue(s[2]), HexValue(s[3]), HexValue(s[4]), HexValue(s[5]))
        case (Some(a), Some(b), Some(c), Some(d)) =>
          var v := ((a * 16 + b) * 16 + c) * 16 + d;
          if v < 0xD800 then Prepend(v as char, Unescape(s[6..])) else None
        case _ => None
      else None
    else if s[0] == '"' || s[0] < ' ' then None
    else Prepend(s[0], Unescape(s[1..]))
  }

  lemma UnescapeEscapeChar(c: char, rest: string)
    ensures Unescape(EscapeChar(c) + rest) == Prepend(c, Unescape(rest))
  {
    var e := EscapeChar(c);
    var s := e + rest;
    if |e| == 1 {
      assert s[0] == c && s[1..] == rest;
    } else {
      assert s[0] == '\\' && s[1] == e[1];
      if c < ' ' && c != '\U{0008}' && c != '\U{000C}' && c != '\n' && c != '\r' && c != '\t' {
        var hi := c as int / 16;
        var lo := c as int % 16;
        HexValueOfHexDigit(hi);
        HexValueOfHexDigit(lo);
        assert s[2] == '0' && s[3] == '0' && s[4] == HexDigit(hi) && s[5] == HexDigit(lo);
        assert s[6..] == rest;
        assert (((0 * 16 + 0) * 16 + hi) * 16 + lo) as char == c;
      } else {
        assert s[2..] == rest;
      }
    }
  }

  /** Reading back an escaped text gives the text: the escaping is lossless. */
  lemma {:induction false} UnescapeEscape(s: string)
    ensures Unescape(Escape(s)) == Some(s)
    decreases |s|
  {
    if s != [] {
      UnescapeEscape(s[1..]);
      UnescapeEscapeChar(s[0], Escape(s[1..]));
      assert [s[0]] + s[1..] == s;
    }
  }

  // ---------------------------------------------------------------------------
  // Indented objects

  /** The member values the serialised records use. */
  datatype Value = Number(n: int) | Str(s: string) | Bool(b: bool) | StrArray(items: seq<string>)

  function ValueText(v: Value): string {
    match v
    case Number(n) => IntToString(n)
    case Str(s) => Quote(s)
    case Bool(b) => if b then "true" else "false"
    case StrArray(items) =>
      if items == [] then "[]" else "[\n" + Join(ItemLines(items), ",\n") + "\n  ]"
  }

  /** Array items of a top-level member, indented by two levels. */
  function ItemLines(items: seq<string>): (r: seq<string>)
    ensures |r| == |items|
    ensures forall i :: 0 <= i < |r| ==> r[i] == "    " + Quote(items[i])
    decreases |items|
  {
    if items == [] then [] else ["    " + Quote(items[0])] + ItemLines(items[1..])
  }

  function MemberLine(key: string, v: Value): string {
    "  " + Quote(key) + ": " + ValueText(v)
  }

  function MemberLines(members: seq<(string, Value)>): (r: seq<string>)
    ensures |r| == |members|
    ensures forall i :: 0 <= i < |r| ==> r[i] == MemberLine(members[i].0, members[i].1)
    decreases |members|
  {
    if members == [] then [] else [MemberLine(members[0].0, members[0].1)] + MemberLines(members[1..])
  }

  /** JSON.stringify(object, null, 2) of an object with these members, in order. */
  function Stringify(members: seq<(string, Value)>): string {
    if members == [] then "{}" else "{\n" + Join(MemberLines(members), ",\n") + "\n}"
  }

  /** Every member appears in the output as its own `"key": value` line. */
  lemma StringifyHasMember(members: seq<(string, Value)>, i: nat)
    requires i < |members|
    ensures Contains(Stringify(members), MemberLine(members[i].0, members[i].1))
  {
    var lines := MemberLines(members);
    JoinContainsPart(lines, ",\n", i);
    var body := Join(lines, ",\n");
    ContainsConcat("{\n", body, lines[i]);
    ContainsConcat("{\n" + body, "\n}", lines[i]);
  }
}
