/** JSON string literals as `JSON.stringify` writes them and `JSON.parse`
    reads them back. */
module Json {
  import opened Wrappers

  function HexChar(d: nat): char
    requires d < 16
  {
    if d < 10 then ('0' as int + d) as char else ('a' as int + d - 10) as char
  }

  /** The value of a hexadecimal digit (either case). */
  function HexValue(c: char): Option<nat> {
    if '0' <= c <= '9' then Some(c as int - '0' as int)
    else if 'a' <= c <= 'f' then Some(c as int - 'a' as int + 10)
    else if 'A' <= c <= 'F' then Some(c as int - 'A' as int + 10)
    else None
  }

  /** How `JSON.stringify` writes one character inside a string literal. */
  function EscapeChar(c: char): string {
    var n := c as int;
    if c == '"' then ['\\', '"']
    else if c == '\\' then ['\\', '\\']
    else if n == 8 then ['\\', 'b']
    else if n == 9 then ['\\', 't']
    else if n == 10 then ['\\', 'n']
    else if n == 12 then ['\\', 'f']
    else if n == 13 then ['\\', 'r']
    else if n < 0x20 then ['\\', 'u', '0', '0', HexChar(n / 16), HexChar(n % 16)]
    else [c]
  }

  function Escape(s: string): string {
    if s == [] then [] else EscapeChar(s[0]) + Escape(s[1..])
  }

  /** `JSON.stringify(s)` for a string `s`. */
  function Quote(s: string): string {
    "\"" + Escape(s) + "\""
  }

  /** The four hexadecimal digits of a `\uXXXX` escape. */
  function Hex4(s: string): Option<nat>
    requires |s| == 4
  {
    match (HexValue(s[0]), HexValue(s[1]), HexValue(s[2]), HexValue(s[3]))
    case (Some(a), Some(b), Some(c), Some(d)) => Some(((a * 16 + b) * 16 + c) * 16 + d)
    case _ => None
  }

  /** Reads one (possibly escaped) character of a string literal body:
      the character and how many input characters it took. Raw control
      characters and lone surrogate escapes are rejected. */
  function ReadChar(s: string): (r: Option<(char, nat)>)
    requires s != [] && s[0] != '"'
    ensures r.Some? ==> 1 <= r.value.1 <= |s|
  {
    if s[0] == '\\' then
      if |s| < 2 then None
      else if s[1] == '"' then Some(('"', 2))
      else if s[1] == '\\' then Some(('\\', 2))
      else if s[1] == '/' then Some(('/', 2))
      else if s[1] == 'b' then Some((8 as char, 2))
      else if s[1] == 't' then Some((9 as char, 2))
      else if s[1] == 'n' then Some((10 as char, 2))
      else if s[1] == 'f' then Some((12 as char, 2))
      else if s[1] == 'r' then Some((13 as char, 2))
      else if s[1] == 'u' && |s| >= 6 then
        match Hex4(s[2..6])
        case Some(v) => if 0xD800 <= v < 0xE000 then None else Some((v as char, 6))
        case None => None
      else None
    else if (s[0] as int) < 0x20 then None
    else Some((s[0], 1))
  }

  /** Reads a string literal body up to its closing quote: the decoded text
      and what follows the quote. */
  function Unquote(s: string): Option<(string, string)>
    decreases |s|
  {
    if s == [] then None
    else if s[0] == '"' then Some(("", s[1..]))
    else
      match ReadChar(s)
      case None => None
      case Some((c, k)) =>
        match Unquote(s[k..])
        case None => None
        case Some((text, rest)) => Some(([c] + text, rest))
  }

  /** Reading back one escaped character gives that character. */
  lemma ReadEscapeChar(c: char, t: string)
    ensures EscapeChar(c) + t != [] && (EscapeChar(c) + t)[0] != '"'
    ensures ReadChar(EscapeChar(c) + t) == Some((c, |EscapeChar(c)|))
  {
    var n := c as int;
    var s := EscapeChar(c) + t;
    if c != '"' && c != '\\' && n != 8 && n != 9 && n != 10 && n != 12 && n != 13 && n < 0x20 {
      var hi, lo := n / 16, n % 16;
      assert s[2..6] == ['0', '0', HexChar(hi), HexChar(lo)];
      assert HexValue(HexChar(hi)) == Some(hi);
      assert HexValue(HexChar(lo)) == Some(lo);
      assert Hex4(s[2..6]) == Some(n);
    }
  }

  /** `JSON.parse` of a stringified string gives the string back, and reading
      stops right after its closing quote. */
  lemma {:induction false} UnquoteEscape(text: string, rest: string)
    ensures Unquote(Escape(text) + "\"" + rest) == Some((text, rest))
  {
    if text == [] {
      assert Escape(text) + "\"" + rest == "\"" + rest;
    } else {
      var e := EscapeChar(text[0]);
      var tail := Escape(text[1..]) + "\"" + rest;
      assert Escape(text) + "\"" + rest == e + tail;
      ReadEscapeChar(text[0], tail);
      assert (e + tail)[|e|..] == tail;
      UnquoteEscape(text[1..], rest);
      assert [text[0]] + text[1..] == text;
    }
  }
}
