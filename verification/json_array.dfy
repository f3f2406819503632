/** JSON text for arrays of strings, the only JSON the forms send: the
    encoder writes what `JSON.stringify` writes for a `string[]`, and the
    reader accepts that text back (the part of `JSON.parse` the handlers use). */
module JsonArray {

  import opened Wrappers

  /** Lower-case hexadecimal digit, as `JSON.stringify` writes in `\u00XX` escapes. */
  function HexDigit(n: nat): (c: char)
    requires n < 16
  {
    if n < 10 then ('0' as int + n) as char else ('a' as int + n - 10) as char
  }

  /** Value of a hexadecimal digit in either case. */
  function HexValue(c: char): (r: Option<nat>)
    ensures r.Some? ==> r.value < 16
  {
    if '0' <= c <= '9' then Some(c as int - '0' as int)
    else if 'a' <= c <= 'f' then Some(c as int - 'a' as int + 10)
    else if 'A' <= c <= 'F' then Some(c as int - 'A' as int + 10)
    else None
  }

  lemma HexDigitValue(n: nat)
    requires n < 16
    ensures HexValue(HexDigit(n)) == Some(n)
  {
  }

  /** How `JSON.stringify` writes one character inside a string literal:
      quote and backslash escaped, the five short control escapes, other
      control characters as `\u00XX`, everything else verbatim. */
  function EscapeChar(c: char): string
  {
    if c == '"' then ['\\', '"']
    else if c == '\\' then ['\\', '\\']
    else if c == '\U{8}' then ['\\', 'b']
    else if c == '\U{C}' then ['\\', 'f']
    else if c == '\n' then ['\\', 'n']
    else if c == '\r' then ['\\', 'r']
    else if c == '\t' then ['\\', 't']
    else if c < ' ' then ['\\', 'u', '0', '0', HexDigit(c as int / 16), HexDigit(c as int % 16)]
    else [c]
  }

  function Escape(s: string): string
  {
    if s == [] then [] else EscapeChar(s[0]) + Escape(s[1..])
  }

  /** A JSON string literal. */
  function Quote(s: string): string
  {
    ['"'] + Escape(s) + ['"']
  }

  /** The comma-separated string literals between the brackets. */
  function Items(xs: seq<string>): string
  {
    if |xs| == 0 then [] else if |xs| == 1 then Quote(xs[0]) else Quote(xs[0]) + [','] + Items(xs[1..])
  }

  /** `JSON.stringify(xs)` for an array of strings. */
  function Encode(xs: seq<string>): string
  {
    ['['] + Items(xs) + [']']
  }

  // ---------------------------------------------------------------- reading

  /** Reads the escape sequence that follows a backslash: the character it
      stands for and the text after it. */
  function Unescape(t: string): (r: Option<(char, string)>)
    ensures r.Some? ==> |r.value.1| < |t|
  {
    if |t| == 0 then None
    else if t[0] == '"' then Some(('"', t[1..]))
    else if t[0] == '\\' then Some(('\\', t[1..]))
    else if t[0] == '/' then Some(('/', t[1..]))
    else if t[0] == 'b' then Some(('\U{8}', t[1..]))
    else if t[0] == 'f' then Some(('\U{C}', t[1..]))
    else if t[0] == 'n' then Some(('\n', t[1..]))
    else if t[0] == 'r' then Some(('\r', t[1..]))
    else if t[0] == 't' then Some(('\t', t[1..]))
    else if t[0] == 'u' && |t| >= 5 then
      match (HexValue(t[1]), HexValue(t[2]), HexValue(t[3]), HexValue(t[4]))
      case (Some(a), Some(b), Some(c), Some(d)) =>
        var code := ((a * 16 + b) * 16 + c) * 16 + d;
        if 0xD800 <= code < 0xE000 then None else Some((code as char, t[5..]))
      case _ => None
    else None
  }

  /** Puts `c` in front of a successfully read string. */
  function Prepend(c: char, r: Option<(string, string)>): Option<(string, string)>
  {
    match r
    case None => None
    case Some((s, rest)) => Some(([c] + s, rest))
  }

  /** Reads the body of a string literal up to and including its closing
      quote: the string's value and the text after the quote. Raw control
      characters are not allowed inside a literal. */
  function ReadString(t: string): (r: Option<(string, string)>)
    ensures r.Some? ==> |r.value.1| < |t|
    decreases |t|
  {
    if |t| == 0 then None
    else if t[0] == '"' then Some(([], t[1..]))
    else if t[0] == '\\' then
      match Unescape(t[1..])
      case None => None
      case Some((c, rest)) => Prepend(c, ReadString(rest))
    else if t[0] < ' ' then None
    else Prepend(t[0], ReadString(t[1..]))
  }

  /** Reads `"…","…",…,"…"]` up to the closing bracket, which must end the text. */
  function ReadItems(t: string): Option<seq<string>>
    decreases |t|
  {
    if |t| == 0 || t[0] != '"' then None
    else match ReadString(t[1..])
      case None => None
      case Some((s, rest)) =>
        if rest == [']'] then Some([s])
        else if |rest| > 0 && rest[0] == ',' then
          match ReadItems(rest[1..])
          case None => None
          case Some(xs) => Some([s] + xs)
        else None
  }

  /** `JSON.parse(t)` where the result must be an array of strings; `None`
      stands for the text being rejected. */
  function Decode(t: string): Option<seq<string>>
  {
    if t == ['[', ']'] then Some([])
    else if |t| >= 2 && t[0] == '[' then ReadItems(t[1..])
    else None
  }

  // ---------------------------------------------------------------- round trip

  /** One escaped character reads back as itself. */
  lemma ReadEscapedChar(c: char, rest: string)
    ensures ReadString(EscapeChar(c) + rest) == Prepend(c, ReadString(rest))
  {
    var t := EscapeChar(c) + rest;
    if c == '"' || c == '\\' || c == '\U{8}' || c == '\U{C}' || c == '\n' || c == '\r' || c == '\t' {
      assert t[1..][1..] == rest;
    } else if c < ' ' {
      var hi, lo := c as int / 16, c as int % 16;
      HexDigitValue(hi);
      HexDigitValue(lo);
      assert t[1..][5..] == rest;
      assert t[1..][1] == '0' && t[1..][2] == '0' && t[1..][3] == HexDigit(hi) && t[1..][4] == HexDigit(lo);
      assert ((0 * 16 + 0) * 16 + hi) * 16 + lo == c as int;
    } else {
      assert t[1..] == rest;
    }
  }

  /** An escaped string followed by a closing quote reads back as the string. */
  lemma {:induction false} ReadEscaped(s: string, tail: string)
    ensures ReadString(Escape(s) + ['"'] + tail) == Some((s, tail))
  {
    if s == [] {
      assert Escape(s) + ['"'] + tail == ['"'] + tail;
    } else {
      var rest := Escape(s[1..]) + ['"'] + tail;
      assert Escape(s) + ['"'] + tail == EscapeChar(s[0]) + rest;
      ReadEscapedChar(s[0], rest);
      ReadEscaped(s[1..], tail);
      assert [s[0]] + s[1..] == s;
    }
  }

  /** A literal followed by `after` is read as `x` with `after` left over. */
  lemma ReadItemsStep(x: string, after: string)
    ensures ReadItems(Quote(x) + after) ==
      (if after == [']'] then Some([x])
       else if |after| > 0 && after[0] == ',' then
         match ReadItems(after[1..]) case None => None case Some(ys) => Some([x] + ys)
       else None)
  {
    Regroup(['"'], Escape(x), ['"'], after);
    ReadEscaped(x, after);
    ReadItemsQuoted(Escape(x) + ['"'] + after, x, after);
  }

  lemma Regroup(a: string, b: string, c: string, d: string)
    ensures a + b + c + d == a + (b + c + d)
  {
  }

  /** An opening quote whose literal reads as `x` with `after` left over. */
  lemma ReadItemsQuoted(body: string, x: string, after: string)
    requires ReadString(body) == Some((x, after))
    ensures ReadItems(['"'] + body) ==
      (if after == [']'] then Some([x])
       else if |after| > 0 && after[0] == ',' then
         match ReadItems(after[1..]) case None => None case Some(ys) => Some([x] + ys)
       else None)
  {
    assert (['"'] + body)[1..] == body;
  }

  lemma {:induction false} ReadItemsBack(xs: seq<string>)
    requires |xs| > 0
    ensures ReadItems(Items(xs) + [']']) == Some(xs)
  {
    if |xs| == 1 {
      ReadItemsStep(xs[0], [']']);
      assert [xs[0]] == xs;
    } else {
      var after := [','] + Items(xs[1..]) + [']'];
      Regroup(Quote(xs[0]), [','], Items(xs[1..]), [']']);
      ReadItemsStep(xs[0], after);
      assert after[1..] == Items(xs[1..]) + [']'];
      ReadItemsBack(xs[1..]);
      assert [xs[0]] + xs[1..] == xs;
    }
  }

  /** `JSON.parse(JSON.stringify(xs))` gives back `xs`, for every array of strings. */
  lemma DecodeEncode(xs: seq<string>)
    ensures Decode(Encode(xs)) == Some(xs)
  {
    var t := Encode(xs);
    if |xs| == 0 {
      assert t == ['[', ']'];
    } else {
      assert Items(xs)[0] == '"';
      assert t != ['[', ']'];
      assert t[1..] == Items(xs) + [']'];
      ReadItemsBack(xs);
    }
  }

  /** Distinct arrays have distinct JSON texts. */
  lemma EncodeInjective(xs: seq<string>, ys: seq<string>)
    requires Encode(xs) == Encode(ys)
    ensures xs == ys
  {
    DecodeEncode(xs);
    DecodeEncode(ys);
  }
}
