/** The part of JSON the loader relies on: a value tree for the members it
    passes through untouched, and `JSON.stringify` applied to a string. */
module Json {
  import opened Values

  /** A parsed JSON value. Numbers keep the text they are written with. */
  datatype Value =
    | Null
    | Bool(b: bool)
    | Number(text: string)
    | Str(s: string)
    | Arr(items: seq<Value>)
    | Obj(members: seq<(string, Value)>)

  const HexDigits: string := "0123456789abcdef"

  /** The escape JSON.stringify writes for one character of a string. */
  function EscapeChar(c: char): (r: string)
    ensures |r| >= 1 && (|r| == 1 <==> r == [c])
    ensures '\n' !in r && '"' !in r[..|r| - 1]
  {
    if c == '"' then "\\\""
    else if c == '\\' then "\\\\"
    else if c == '\U{8}' then "\\b"
    else if c == '\U{C}' then "\\f"
    else if c == '\n' then "\\n"
    else if c == '\r' then "\\r"
    else if c == '\t' then "\\t"
    else if c < ' ' then "\\u00" + [HexDigits[c as int / 16], HexDigits[c as int % 16]]
    else [c]
  }

  function Escape(s: string): (r: string)
    decreases |s|
  {
    if s == [] then [] else EscapeChar(s[0]) + Escape(s[1..])
  }

  /** `JSON.stringify(s)` for a string `s`. */
  function Quote(s: string): (r: string)
  {
    "\"" + Escape(s) + "\""
  }

  /** The value of a hexadecimal digit, either case. */
  function HexValue(c: char): Option<nat>
  {
    if '0' <= c <= '9' then Some(c as nat - '0' as nat)
    else if 'a' <= c <= 'f' then Some(c as nat - 'a' as nat + 10)
    else if 'A' <= c <= 'F' then Some(c as nat - 'A' as nat + 10)
    else None
  }

  /** Reads the body of a JSON string literal (the text between the quotes):
      the partner of `Escape`. Only the escapes with at most two significant
      hexadecimal digits are read back, which is all `Escape` writes. */
  function Unescape(t: string): (r: Option<string>)
    decreases |t|
  {
    if t == [] then Some([])
    else if t[0] == '"' || t[0] < ' ' then None
    else if t[0] != '\\' then
      match Unescape(t[1..])
      case Some(rest) => Some([t[0]] + rest)
      case None => None
    else if |t| < 2 then None
    else
      var e := t[1];
      var simple :=
        if e == '"' then Some('"') else if e == '\\' then Some('\\')
        else if e == '/' then Some('/') else if e == 'b' then Some('\U{8}')
        else if e == 'f' then Some('\U{C}') else if e == 'n' then Some('\n')
        else if e == 'r' then Some('\r') else if e == 't' then Some('\t')
        else None;
      if simple.Some? then
        match Unescape(t[2..])
        case Some(rest) => Some([simple.value] + rest)
        case None => None
      else if e == 'u' && |t| >= 6 && t[2] == '0' && t[3] == '0'
              && HexValue(t[4]).Some? && HexValue(t[5]).Some? then
        var code := HexValue(t[4]).value * 16 + HexValue(t[5]).value;
        match Unescape(t[6..])
        case Some(rest) => Some([code as char] + rest)
        case None => None
      else None
  }

  /** Reads a JSON string literal back. */
  function Unquote(q: string): Option<string>
  {
    if |q| >= 2 && q[0] == '"' && q[|q| - 1] == '"' then Unescape(q[1..|q| - 1]) else None
  }

  lemma EscapeCharThenRest(c: char, t: string)
    ensures Unescape(EscapeChar(c) + t) ==
            match Unescape(t) case Some(rest) => Some([c] + rest) case None => None
  {
    var e := EscapeChar(c);
    if c < ' ' && c != '\U{8}' && c != '\U{C}' && c != '\n' && c != '\r' && c != '\t' {
      HexEscapeThenRest(c, t);
    } else if c == '"' || c == '\\' || c == '\U{8}' || c == '\U{C}' || c == '\n' || c == '\r' || c == '\t' {
      assert (e + t)[2..] == t;
    } else {
      assert (e + t)[1..] == t;
    }
  }

  /** A control character without a short escape reads back from `\u00xx`. */
  lemma HexEscapeThenRest(c: char, t: string)
    requires c < ' ' && c != '\U{8}' && c != '\U{C}' && c != '\n' && c != '\r' && c != '\t'
    ensures Unescape(EscapeChar(c) + t) ==
            match Unescape(t) case Some(rest) => Some([c] + rest) case None => None
  {
    var e := EscapeChar(c);
    var hi, lo := c as int / 16, c as int % 16;
    assert hi < 2;
    assert HexValue(HexDigits[hi]) == Some(hi);
    assert HexValue(HexDigits[lo]) == Some(lo);
    assert (e + t)[6..] == t;
    assert (hi * 16 + lo) as char == c;
  }

  /** Escaping can be undone: the body of a quoted string reads back as the string. */
  lemma {:induction false} UnescapeEscape(s: string)
    ensures Unescape(Escape(s)) == Some(s)
    decreases |s|
  {
    if s != [] {
      UnescapeEscape(s[1..]);
      EscapeCharThenRest(s[0], Escape(s[1..]));
      assert [s[0]] + s[1..] == s;
    }
  }

  /** `JSON.stringify` of a string is a JSON string literal that reads back as that string. */
  lemma QuoteRoundTrip(s: string)
    ensures Unquote(Quote(s)) == Some(s)
  {
    var q := Quote(s);
    assert q[1..|q| - 1] == Escape(s);
    UnescapeEscape(s);
  }

  lemma {:induction false} EscapeHasNoNewline(s: string)
    ensures '\n' !in Escape(s)
    decreases |s|
  {
    if s != [] {
      EscapeHasNoNewline(s[1..]);
    }
  }

  /** A quoted string is a single line that starts and ends with a double quote,
      so an `import` statement built from it stays on one line. */
  lemma {:induction false} QuoteIsOneLine(s: string)
    ensures var q := Quote(s); |q| >= 2 && q[0] == '"' && q[|q| - 1] == '"' && '\n' !in q
  {
    EscapeHasNoNewline(s);
  }
}
