/** The primitive JavaScript values (no objects or arrays) the premium
    screen reads from the backend's JSON, and `JSON.stringify` of the one-field object `{ amount }` that the
    create-order request sends, with a reader that inverts it. */
module Json {
  import opened Wrappers
  import Decimal

  /** A primitive JavaScript value. Numbers are integral (see README). */
  datatype JsValue =
    | JsUndefined
    | JsNull
    | JsBool(b: bool)
    | JsNum(n: int)
    | JsStr(s: string)

  function HexDigit(d: nat): (c: char)
    requires d < 16
  {
    "0123456789abcdef"[d]
  }

  function HexValue(c: char): Option<nat> {
    if '0' <= c <= '9' then Some(c as int - '0' as int)
    else if 'a' <= c <= 'f' then Some(c as int - 'a' as int + 10)
    else if 'A' <= c <= 'F' then Some(c as int - 'A' as int + 10)
    else None
  }

  lemma HexValueOfHexDigit(d: nat)
    requires d < 16
    ensures HexValue(HexDigit(d)) == Some(d)
  {
  }

  /** How `JSON.stringify` writes one character of a string: the two-character
      escapes for quote, backslash, backspace, tab, newline, form feed and
      carriage return, `\u00xx` in lower-case hex for the other control
      characters, and every other character as itself. */
  function EscapeChar(c: char): (r: string)
    ensures 1 <= |r| <= 6
    ensures forall i :: 0 <= i < |r| ==> r[i] >= ' '
    ensures r == [c] <==> c >= ' ' && c != '"' && c != '\\'
    ensures |r| > 1 ==> r[0] == '\\'
  {
    if c == '"' then "\\\""
    else if c == '\\' then "\\\\"
    else if c == '\U{0008}' then "\\b"
    else if c == '\t' then "\\t"
    else if c == '\n' then "\\n"
    else if c == '\U{000C}' then "\\f"
    else if c == '\r' then "\\r"
    else if c < ' ' then "\\u00" + [HexDigit(c as int / 16), HexDigit(c as int % 16)]
    else [c]
  }

  /** The inside of a string literal: no raw control character is left, and
      a string with nothing to escape is written as it is. */
  function Escape(s: string): (r: string)
    ensures |s| <= |r| <= 6 * |s|
    ensures forall i :: 0 <= i < |r| ==> r[i] >= ' '
    ensures (forall i :: 0 <= i < |s| ==> s[i] >= ' ' && s[i] != '"' && s[i] != '\\') ==> r == s
    decreases |s|
  {
    if s == [] then []
    else
      var head, tail := EscapeChar(s[0]), Escape(s[1..]);
      assert forall i :: 0 <= i < |head + tail| ==> (head + tail)[i] >= ' ' by {
        forall i | 0 <= i < |head + tail| ensures (head + tail)[i] >= ' ' {
          if i < |head| { assert (head + tail)[i] == head[i]; }
          else { assert (head + tail)[i] == tail[i - |head|]; }
        }
      }
      assert [s[0]] + s[1..] == s;
      head + tail
  }

  /** The JSON text of a string value. */
  function Quote(s: string): (r: string)
    ensures |r| >= 2 && r[0] == '"' && r[|r| - 1] == '"'
  {
    "\"" + Escape(s) + "\""
  }

  /** The character a two-character escape `\x` stands for. */
  function SimpleEscape(x: char): Option<char> {
    if x == '"' then Some('"')
    else if x == '\\' then Some('\\')
    else if x == '/' then Some('/')
    else if x == 'b' then Some('\U{0008}')
    else if x == 't' then Some('\t')
    else if x == 'n' then Some('\n')
    else if x == 'f' then Some('\U{000C}')
    else if x == 'r' then Some('\r')
    else None
  }

  function Prepend(c: char, rest: Option<string>): Option<string> {
    match rest
    case Some(s) => Some([c] + s)
    case None => None
  }

  /** The four-hex-digit code of a `\uXXXX` escape, when it names a
      character (surrogate halves do not). */
  function UnicodeEscape(h: string): Option<char>
    requires |h| == 4
  {
    match (HexValue(h[0]), HexValue(h[1]), HexValue(h[2]), HexValue(h[3]))
    case (Some(a), Some(b), Some(c), Some(d)) =>
      var v := ((a * 16 + b) * 16 + c) * 16 + d;
      if v < 0xD800 || 0xE000 <= v then Some(v as char) else None
    case _ => None
  }

  /** Reads the inside of a JSON string literal (between its quotes). */
  function Unescape(t: string): Option<string>
    decreases |t|
  {
    if t == [] then Some([])
    else if t[0] == '"' || t[0] < ' ' then None
    else if t[0] != '\\' then Prepend(t[0], Unescape(t[1..]))
    else if |t| < 2 then None
    else if t[1] == 'u' then
      if |t| < 6 then None
      else match UnicodeEscape(t[2..6])
        case Some(c) => Prepend(c, Unescape(t[6..]))
        case None => None
    else match SimpleEscape(t[1])
      case Some(c) => Prepend(c, Unescape(t[2..]))
      case None => None
  }

  lemma UnescapeAfterControlEscape(c: char, rest: string)
    requires c < ' '
    ensures Unescape("\\u00" + [HexDigit(c as int / 16), HexDigit(c as int % 16)] + rest)
         == Prepend(c, Unescape(rest))
  {
    var hi, lo := c as int / 16, c as int % 16;
    var t := "\\u00" + [HexDigit(hi), HexDigit(lo)] + rest;
    HexValueOfHexDigit(hi);
    HexValueOfHexDigit(lo);
    assert t[2..6] == ['0', '0', HexDigit(hi), HexDigit(lo)];
    assert UnicodeEscape(t[2..6]) == Some(c);
    assert t[6..] == rest;
  }

  lemma UnescapeAfterEscapeChar(c: char, rest: string)
    ensures Unescape(EscapeChar(c) + rest) == Prepend(c, Unescape(rest))
  {
    var t := EscapeChar(c) + rest;
    if c == '"' || c == '\\' || c == '\U{0008}' || c == '\t' || c == '\n' || c == '\U{000C}' || c == '\r' {
      assert t[2..] == rest;
    } else if c < ' ' {
      UnescapeAfterControlEscape(c, rest);
    } else {
      assert t[1..] == rest;
    }
  }

  lemma {:induction false} UnescapeEscape(s: string)
    ensures Unescape(Escape(s)) == Some(s)
    decreases |s|
  {
    if s != [] {
      UnescapeAfterEscapeChar(s[0], Escape(s[1..]));
      UnescapeEscape(s[1..]);
      assert [s[0]] + s[1..] == s;
    }
  }

  /** The JSON text of a value that `JSON.stringify` writes as a property. */
  function ValueText(v: JsValue): (r: string)
    requires !v.JsUndefined?
    ensures |r| > 0
    ensures r == "null" <==> v.JsNull?
    ensures r[0] == '"' <==> v.JsStr?
  {
    match v
    case JsNull => "null"
    case JsBool(b) => if b then "true" else "false"
    case JsNum(n) => Decimal.IntToString(n)
    case JsStr(s) => Quote(s)
  }

  function ParseValue(t: string): Option<JsValue> {
    if t == "null" then Some(JsNull)
    else if t == "true" then Some(JsBool(true))
    else if t == "false" then Some(JsBool(false))
    else if |t| >= 2 && t[0] == '"' && t[|t| - 1] == '"' then
      match Unescape(t[1..|t| - 1])
      case Some(s) => Some(JsStr(s))
      case None => None
    else
      match Decimal.ParseInt(t)
      case Some(n) => Some(JsNum(n))
      case None => None
  }

  lemma ParseValueText(v: JsValue)
    requires !v.JsUndefined?
    ensures ParseValue(ValueText(v)) == Some(v)
  {
    match v
    case JsNull =>
    case JsBool(b) =>
    case JsNum(n) =>
      var t := Decimal.IntToString(n);
      Decimal.IntToStringRoundTrip(n);
      assert t[0] != 'n' && t[0] != 't' && t[0] != 'f' && t[0] != '"';
    case JsStr(s) =>
      var t := Quote(s);
      assert t[1..|t| - 1] == Escape(s);
      UnescapeEscape(s);
  }

  const AmountPrefix := "{\"amount\":"

  /** `JSON.stringify({ amount: amount })`: a property whose value is
      `undefined` is left out of the object. */
  function AmountBody(amount: JsValue): (r: string)
    ensures r == "{}" <==> amount.JsUndefined?
    ensures !amount.JsUndefined? ==>
              |r| > |AmountPrefix| + 1 && r[..|AmountPrefix|] == AmountPrefix && r[|r| - 1] == '}'
  {
    if amount.JsUndefined? then "{}" else AmountPrefix + ValueText(amount) + "}"
  }

  /** Reads an object text with at most the one property `amount`. */
  function ParseAmountBody(t: string): Option<JsValue> {
    if t == "{}" then Some(JsUndefined)
    else if |t| > |AmountPrefix| && t[..|AmountPrefix|] == AmountPrefix && t[|t| - 1] == '}' then
      ParseValue(t[|AmountPrefix|..|t| - 1])
    else None
  }

  /** The body text determines the amount it was made from. */
  lemma AmountBodyRoundTrip(amount: JsValue)
    ensures ParseAmountBody(AmountBody(amount)) == Some(amount)
  {
    if !amount.JsUndefined? {
      var v := ValueText(amount);
      var t := AmountBody(amount);
      assert t[..|AmountPrefix|] == AmountPrefix;
      assert t[|AmountPrefix|..|t| - 1] == v;
      ParseValueText(amount);
    }
  }

  lemma AmountBodyInjective(a: JsValue, b: JsValue)
    ensures AmountBody(a) == AmountBody(b) ==> a == b
  {
    AmountBodyRoundTrip(a);
    AmountBodyRoundTrip(b);
  }
}
