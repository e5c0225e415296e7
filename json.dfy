/** JSON values as the two Python scripts see them after `json.loads`, Python
    dictionary lookup on them, the text `json.dumps` produces for them (with
    and without `ensure_ascii`), and the text Python's `str()` gives a value
    inside an f-string.
    Numbers are integers only. */
module Json {
  import opened Wrappers
  import opened Strings

  datatype JValue =
    | JNull
    | JBool(b: bool)
    | JNum(n: int)
    | JStr(s: string)
    | JArr(items: seq<JValue>)
    | JObj(fields: seq<(string, JValue)>)

  type Fields = seq<(string, JValue)>

  /** The keys of an object, in insertion order. */
  function Keys(fields: Fields): (r: seq<string>)
    ensures |r| == |fields|
    ensures forall i :: 0 <= i < |fields| ==> r[i] == fields[i].0
  {
    seq(|fields|, i requires 0 <= i < |fields| => fields[i].0)
  }

  /** `d.get(key)`: the value stored under the first occurrence of `key`, if any. */
  function Get(fields: Fields, key: string): Option<JValue>
    decreases |fields|
  {
    if |fields| == 0 then None
    else if fields[0].0 == key then Some(fields[0].1)
    else Get(fields[1..], key)
  }

  /** Lookup fails exactly when no entry has the key, and finds an entry of it otherwise. */
  lemma {:induction false} GetFinds(fields: Fields, key: string)
    ensures Get(fields, key).None? <==> forall i :: 0 <= i < |fields| ==> fields[i].0 != key
    ensures Get(fields, key).Some? ==> exists i :: 0 <= i < |fields| && fields[i] == (key, Get(fields, key).value)
    decreases |fields|
  {
    if |fields| > 0 && fields[0].0 != key {
      GetFinds(fields[1..], key);
      if Get(fields, key).Some? {
        var i :| 0 <= i < |fields| - 1 && fields[1..][i] == (key, Get(fields, key).value);
        assert fields[i + 1] == (key, Get(fields, key).value);
      }
    }
  }

  /** `d.get(key, default)`. */
  function GetOr(fields: Fields, key: string, default: JValue): JValue {
    Get(fields, key).GetOr(default)
  }

  /** `d[key]` when it holds a string. */
  function GetString(fields: Fields, key: string): Option<string> {
    match Get(fields, key)
    case Some(JStr(s)) => Some(s)
    case _ => None
  }

  /** An entry whose key no earlier entry has is what lookup finds. */
  lemma {:induction false} GetAt(fields: Fields, i: nat)
    requires i < |fields|
    requires forall j :: 0 <= j < i ==> fields[j].0 != fields[i].0
    ensures Get(fields, fields[i].0) == Some(fields[i].1)
    decreases i
  {
    if i > 0 {
      GetAt(fields[1..], i - 1);
    }
  }

  /** Lower-case hexadecimal digit. */
  function HexDigit(d: nat): (c: char)
    requires d < 16
    ensures ('0' <= c <= '9' || 'a' <= c <= 'f') && c as int < 0x80
  {
    if d < 10 then ('0' as int + d) as char else ('a' as int + d - 10) as char
  }

  /** `\uXXXX` with four lower-case hexadecimal digits. */
  function UnicodeEscape(n: nat): (r: string)
    requires n < 0x10000
    ensures |r| == 6 && IsAscii(r) && '\n' !in r
  {
    "\\u" + [HexDigit(n / 0x1000), HexDigit(n / 0x100 % 16), HexDigit(n / 16 % 16), HexDigit(n % 16)]
  }

  /** How `json.dumps` writes one character of a string: quote and backslash
      are escaped, so are the control characters below U+0020 (the five with a
      short form as `\b \f \n \r \t`, the others as `\u00XX`). With
      `ensure_ascii` (Python's default) every character outside `' '..'~'` is
      written as `\uXXXX`, as a surrogate pair above U+FFFF; without it such
      characters stay literal. */
  function EscapeChar(c: char, ascii: bool): (r: string)
    ensures |r| >= 1
    ensures (r == [c]) <==> (c != '"' && c != '\\' && c as int >= 0x20 && (!ascii || c as int < 0x7f))
    ensures '\n' !in r
    ensures ascii ==> IsAscii(r)
  {
    if c == '"' then "\\\""
    else if c == '\\' then "\\\\"
    else if c == '\n' then "\\n"
    else if c == '\r' then "\\r"
    else if c == '\t' then "\\t"
    else if c as int == 0x08 then "\\b"
    else if c as int == 0x0c then "\\f"
    else if c as int < 0x20 then UnicodeEscape(c as int)
    else if ascii && c as int >= 0x7f then
      if c as int < 0x10000 then UnicodeEscape(c as int)
      else
        var v := c as int - 0x10000;
        UnicodeEscape(0xd800 + v / 0x400) + UnicodeEscape(0xdc00 + v % 0x400)
    else [c]
  }

  function Escape(s: string, ascii: bool): (r: string)
    ensures '\n' !in r
    ensures ascii ==> IsAscii(r)
    decreases |s|
  {
    if |s| == 0 then "" else EscapeChar(s[0], ascii) + Escape(s[1..], ascii)
  }

  function Quote(s: string, ascii: bool): (r: string)
    ensures '\n' !in r
    ensures ascii ==> IsAscii(r)
  {
    "\"" + Escape(s, ascii) + "\""
  }

  /** `json.dumps(v, ensure_ascii=ascii)` with the default separators `, ` and `: `. */
  function Serialize(v: JValue, ascii: bool): string
    decreases v
  {
    match v
    case JNull => "null"
    case JBool(b) => if b then "true" else "false"
    case JNum(n) => IntToString(n)
    case JStr(s) => Quote(s, ascii)
    case JArr(items) =>
      "[" + Join(seq(|items|, i requires 0 <= i < |items| => Serialize(items[i], ascii)), ", ") + "]"
    case JObj(fields) =>
      "{" + Join(seq(|fields|, i requires 0 <= i < |fields| =>
                   Quote(fields[i].0, ascii) + ": " + Serialize(fields[i].1, ascii)), ", ") + "}"
  }

  /** The serialized text never contains a line break, so one value is one
      line; with `ensure_ascii` it is ASCII only. */
  lemma {:induction false} SerializeIsOneLine(v: JValue, ascii: bool)
    ensures '\n' !in Serialize(v, ascii)
    ensures ascii ==> IsAscii(Serialize(v, ascii))
    decreases v
  {
    match v
    case JNull =>
    case JBool(b) =>
    case JNum(n) =>
      assert IsDigits(NatToString(if n < 0 then -n else n));
      DigitsAreAscii(NatToString(if n < 0 then -n else n));
    case JStr(s) =>
    case JArr(items) =>
      var parts := seq(|items|, i requires 0 <= i < |items| => Serialize(items[i], ascii));
      forall k | 0 <= k < |parts| ensures '\n' !in parts[k] && (ascii ==> IsAscii(parts[k])) {
        SerializeIsOneLine(items[k], ascii);
      }
      BracketedIsOneLine("[", parts, "]", ascii);
    case JObj(fields) =>
      var parts := seq(|fields|, i requires 0 <= i < |fields| =>
                     Quote(fields[i].0, ascii) + ": " + Serialize(fields[i].1, ascii));
      forall k | 0 <= k < |parts| ensures '\n' !in parts[k] && (ascii ==> IsAscii(parts[k])) {
        SerializeIsOneLine(fields[k].1, ascii);
      }
      BracketedIsOneLine("{", parts, "}", ascii);
  }

  lemma BracketedIsOneLine(open: string, parts: seq<string>, close: string, ascii: bool)
    requires open == "[" || open == "{"
    requires close == "]" || close == "}"
    requires forall k :: 0 <= k < |parts| ==> '\n' !in parts[k] && (ascii ==> IsAscii(parts[k]))
    ensures '\n' !in open + Join(parts, ", ") + close
    ensures ascii ==> IsAscii(open + Join(parts, ", ") + close)
  {
    var joined := Join(parts, ", ");
    JoinExcludes(parts, ", ", '\n');
    assert '\n' !in open + joined + close;
    if ascii {
      JoinAscii(parts, ", ");
      AppendAscii(open, joined);
      AppendAscii(open + joined, close);
    }
  }

  /** Python's `repr()` of a value nested in a list or dict (strings in single quotes). */
  function PyRepr(v: JValue): string
    decreases v
  {
    match v
    case JStr(s) => "'" + s + "'"
    case _ => PyStr(v)
  }

  /** Python's `str()` of a value as it appears in an f-string: `None`, `True`,
      `False`, decimal integers, the string itself, and Python list and dict syntax. */
  function PyStr(v: JValue): string
    decreases v, 1
  {
    match v
    case JNull => "None"
    case JBool(b) => if b then "True" else "False"
    case JNum(n) => IntToString(n)
    case JStr(s) => s
    case JArr(items) =>
      "[" + Join(seq(|items|, i requires 0 <= i < |items| => PyRepr(items[i])), ", ") + "]"
    case JObj(fields) =>
      "{" + Join(seq(|fields|, i requires 0 <= i < |fields| =>
                   "'" + fields[i].0 + "': " + PyRepr(fields[i].1)), ", ") + "}"
  }

  /** `str()` of the result of `d.get(key)`: a missing key reads as `None`. */
  function PyStrOpt(o: Option<JValue>): (r: string)
    ensures o.None? ==> r == "None"
    ensures o.Some? ==> r == PyStr(o.value)
  {
    match o
    case None => "None"
    case Some(v) => PyStr(v)
  }
}
