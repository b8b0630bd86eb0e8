/**
 * JSON text as the backend stores it in its Text columns (Python `json.dumps` / `json.loads`)
 * and as the browser produces it (`JSON.stringify`): a value datatype, a serializer parameterised
 * by the two serializers' conventions, a parser, and the round trip between them.
 */
module Json {
  import opened Wrappers
  import opened Text
  import opened Dict

  datatype Json =
    | JNull
    | JBool(b: bool)
    | JNum(n: int)
    | JStr(s: string)
    | JArr(items: seq<Json>)
    | JObj(members: seq<(string, Json)>)

  /**
   * Serializer conventions: the separator after an item, the separator after a key, and whether
   * every character outside printable ASCII is written as a `\u` escape.
   */
  datatype Style = Style(itemSep: string, keySep: string, asciiOnly: bool)

  /** Python `json.dumps` defaults: `", "`, `": "`, `ensure_ascii=True`. */
  const PythonStyle := Style(", ", ": ", true)

  /** JavaScript `JSON.stringify(value)` without indentation. */
  const JsStyle := Style(",", ":", false)

  /** JSON insignificant whitespace. */
  predicate IsJsonWs(c: char) {
    c == ' ' || c == '\t' || c == '\n' || c == '\r'
  }

  /** Separators that read back: a `,` (or `:`) followed only by JSON whitespace. */
  predicate ValidStyle(st: Style) {
    && |st.itemSep| >= 1 && st.itemSep[0] == ',' && All(st.itemSep[1..], IsJsonWs)
    && |st.keySep| >= 1 && st.keySep[0] == ':' && All(st.keySep[1..], IsJsonWs)
  }

  /** Objects carry each key once (what a decoded Python `dict` or JavaScript object holds). */
  predicate WellFormed(j: Json) {
    match j
    case JArr(items) => forall i :: 0 <= i < |items| ==> WellFormed(items[i])
    case JObj(ms) => DistinctKeys(ms) && forall i :: 0 <= i < |ms| ==> WellFormed(ms[i].1)
    case _ => true
  }

  // ---------------------------------------------------------------- serializer

  function HexChar(d: nat): char
    requires d < 16
  {
    if d < 10 then '0' + d as char else 'a' + (d - 10) as char
  }

  /** Four lower-case hexadecimal digits of `n`, most significant first. */
  function Hex4(n: nat): string
    requires n < 0x10000
  {
    var q1 := n / 16;
    var q2 := q1 / 16;
    var q3 := q2 / 16;
    [HexChar(q3), HexChar(q2 % 16), HexChar(q1 % 16), HexChar(n % 16)]
  }

  /** `\uXXXX`, or a surrogate pair of them for a code point above the Basic Multilingual Plane. */
  function UnicodeEscape(c: char): string {
    var n := c as int;
    if n < 0x10000 then "\\u" + Hex4(n)
    else
      var v := n - 0x10000;
      "\\u" + Hex4(0xD800 + v / 1024) + "\\u" + Hex4(0xDC00 + v % 1024)
  }

  /** Characters written as a backslash and one letter. */
  predicate HasShortEscape(c: char) {
    c == '"' || c == '\\' || c == '\n' || c == '\r' || c == '\t' || c == '\U{0008}' || c == '\U{000C}'
  }

  function ShortEscape(c: char): char
    requires HasShortEscape(c)
  {
    if c == '"' then '"'
    else if c == '\\' then '\\'
    else if c == '\n' then 'n'
    else if c == '\r' then 'r'
    else if c == '\t' then 't'
    else if c == '\U{0008}' then 'b'
    else 'f'
  }

  /** Characters written as `\u` escapes: control characters, and everything outside printable ASCII when `asciiOnly`. */
  predicate NeedsUnicodeEscape(c: char, asciiOnly: bool) {
    !HasShortEscape(c) && (c < ' ' || (asciiOnly && c > '~'))
  }

  /** How one character of a string is written inside the quotes. */
  function EscapeChar(c: char, asciiOnly: bool): string {
    if HasShortEscape(c) then ['\\', ShortEscape(c)]
    else if NeedsUnicodeEscape(c, asciiOnly) then UnicodeEscape(c)
    else [c]
  }

  function Escape(s: string, asciiOnly: bool): string {
    if s == [] then "" else EscapeChar(s[0], asciiOnly) + Escape(s[1..], asciiOnly)
  }

  function Quote(s: string, st: Style): string {
    "\"" + Escape(s, st.asciiOnly) + "\""
  }

  /** The JSON text of a value. */
  function Dumps(j: Json, st: Style): string {
    match j
    case JNull => "null"
    case JBool(b) => if b then "true" else "false"
    case JNum(n) => IntToString(n)
    case JStr(s) => Quote(s, st)
    case JArr(items) =>
      "[" + Join(seq(|items|, i requires 0 <= i < |items| => Dumps(items[i], st)), st.itemSep) + "]"
    case JObj(ms) =>
      "{" + Join(seq(|ms|, i requires 0 <= i < |ms| => Quote(ms[i].0, st) + st.keySep + Dumps(ms[i].1, st)), st.itemSep) + "}"
  }

  /** The serialized items of an array, in order. */
  function DumpItems(items: seq<Json>, st: Style): (ds: seq<string>)
    ensures |ds| == |items| && forall i :: 0 <= i < |items| ==> ds[i] == Dumps(items[i], st)
  {
    seq(|items|, i requires 0 <= i < |items| => Dumps(items[i], st))
  }

  /** One serialized object member: the quoted key, the key separator and the value. */
  function DumpMember(m: (string, Json), st: Style): string {
    Quote(m.0, st) + st.keySep + Dumps(m.1, st)
  }

  /** The serialized members of an object, in order. */
  function DumpMembers(ms: Entries<Json>, st: Style): (ds: seq<string>)
    ensures |ds| == |ms| && forall i :: 0 <= i < |ms| ==> ds[i] == DumpMember(ms[i], st)
  {
    seq(|ms|, i requires 0 <= i < |ms| => DumpMember(ms[i], st))
  }

  lemma DumpsArr(items: seq<Json>, st: Style)
    ensures Dumps(JArr(items), st) == "[" + Join(DumpItems(items, st), st.itemSep) + "]"
  {
    assert DumpItems(items, st) == seq(|items|, i requires 0 <= i < |items| => Dumps(items[i], st));
  }

  lemma DumpsObj(ms: Entries<Json>, st: Style)
    ensures Dumps(JObj(ms), st) == "{" + Join(DumpMembers(ms, st), st.itemSep) + "}"
  {
    assert DumpMembers(ms, st) == seq(|ms|, i requires 0 <= i < |ms| => Quote(ms[i].0, st) + st.keySep + Dumps(ms[i].1, st));
  }

  // ---------------------------------------------------------------- parser

  /** `s` without its leading JSON whitespace. */
  function SkipWs(s: string): (r: string)
    ensures |r| <= |s|
  {
    if s != [] && IsJsonWs(s[0]) then SkipWs(s[1..]) else s
  }

  function HexValue(c: char): int {
    if '0' <= c <= '9' then (c - '0') as int
    else if 'a' <= c <= 'f' then (c - 'a') as int + 10
    else if 'A' <= c <= 'F' then (c - 'A') as int + 10
    else -1
  }

  /** The value of four hexadecimal digits at the start of `s`, if they are there. */
  function Hex4Value(s: string): Option<nat> {
    if |s| < 4 || HexValue(s[0]) < 0 || HexValue(s[1]) < 0 || HexValue(s[2]) < 0 || HexValue(s[3]) < 0 then None
    else Some(((HexValue(s[0]) * 16 + HexValue(s[1])) * 16 + HexValue(s[2])) * 16 + HexValue(s[3]))
  }

  /** The code point of a surrogate pair. */
  function Combine(hi: int, lo: int): int {
    0x10000 + (hi - 0xD800) * 1024 + (lo - 0xDC00)
  }

  /** The character a `\u` escape stands for; `s` is what follows the `u`. A lone surrogate is refused. */
  function UnescapeUnicode(s: string): (r: Option<(char, string)>)
    ensures r.Some? ==> |r.value.1| < |s|
  {
    match Hex4Value(s)
    case None => None
    case Some(hi) =>
      if hi < 0xD800 || 0xE000 <= hi then Some((hi as char, s[4..]))
      else if 0xDC00 <= hi || |s| < 10 || s[4] != '\\' || s[5] != 'u' then None
      else
        match Hex4Value(s[6..])
        case None => None
        case Some(lo) =>
          if 0xDC00 <= lo < 0xE000 then Some((Combine(hi, lo) as char, s[10..]))
          else None
  }

  /** The character an escape stands for; `s` is what follows the backslash. */
  function Unescape(s: string): (r: Option<(char, string)>)
    ensures r.Some? ==> |r.value.1| < |s|
  {
    if s == [] then None
    else if s[0] == '"' || s[0] == '\\' || s[0] == '/' then Some((s[0], s[1..]))
    else if s[0] == 'n' then Some(('\n', s[1..]))
    else if s[0] == 'r' then Some(('\r', s[1..]))
    else if s[0] == 't' then Some(('\t', s[1..]))
    else if s[0] == 'b' then Some(('\U{0008}', s[1..]))
    else if s[0] == 'f' then Some(('\U{000C}', s[1..]))
    else if s[0] == 'u' then UnescapeUnicode(s[1..])
    else None
  }

  /** The characters of a string literal up to its closing quote; `s` follows the opening quote. */
  function ParseStringBody(s: string): (r: Option<(string, string)>)
    ensures r.Some? ==> |r.value.1| < |s|
  {
    if s == [] then None
    else if s[0] == '"' then Some(([], s[1..]))
    else if s[0] == '\\' then
      match Unescape(s[1..])
      case None => None
      case Some((c, rest)) =>
        match ParseStringBody(rest)
        case None => None
        case Some((body, after)) => Some(([c] + body, after))
    else if s[0] < ' ' then None
    else
      match ParseStringBody(s[1..])
      case None => None
      case Some((body, after)) => Some(([s[0]] + body, after))
  }

  /** The longest run of decimal digits at the start of `s`. */
  function TakeDigits(s: string): (r: string)
    ensures |r| <= |s| && r == s[..|r|] && All(r, IsDigit)
    ensures |r| == |s| || !IsDigit(s[|r|])
  {
    if s != [] && IsDigit(s[0]) then [s[0]] + TakeDigits(s[1..]) else []
  }

  /** A JSON natural number: `0`, or a non-zero digit followed by digits. */
  function ParseDigits(u: string): (r: Option<(nat, string)>)
    ensures r.Some? ==> |r.value.1| < |u|
  {
    if u == [] || !IsDigit(u[0]) then None
    else if u[0] == '0' then Some((0, u[1..]))
    else
      var d := TakeDigits(u);
      Some((DigitsValue(d), u[|d|..]))
  }

  /** An integer literal; a fraction or exponent (a Python float) is not part of this model. */
  function ParseNumber(t: string): (r: Option<(Json, string)>)
    ensures r.Some? ==> |r.value.1| < |t|
  {
    var neg := t != [] && t[0] == '-';
    match ParseDigits(if neg then t[1..] else t)
    case None => None
    case Some((v, rest)) =>
      if rest != [] && (rest[0] == '.' || rest[0] == 'e' || rest[0] == 'E') then None
      else
        var n: int := v;
        Some((JNum(if neg then -n else n), rest))
  }

  /** One JSON value at the start of `s` (after optional whitespace) and the text after it. */
  function ParseValue(s: string): (r: Option<(Json, string)>)
    ensures r.Some? ==> |r.value.1| < |s|
    decreases |s|, 1
  {
    ParseToken(SkipWs(s))
  }

  /** One JSON value starting exactly at the first character of `t`. */
  function ParseToken(t: string): (r: Option<(Json, string)>)
    ensures r.Some? ==> |r.value.1| < |t|
    decreases |t|, 0
  {
    if t == [] then None
    else if t[0] == 'n' then (if StartsWith(t, "null") then Some((JNull, t[4..])) else None)
    else if t[0] == 't' then (if StartsWith(t, "true") then Some((JBool(true), t[4..])) else None)
    else if t[0] == 'f' then (if StartsWith(t, "false") then Some((JBool(false), t[5..])) else None)
    else if t[0] == '"' then
      match ParseStringBody(t[1..])
      case None => None
      case Some((str, rest)) => Some((JStr(str), rest))
    else if t[0] == '[' then ParseArrayTail(t[1..])
    else if t[0] == '{' then ParseObjectTail(t[1..])
    else if t[0] == '-' || IsDigit(t[0]) then ParseNumber(t)
    else None
  }

  /** An array after its `[`. */
  function ParseArrayTail(s: string): (r: Option<(Json, string)>)
    ensures r.Some? ==> |r.value.1| < |s|
    decreases |s|, 3
  {
    var u := SkipWs(s);
    if u != [] && u[0] == ']' then Some((JArr([]), u[1..]))
    else
      match ParseItems(s, [])
      case None => None
      case Some((items, rest)) => Some((JArr(items), rest))
  }

  /** Items `v, v, ...]`, appended to `acc`. */
  function ParseItems(s: string, acc: seq<Json>): (r: Option<(seq<Json>, string)>)
    ensures r.Some? ==> |r.value.1| < |s|
    decreases |s|, 2
  {
    match ParseValue(s)
    case None => None
    case Some((v, rest)) =>
      var u := SkipWs(rest);
      if u != [] && u[0] == ',' then ParseItems(u[1..], acc + [v])
      else if u != [] && u[0] == ']' then Some((acc + [v], u[1..]))
      else None
  }

  /** An object after its `{`. */
  function ParseObjectTail(s: string): (r: Option<(Json, string)>)
    ensures r.Some? ==> |r.value.1| < |s|
    decreases |s|, 4
  {
    var u := SkipWs(s);
    if u != [] && u[0] == '}' then Some((JObj([]), u[1..]))
    else
      match ParseMembers(s, [])
      case None => None
      case Some((ms, rest)) => Some((JObj(ms), rest))
  }

  /** Members `"k": v, ...}`, each assigned into `acc` as a dictionary assignment (a repeated key keeps its first position and takes the last value). */
  function ParseMembers(s: string, acc: Entries<Json>): (r: Option<(Entries<Json>, string)>)
    ensures r.Some? ==> |r.value.1| < |s|
    decreases |s|, 3
  {
    var u := SkipWs(s);
    if u == [] || u[0] != '"' then None
    else
      match ParseStringBody(u[1..])
      case None => None
      case Some((k, rest)) => ParseMemberValue(k, rest, acc)
  }

  /** The `: v` after the key `k` of a member, then `,` and further members, or the closing `}`. */
  function ParseMemberValue(k: string, s: string, acc: Entries<Json>): (r: Option<(Entries<Json>, string)>)
    ensures r.Some? ==> |r.value.1| < |s|
    decreases |s|, 2
  {
    var w := SkipWs(s);
    if w == [] || w[0] != ':' then None
    else
      match ParseValue(w[1..])
      case None => None
      case Some((v, rest)) =>
        var x := SkipWs(rest);
        if x != [] && x[0] == ',' then ParseMembers(x[1..], Put(acc, k, v))
        else if x != [] && x[0] == '}' then Some((Put(acc, k, v), x[1..]))
        else None
  }

  /** Python `json.loads` / JavaScript `JSON.parse`: one value and nothing but whitespace after it. */
  function Loads(s: string): Option<Json> {
    match ParseValue(s)
    case Some((v, rest)) => if SkipWs(rest) == [] then Some(v) else None
    case None => None
  }

  // ---------------------------------------------------------------- round trip

  /** What may follow a value in the text without being read as part of it. */
  predicate Delimits(rest: string) {
    rest == [] || rest[0] == ',' || rest[0] == ']' || rest[0] == '}' || IsJsonWs(rest[0])
  }

  lemma {:induction false} SkipWsPrefix(w: string, s: string)
    requires All(w, IsJsonWs)
    ensures SkipWs(w + s) == SkipWs(s)
  {
    if w == [] {
      assert w + s == s;
    } else {
      AppendTail(w, s);
      assert All(w[1..], IsJsonWs) by {
        forall i | 0 <= i < |w[1..]| ensures IsJsonWs(w[1..][i]) {
          assert w[1..][i] == w[i + 1];
        }
      }
      SkipWsPrefix(w[1..], s);
    }
  }

  lemma SkipWsNone(s: string)
    requires s != [] && !IsJsonWs(s[0])
    ensures SkipWs(s) == s
  {
  }

  lemma HexCharValue(d: nat)
    requires d < 16
    ensures HexValue(HexChar(d)) == d
  {
  }

  lemma Hex4RoundTrip(n: nat, rest: string)
    requires n < 0x10000
    ensures Hex4Value(Hex4(n) + rest) == Some(n)
  {
    var q1 := n / 16;
    var q2 := q1 / 16;
    var q3 := q2 / 16;
    HexCharValue(q3);
    HexCharValue(q2 % 16);
    HexCharValue(q1 % 16);
    HexCharValue(n % 16);
    var h := Hex4(n) + rest;
    assert h[0] == HexChar(q3) && h[1] == HexChar(q2 % 16) && h[2] == HexChar(q1 % 16) && h[3] == HexChar(n % 16);
  }

  /** A short escape reads back as the character. */
  lemma UnescapeShort(c: char, u: string)
    requires HasShortEscape(c)
    ensures Unescape([ShortEscape(c)] + u) == Some((c, u))
  {
    assert ([ShortEscape(c)] + u)[1..] == u;
  }

  /** A `\u` escape of a character in the Basic Multilingual Plane reads back as the character. */
  lemma UnescapeBmp(c: char, u: string)
    requires c as int < 0x10000
    ensures UnescapeUnicode(Hex4(c as int) + u) == Some((c, u))
  {
    var n := c as int;
    Hex4RoundTrip(n, u);
    assert (Hex4(n) + u)[4..] == u;
  }

  /** A surrogate pair reads back as the character above the Basic Multilingual Plane. */
  lemma UnescapePair(c: char, u: string)
    requires c as int >= 0x10000
    ensures var v := c as int - 0x10000;
      UnescapeUnicode(Hex4(0xD800 + v / 1024) + "\\u" + Hex4(0xDC00 + v % 1024) + u) == Some((c, u))
  {
    var n := c as int;
    var v := n - 0x10000;
    var hi := 0xD800 + v / 1024;
    var lo := 0xDC00 + v % 1024;
    var t := Hex4(hi) + "\\u" + Hex4(lo) + u;
    assert t == Hex4(hi) + ("\\u" + Hex4(lo) + u);
    Hex4RoundTrip(hi, "\\u" + Hex4(lo) + u);
    assert t[6..] == Hex4(lo) + u;
    Hex4RoundTrip(lo, u);
    assert t[4] == '\\' && t[5] == 'u' && t[10..] == u;
    assert Combine(hi, lo) == n;
  }

  lemma UnescapeU(w: string)
    ensures Unescape("u" + w) == UnescapeUnicode(w)
  {
    assert ("u" + w)[0] == 'u' && ("u" + w)[1..] == w;
  }

  /** A `\u` escape (or surrogate pair) reads back as the character. */
  lemma UnescapeUnicodeRoundTrip(c: char, u: string)
    ensures Unescape(UnicodeEscape(c)[1..] + u) == Some((c, u))
  {
    var n := c as int;
    var w := if n < 0x10000 then Hex4(n) + u
      else
        var v := n - 0x10000;
        Hex4(0xD800 + v / 1024) + "\\u" + Hex4(0xDC00 + v % 1024) + u;
    assert UnicodeEscape(c)[1..] + u == "u" + w;
    UnescapeU(w);
    if n < 0x10000 {
      UnescapeBmp(c, u);
    } else {
      UnescapePair(c, u);
    }
  }

  /** An escaped character is decoded back to itself, whatever follows it. */
  lemma EscapeCharRoundTrip(c: char, asciiOnly: bool, u: string)
    ensures ParseStringBody(EscapeChar(c, asciiOnly) + u) ==
      match ParseStringBody(u)
      case None => None
      case Some((body, after)) => Some(([c] + body, after))
  {
    var s := EscapeChar(c, asciiOnly) + u;
    if HasShortEscape(c) {
      assert s[0] == '\\' && s[1..] == [ShortEscape(c)] + u;
      UnescapeShort(c, u);
    } else if NeedsUnicodeEscape(c, asciiOnly) {
      assert s[0] == '\\' && s[1..] == UnicodeEscape(c)[1..] + u;
      UnescapeUnicodeRoundTrip(c, u);
    } else {
      assert s[0] == c && s[1..] == u;
    }
  }

  /** The escaped text of a non-empty string, followed by the rest: its first character's escape first. */
  lemma EscapeCons(str: string, asciiOnly: bool, rest: string)
    requires str != []
    ensures Escape(str, asciiOnly) + "\"" + rest == EscapeChar(str[0], asciiOnly) + (Escape(str[1..], asciiOnly) + "\"" + rest)
  {
  }

  /** The body of a quoted string reads back as the string, leaving what follows the closing quote. */
  lemma {:induction false} EscapeRoundTrip(str: string, asciiOnly: bool, rest: string)
    ensures ParseStringBody(Escape(str, asciiOnly) + "\"" + rest) == Some((str, rest))
  {
    if str == [] {
      assert Escape(str, asciiOnly) + "\"" + rest == "\"" + rest;
      AppendTail("\"", rest);
    } else {
      var u := Escape(str[1..], asciiOnly) + "\"" + rest;
      EscapeRoundTrip(str[1..], asciiOnly, rest);
      EscapeCharRoundTrip(str[0], asciiOnly, u);
      EscapeCons(str, asciiOnly, rest);
      assert [str[0]] + str[1..] == str;
    }
  }

  lemma {:induction false} TakeDigitsPrefix(d: string, rest: string)
    requires All(d, IsDigit)
    requires rest == [] || !IsDigit(rest[0])
    ensures TakeDigits(d + rest) == d
  {
    if d == [] {
      assert d + rest == rest;
    } else {
      assert (d + rest)[0] == d[0];
      assert (d + rest)[1..] == d[1..] + rest;
      assert All(d[1..], IsDigit) by {
        forall i | 0 <= i < |d[1..]| ensures IsDigit(d[1..][i]) {
          assert d[1..][i] == d[i + 1];
        }
      }
      TakeDigitsPrefix(d[1..], rest);
      assert [d[0]] + d[1..] == d;
    }
  }

  lemma DigitsRoundTrip(m: nat, rest: string)
    requires rest == [] || !IsDigit(rest[0])
    ensures ParseDigits(NatToString(m) + rest) == Some((m, rest))
  {
    var d := NatToString(m);
    var u := d + rest;
    assert u[0] == d[0];
    DigitsValueOfNat(m);
    if d[0] == '0' {
      assert d == "0";
      assert u[1..] == rest;
    } else {
      TakeDigitsPrefix(d, rest);
      assert u[|d|..] == rest;
    }
  }

  lemma NumberRoundTrip(n: int, rest: string)
    requires Delimits(rest)
    ensures ParseNumber(IntToString(n) + rest) == Some((JNum(n), rest))
  {
    if n < 0 {
      NegativeRoundTrip(-n, rest);
    } else {
      NonNegativeRoundTrip(n, rest);
    }
  }

  lemma NonNegativeRoundTrip(m: nat, rest: string)
    requires Delimits(rest)
    ensures ParseNumber(NatToString(m) + rest) == Some((JNum(m), rest))
  {
    var u := NatToString(m) + rest;
    DigitsRoundTrip(m, rest);
    assert u[0] == NatToString(m)[0];
  }

  /** A delimiter is neither a fraction nor an exponent. */
  lemma DelimitsNoFraction(rest: string)
    requires Delimits(rest)
    ensures rest == [] || (rest[0] != '.' && rest[0] != 'e' && rest[0] != 'E')
  {
  }

  /** A minus sign before digits that read as `m`, with no fraction or exponent after them, reads as `-m`. */
  lemma ParseNegative(t: string, m: nat, rest: string)
    requires t != [] && t[0] == '-' && ParseDigits(t[1..]) == Some((m, rest))
    requires rest == [] || (rest[0] != '.' && rest[0] != 'e' && rest[0] != 'E')
    ensures ParseNumber(t) == Some((JNum(-(m as int)), rest))
  {
  }

  lemma NegativeRoundTrip(m: nat, rest: string)
    requires Delimits(rest) && m > 0
    ensures ParseNumber("-" + NatToString(m) + rest) == Some((JNum(-(m as int)), rest))
  {
    var u := NatToString(m) + rest;
    assert rest == [] || !IsDigit(rest[0]);
    DigitsRoundTrip(m, rest);
    DelimitsNoFraction(rest);
    var t := "-" + NatToString(m) + rest;
    assert t == "-" + u;
    AppendTail("-", u);
    ParseNegative(t, m, rest);
  }

  /** The character a serialized value starts with. */
  lemma DumpsHead(j: Json, st: Style)
    ensures var d := Dumps(j, st);
      d != [] && (d[0] == if j.JNum? then (if j.n < 0 then '-' else d[0]) else
        match j
        case JNull => 'n'
        case JBool(b) => if b then 't' else 'f'
        case JStr(_) => '"'
        case JArr(_) => '['
        case JObj(_) => '{'
        case JNum(_) => d[0])
      && (j.JNum? ==> d[0] == '-' || IsDigit(d[0]))
  {
    if j.JNum? {
      var m: nat := if j.n < 0 then -j.n else j.n;
      assert IsDigit(NatToString(m)[0]);
    }
  }

  /** A serialized value never starts with whitespace or a closing delimiter. */
  lemma DumpsStart(j: Json, st: Style)
    ensures var d := Dumps(j, st);
      d != [] && !IsJsonWs(d[0]) && d[0] != ']' && d[0] != '}' && d[0] != ','
  {
    DumpsHead(j, st);
  }

  /** The first character of a join is that of its first part. */
  lemma JoinHead(ds: seq<string>, sep: string)
    requires |ds| >= 1 && ds[0] != []
    ensures Join(ds, sep) != [] && Join(ds, sep)[0] == ds[0][0]
  {
  }

  /** The literals `null`, `true` and `false` read back. */
  lemma ParseLiteral(j: Json, st: Style, rest: string)
    requires (j.JNull? || j.JBool?) && Delimits(rest)
    ensures ParseToken(Dumps(j, st) + rest) == Some((j, rest))
  {
    var d := Dumps(j, st);
    var t := d + rest;
    assert t[..|d|] == d && t[|d|..] == rest;
    assert t[0] == d[0];
  }

  lemma ParseTokenNumber(t: string)
    requires t != [] && (t[0] == '-' || IsDigit(t[0]))
    ensures ParseToken(t) == ParseNumber(t)
  {
    assert t[0] != 'n' && t[0] != 't' && t[0] != 'f' && t[0] != '"' && t[0] != '[' && t[0] != '{';
  }

  lemma ParseNumberToken(n: int, st: Style, rest: string)
    requires Delimits(rest)
    ensures ParseToken(Dumps(JNum(n), st) + rest) == Some((JNum(n), rest))
  {
    var t := IntToString(n) + rest;
    DumpsHead(JNum(n), st);
    assert t[0] == IntToString(n)[0];
    ParseTokenNumber(t);
    NumberRoundTrip(n, rest);
  }

  lemma ParseStringToken(str: string, st: Style, rest: string)
    ensures ParseToken(Dumps(JStr(str), st) + rest) == Some((JStr(str), rest))
  {
    var t := Dumps(JStr(str), st) + rest;
    assert t == "\"" + (Escape(str, st.asciiOnly) + "\"" + rest);
    assert t[0] == '"' && t[1..] == Escape(str, st.asciiOnly) + "\"" + rest;
    EscapeRoundTrip(str, st.asciiOnly, rest);
  }

  /** Leading whitespace does not change what a value parses to. */
  lemma ParseValueSkipsWs(w: string, s: string)
    requires All(w, IsJsonWs)
    ensures ParseValue(w + s) == ParseValue(s)
  {
    SkipWsPrefix(w, s);
  }

  lemma ParseItemsSkipsWs(w: string, s: string, acc: seq<Json>)
    requires All(w, IsJsonWs)
    ensures ParseItems(w + s, acc) == ParseItems(s, acc)
  {
    ParseValueSkipsWs(w, s);
  }

  lemma ParseMembersSkipsWs(w: string, s: string, acc: Entries<Json>)
    requires All(w, IsJsonWs)
    ensures ParseMembers(w + s, acc) == ParseMembers(s, acc)
  {
    SkipWsPrefix(w, s);
  }

  /** One array item followed by `,` or `]`. */
  lemma ParseItemStep(v: Json, st: Style, tail: string, acc: seq<Json>)
    requires tail != [] && (tail[0] == ',' || tail[0] == ']')
    requires ParseValue(Dumps(v, st) + tail) == Some((v, tail))
    ensures ParseItems(Dumps(v, st) + tail, acc) ==
      if tail[0] == ',' then ParseItems(tail[1..], acc + [v]) else Some((acc + [v], tail[1..]))
  {
    SkipWsNone(tail);
  }

  /** `v` reads back from its serialization whatever delimiter follows it. */
  ghost predicate ReadsBack(v: Json, st: Style) {
    forall r {:trigger ParseValue(Dumps(v, st) + r)} :: Delimits(r) ==> ParseValue(Dumps(v, st) + r) == Some((v, r))
  }

  lemma UseReadsBack(v: Json, st: Style, r: string)
    requires ReadsBack(v, st) && Delimits(r)
    ensures ParseValue(Dumps(v, st) + r) == Some((v, r))
  {
  }

  lemma ItemsLast(v: Json, st: Style, rest: string, acc: seq<Json>)
    requires ReadsBack(v, st) && Delimits(rest)
    ensures ParseItems(Dumps(v, st) + ("]" + rest), acc) == Some((acc + [v], rest))
  {
    var tail := "]" + rest;
    assert Delimits(tail);
    ParseItemStep(v, st, tail, acc);
    assert tail[1..] == rest;
  }

  lemma ItemsMore(v: Json, st: Style, more: string, acc: seq<Json>)
    requires ValidStyle(st) && ParseValue(Dumps(v, st) + (st.itemSep + more)) == Some((v, st.itemSep + more))
    ensures ParseItems(Dumps(v, st) + (st.itemSep + more), acc) == ParseItems(more, acc + [v])
  {
    var tail := st.itemSep + more;
    AppendTail(st.itemSep, more);
    ParseItemStep(v, st, tail, acc);
    ParseItemsSkipsWs(st.itemSep[1..], more, acc + [v]);
  }

  /** A one-item array body. */
  lemma ItemsOne(items: seq<Json>, st: Style, rest: string, acc: seq<Json>)
    requires |items| == 1 && ReadsBack(items[0], st) && Delimits(rest)
    ensures ParseItems(Join(DumpItems(items, st), st.itemSep) + "]" + rest, acc) == Some((acc + items, rest))
  {
    assert Join(DumpItems(items, st), st.itemSep) == Dumps(items[0], st);
    assert Dumps(items[0], st) + "]" + rest == Dumps(items[0], st) + ("]" + rest);
    ItemsLast(items[0], st, rest, acc);
    assert acc + [items[0]] == acc + items;
  }

  /** The first item of a longer array body is read, then the rest. */
  lemma ItemsCons(items: seq<Json>, st: Style, rest: string, acc: seq<Json>)
    requires |items| >= 2 && ValidStyle(st) && ReadsBack(items[0], st)
    ensures ParseItems(Join(DumpItems(items, st), st.itemSep) + "]" + rest, acc)
      == ParseItems(Join(DumpItems(items[1..], st), st.itemSep) + "]" + rest, acc + [items[0]])
  {
    var ds := DumpItems(items, st);
    assert DumpItems(items[1..], st) == ds[1..];
    var more := Join(ds[1..], st.itemSep) + "]" + rest;
    assert Join(ds, st.itemSep) == ds[0] + st.itemSep + Join(ds[1..], st.itemSep);
    assert Join(ds, st.itemSep) + "]" + rest == Dumps(items[0], st) + (st.itemSep + more);
    AppendTail(st.itemSep, more);
    UseReadsBack(items[0], st, st.itemSep + more);
    ItemsMore(items[0], st, more, acc);
  }

  /** The items of a serialized array read back, given that each item does. */
  lemma {:induction false} ParseItemsRoundTrip(items: seq<Json>, st: Style, rest: string, acc: seq<Json>)
    requires |items| >= 1 && ValidStyle(st) && Delimits(rest)
    requires forall i :: 0 <= i < |items| ==> ReadsBack(items[i], st)
    ensures ParseItems(Join(DumpItems(items, st), st.itemSep) + "]" + rest, acc) == Some((acc + items, rest))
    decreases |items|
  {
    if |items| == 1 {
      ItemsOne(items, st, rest, acc);
    } else {
      var tl := items[1..];
      assert forall i :: 0 <= i < |tl| ==> ReadsBack(tl[i], st) by {
        forall i | 0 <= i < |tl| ensures ReadsBack(tl[i], st) {
          assert tl[i] == items[i + 1];
        }
      }
      ParseItemsRoundTrip(tl, st, rest, acc + [items[0]]);
      ItemsCons(items, st, rest, acc);
      assert acc + [items[0]] + tl == acc + items;
    }
  }

  lemma ParseTokenOpen(c: char, a: string)
    requires c == '[' || c == '{'
    ensures ParseToken([c] + a) == if c == '[' then ParseArrayTail(a) else ParseObjectTail(a)
  {
    AppendTail([c], a);
  }

  /** An array body (after the `[`) reads back, given that each item does. */
  lemma ArrayBody(items: seq<Json>, st: Style, rest: string)
    requires ValidStyle(st) && Delimits(rest)
    requires forall i :: 0 <= i < |items| ==> ReadsBack(items[i], st)
    ensures ParseArrayTail(Join(DumpItems(items, st), st.itemSep) + "]" + rest) == Some((JArr(items), rest))
  {
    var ds := DumpItems(items, st);
    var a := Join(ds, st.itemSep) + "]" + rest;
    if items == [] {
      assert a == "]" + rest;
      AppendTail("]", rest);
      SkipWsNone(a);
    } else {
      DumpsStart(items[0], st);
      JoinHead(ds, st.itemSep);
      assert a[0] == ds[0][0];
      SkipWsNone(a);
      ParseItemsRoundTrip(items, st, rest, []);
      assert [] + items == items;
    }
  }

  /** A serialized array reads back, given that each item does. */
  lemma ParseArray(items: seq<Json>, st: Style, rest: string)
    requires ValidStyle(st) && Delimits(rest)
    requires forall i :: 0 <= i < |items| ==> ReadsBack(items[i], st)
    ensures ParseToken(Dumps(JArr(items), st) + rest) == Some((JArr(items), rest))
  {
    DumpsArr(items, st);
    var a := Join(DumpItems(items, st), st.itemSep) + "]" + rest;
    assert Dumps(JArr(items), st) + rest == ['['] + a;
    ParseTokenOpen('[', a);
    ArrayBody(items, st, rest);
  }

  /** After the key of a member has been read. */
  lemma MemberKeyStep(k: string, st: Style, after: string, acc: Entries<Json>)
    ensures ParseMembers(Quote(k, st) + after, acc) == ParseMemberValue(k, after, acc)
  {
    var body := Escape(k, st.asciiOnly) + "\"" + after;
    assert Quote(k, st) + after == "\"" + body;
    AppendTail("\"", body);
    SkipWsNone("\"" + body);
    EscapeRoundTrip(k, st.asciiOnly, after);
  }

  /** The `: value` of a member followed by `,` or `}`. */
  lemma MemberValueStep(k: string, v: Json, st: Style, tail: string, acc: Entries<Json>)
    requires ValidStyle(st) && tail != [] && (tail[0] == ',' || tail[0] == '}')
    requires ParseValue(Dumps(v, st) + tail) == Some((v, tail))
    ensures ParseMemberValue(k, st.keySep + (Dumps(v, st) + tail), acc) ==
      if tail[0] == ',' then ParseMembers(tail[1..], Put(acc, k, v)) else Some((Put(acc, k, v), tail[1..]))
  {
    var s := st.keySep + (Dumps(v, st) + tail);
    AppendTail(st.keySep, Dumps(v, st) + tail);
    SkipWsNone(s);
    ParseValueSkipsWs(st.keySep[1..], Dumps(v, st) + tail);
    SkipWsNone(tail);
  }

  /** One object member followed by `,` or `}`. */
  lemma ParseMemberStep(k: string, v: Json, st: Style, tail: string, acc: Entries<Json>)
    requires ValidStyle(st) && tail != [] && (tail[0] == ',' || tail[0] == '}')
    requires ParseValue(Dumps(v, st) + tail) == Some((v, tail))
    ensures ParseMembers(DumpMember((k, v), st) + tail, acc) ==
      if tail[0] == ',' then ParseMembers(tail[1..], Put(acc, k, v)) else Some((Put(acc, k, v), tail[1..]))
  {
    assert DumpMember((k, v), st) + tail == Quote(k, st) + (st.keySep + (Dumps(v, st) + tail));
    MemberKeyStep(k, st, st.keySep + (Dumps(v, st) + tail), acc);
    MemberValueStep(k, v, st, tail, acc);
  }

  /** A fresh key is appended by `Put`. */
  lemma PutFresh(acc: Entries<Json>, ms: Entries<Json>)
    requires |ms| >= 1 && DistinctKeys(acc + ms)
    ensures Put(acc, ms[0].0, ms[0].1) == acc + [ms[0]]
    ensures |ms| == 1 ==> Put(acc, ms[0].0, ms[0].1) == acc + ms
  {
    var k := ms[0].0;
    assert !HasKey(acc, k) by {
      forall i | 0 <= i < |acc| ensures acc[i].0 != k {
        assert (acc + ms)[i] == acc[i] && (acc + ms)[|acc|] == ms[0];
      }
    }
  }

  lemma MembersLast(k: string, v: Json, st: Style, rest: string, acc: Entries<Json>)
    requires ValidStyle(st) && Delimits(rest) && ReadsBack(v, st)
    ensures ParseMembers(DumpMember((k, v), st) + ("}" + rest), acc) == Some((Put(acc, k, v), rest))
  {
    var tail := "}" + rest;
    AppendTail("}", rest);
    UseReadsBack(v, st, tail);
    ParseMemberStep(k, v, st, tail, acc);
  }

  /** A one-member object body. */
  lemma MembersOne(ms: Entries<Json>, st: Style, rest: string, acc: Entries<Json>)
    requires |ms| == 1 && ValidStyle(st) && Delimits(rest) && DistinctKeys(acc + ms)
    requires ReadsBack(ms[0].1, st)
    ensures ParseMembers(Join(DumpMembers(ms, st), st.itemSep) + "}" + rest, acc) == Some((acc + ms, rest))
  {
    var k, v := ms[0].0, ms[0].1;
    var d := DumpMember((k, v), st);
    JoinOne(DumpMembers(ms, st), st.itemSep);
    assert d + "}" + rest == d + ("}" + rest);
    MembersLast(k, v, st, rest, acc);
    PutFresh(acc, ms);
  }

  lemma JoinOne(ds: seq<string>, sep: string)
    requires |ds| == 1
    ensures Join(ds, sep) == ds[0]
  {
  }

  /** A member followed by the item separator: its entry is put, then the members after the separator are read. */
  lemma MembersMore(k: string, v: Json, st: Style, more: string, acc: Entries<Json>)
    requires ValidStyle(st) && ParseValue(Dumps(v, st) + (st.itemSep + more)) == Some((v, st.itemSep + more))
    ensures ParseMembers(DumpMember((k, v), st) + (st.itemSep + more), acc) == ParseMembers(more, Put(acc, k, v))
  {
    var tail := st.itemSep + more;
    AppendTail(st.itemSep, more);
    ParseMemberStep(k, v, st, tail, acc);
    ParseMembersSkipsWs(st.itemSep[1..], more, Put(acc, k, v));
  }

  /** The first member of a longer object body is read, then the rest. */
  lemma MembersCons(ms: Entries<Json>, st: Style, rest: string, acc: Entries<Json>)
    requires |ms| >= 2 && ValidStyle(st) && DistinctKeys(acc + ms) && ReadsBack(ms[0].1, st)
    ensures ParseMembers(Join(DumpMembers(ms, st), st.itemSep) + "}" + rest, acc)
      == ParseMembers(Join(DumpMembers(ms[1..], st), st.itemSep) + "}" + rest, acc + [ms[0]])
  {
    var ds := DumpMembers(ms, st);
    assert DumpMembers(ms[1..], st) == ds[1..];
    var more := Join(ds[1..], st.itemSep) + "}" + rest;
    assert Join(ds, st.itemSep) == ds[0] + st.itemSep + Join(ds[1..], st.itemSep);
    assert Join(ds, st.itemSep) + "}" + rest == DumpMember((ms[0].0, ms[0].1), st) + (st.itemSep + more);
    AppendTail(st.itemSep, more);
    UseReadsBack(ms[0].1, st, st.itemSep + more);
    MembersMore(ms[0].0, ms[0].1, st, more, acc);
    PutFresh(acc, ms);
  }

  /** The members of a serialized object with distinct keys read back, given that each value does. */
  lemma {:induction false} ParseMembersRoundTrip(ms: Entries<Json>, st: Style, rest: string, acc: Entries<Json>)
    requires |ms| >= 1 && ValidStyle(st) && Delimits(rest)
    requires DistinctKeys(acc + ms)
    requires forall i :: 0 <= i < |ms| ==> ReadsBack(ms[i].1, st)
    ensures ParseMembers(Join(DumpMembers(ms, st), st.itemSep) + "}" + rest, acc) == Some((acc + ms, rest))
    decreases |ms|
  {
    if |ms| == 1 {
      MembersOne(ms, st, rest, acc);
    } else {
      var tl := ms[1..];
      assert forall i :: 0 <= i < |tl| ==> ReadsBack(tl[i].1, st) by {
        forall i | 0 <= i < |tl| ensures ReadsBack(tl[i].1, st) {
          assert tl[i] == ms[i + 1];
        }
      }
      assert acc + [ms[0]] + tl == acc + ms;
      ParseMembersRoundTrip(tl, st, rest, acc + [ms[0]]);
      MembersCons(ms, st, rest, acc);
    }
  }

  /** An object body (after the `{`) with distinct keys reads back, given that each value does. */
  lemma ObjectBody(ms: Entries<Json>, st: Style, rest: string)
    requires ValidStyle(st) && Delimits(rest) && DistinctKeys(ms)
    requires forall i :: 0 <= i < |ms| ==> ReadsBack(ms[i].1, st)
    ensures ParseObjectTail(Join(DumpMembers(ms, st), st.itemSep) + "}" + rest) == Some((JObj(ms), rest))
  {
    var ds := DumpMembers(ms, st);
    var a := Join(ds, st.itemSep) + "}" + rest;
    if ms == [] {
      assert a == "}" + rest;
      AppendTail("}", rest);
      SkipWsNone(a);
    } else {
      assert ds[0][0] == '"';
      JoinHead(ds, st.itemSep);
      assert a[0] == '"';
      SkipWsNone(a);
      assert [] + ms == ms;
      ParseMembersRoundTrip(ms, st, rest, []);
    }
  }

  /** A serialized object with distinct keys reads back, given that each value does. */
  lemma ParseObject(ms: Entries<Json>, st: Style, rest: string)
    requires ValidStyle(st) && Delimits(rest) && DistinctKeys(ms)
    requires forall i :: 0 <= i < |ms| ==> ReadsBack(ms[i].1, st)
    ensures ParseToken(Dumps(JObj(ms), st) + rest) == Some((JObj(ms), rest))
  {
    DumpsObj(ms, st);
    var a := Join(DumpMembers(ms, st), st.itemSep) + "}" + rest;
    assert Dumps(JObj(ms), st) + rest == ['{'] + a;
    ParseTokenOpen('{', a);
    ObjectBody(ms, st, rest);
  }

  /** Serializing then parsing a well-formed value gives it back, leaving whatever followed it. */
  lemma {:induction false} ParseDumps(j: Json, st: Style, rest: string)
    requires WellFormed(j) && ValidStyle(st) && Delimits(rest)
    ensures ParseValue(Dumps(j, st) + rest) == Some((j, rest))
    decreases j
  {
    var t := Dumps(j, st) + rest;
    DumpsStart(j, st);
    SkipWsNone(t);
    match j
    case JArr(items) =>
      forall i | 0 <= i < |items| ensures ReadsBack(items[i], st) {
        forall r | Delimits(r) ensures ParseValue(Dumps(items[i], st) + r) == Some((items[i], r)) {
          ParseDumps(items[i], st, r);
        }
      }
      ParseArray(items, st, rest);
    case JObj(ms) =>
      forall i | 0 <= i < |ms| ensures ReadsBack(ms[i].1, st) {
        forall r | Delimits(r) ensures ParseValue(Dumps(ms[i].1, st) + r) == Some((ms[i].1, r)) {
          ParseDumps(ms[i].1, st, r);
        }
      }
      ParseObject(ms, st, rest);
    case JStr(str) =>
      ParseStringToken(str, st, rest);
    case JNum(n) =>
      ParseNumberToken(n, st, rest);
    case _ =>
      ParseLiteral(j, st, rest);
  }

  /** `loads(dumps(v)) == v` for every well-formed value. */
  lemma LoadsDumps(j: Json, st: Style)
    requires WellFormed(j) && ValidStyle(st)
    ensures Loads(Dumps(j, st)) == Some(j)
  {
    ParseDumps(j, st, "");
    assert Dumps(j, st) + "" == Dumps(j, st);
  }
}
