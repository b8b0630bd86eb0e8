/**
 * String operations the storefront relies on, written out with the semantics of the
 * language that performs them: JavaScript's `trim` and `\s`, Python's `str.strip`,
 * `str.split`, `str.lower` on ASCII text, `os.path.basename` and `os.path.splitext`.
 */
module Text {

  /** JavaScript WhiteSpace and LineTerminator code points: what `String.prototype.trim` removes and `\s` matches. */
  predicate IsJsSpace(c: char) {
    c == '\t' || c == '\n' || c == '\U{000B}' || c == '\U{000C}' || c == '\r' || c == ' '
    || c == '\U{00A0}' || c == '\U{1680}' || ('\U{2000}' <= c <= '\U{200A}')
    || c == '\U{2028}' || c == '\U{2029}' || c == '\U{202F}' || c == '\U{205F}'
    || c == '\U{3000}' || c == '\U{FEFF}'
  }

  /** Python's `str.isspace` on one character: what `str.strip()` removes. */
  predicate IsPySpace(c: char) {
    ('\t' <= c <= '\r') || ('\U{001C}' <= c <= '\U{001F}') || c == ' '
    || c == '\U{0085}' || c == '\U{00A0}' || c == '\U{1680}' || ('\U{2000}' <= c <= '\U{200A}')
    || c == '\U{2028}' || c == '\U{2029}' || c == '\U{202F}' || c == '\U{205F}' || c == '\U{3000}'
  }

  predicate IsDigit(c: char) {
    '0' <= c <= '9'
  }

  /** Every character of `s` satisfies `p`. */
  predicate All(s: string, p: char -> bool) {
    forall i :: 0 <= i < |s| ==> p(s[i])
  }

  /** `s` with its leading `space` characters removed. */
  function DropLeading(s: string, space: char -> bool): (r: string)
    ensures |r| <= |s| && r == s[|s| - |r|..]
    ensures r == [] || !space(r[0])
    ensures forall i :: 0 <= i < |s| - |r| ==> space(s[i])
  {
    if s != [] && space(s[0]) then
      var r := DropLeading(s[1..], space);
      assert s[1..][|s| - 1 - |r|..] == s[|s| - |r|..];
      assert forall i :: 0 <= i < |s| - 1 ==> s[1..][i] == s[i + 1];
      r
    else s
  }

  /** `s` with its trailing `space` characters removed. */
  function DropTrailing(s: string, space: char -> bool): (r: string)
    ensures |r| <= |s| && r == s[..|r|]
    ensures r == [] || !space(r[|r| - 1])
    ensures forall i :: |r| <= i < |s| ==> space(s[i])
  {
    if s != [] && space(s[|s| - 1]) then DropTrailing(s[..|s| - 1], space) else s
  }

  /** Head and tail of a concatenation whose left part is not empty. */
  lemma AppendTail(a: string, b: string)
    requires a != []
    ensures (a + b)[0] == a[0] && (a + b)[1..] == a[1..] + b
  {
  }

  /** Both ends stripped of `space` characters. */
  function Strip(s: string, space: char -> bool): string {
    DropTrailing(DropLeading(s, space), space)
  }

  /** JavaScript `s.trim()`. */
  function JsTrim(s: string): string {
    Strip(s, IsJsSpace)
  }

  /** Python `s.strip()`. */
  function PyStrip(s: string): string {
    Strip(s, IsPySpace)
  }

  /** A string strips to nothing exactly when every character is a space character. */
  lemma StripEmptyIff(s: string, space: char -> bool)
    ensures Strip(s, space) == [] <==> All(s, space)
  {
    var l := DropLeading(s, space);
    if l != [] {
      assert l[0] == s[|s| - |l|];
    }
  }

  /** A stripped string neither starts nor ends with a space character, and is an infix of the input. */
  lemma StripShape(s: string, space: char -> bool)
    ensures var r := Strip(s, space);
      (r == [] || (!space(r[0]) && !space(r[|r| - 1])))
      && exists k :: OccursAt(s, r, k)
  {
    var l := DropLeading(s, space);
    var r := DropTrailing(l, space);
    var k := |s| - |l|;
    assert Strip(s, space) == r;
    if r != [] {
      assert r[0] == l[0];
    }
    assert l == s[k..] && r == l[..|r|];
    assert s[k..k + |r|] == r;
    assert OccursAt(s, r, k);
  }

  /** A string that starts with a non-space character does not strip to nothing. */
  lemma SolidStartNotBlank(s: string, space: char -> bool)
    requires s != [] && !space(s[0])
    ensures Strip(s, space) != []
  {
    StripEmptyIff(s, space);
  }

  /** Stripping a string that does not start or end with a space character changes nothing. */
  lemma StripUnpadded(s: string, space: char -> bool)
    requires s == [] || (!space(s[0]) && !space(s[|s| - 1]))
    ensures Strip(s, space) == s
  {
  }

  /** ASCII lower-casing: what Python's `str.lower` does on the ASCII range. */
  function AsciiLower(s: string): (r: string)
    ensures |r| == |s|
    ensures forall i :: 0 <= i < |s| ==> (r[i] == if 'A' <= s[i] <= 'Z' then s[i] - 'A' + 'a' else s[i])
  {
    if s == [] then [] else [if 'A' <= s[0] <= 'Z' then s[0] - 'A' + 'a' else s[0]] + AsciiLower(s[1..])
  }

  predicate StartsWith(s: string, prefix: string) {
    |prefix| <= |s| && s[..|prefix|] == prefix
  }

  /** `sub` occurs in `s` starting at index `k`. */
  predicate OccursAt(s: string, sub: string, k: int) {
    0 <= k <= |s| - |sub| && s[k..k + |sub|] == sub
  }

  /** An occurrence at `k >= 1` is an occurrence at `k - 1` in the string without its first character. */
  lemma OccursShift(s: string, sub: string, k: int)
    requires |s| > 0 && 1 <= k
    ensures OccursAt(s, sub, k) <==> OccursAt(s[1..], sub, k - 1)
  {
    if k <= |s| - |sub| {
      assert s[1..][k - 1..k - 1 + |sub|] == s[k..k + |sub|];
    }
  }

  /** JavaScript `s.includes(sub)` / Python `sub in s`: `sub` occurs in `s` at some position. */
  function Contains(s: string, sub: string): (r: bool)
    ensures r <==> exists k :: OccursAt(s, sub, k)
  {
    if StartsWith(s, sub) then
      assert OccursAt(s, sub, 0);
      true
    else if |s| <= |sub| then
      assert forall k :: !OccursAt(s, sub, k);
      false
    else
      var r := Contains(s[1..], sub);
      forall k | 1 <= k ensures OccursAt(s, sub, k) <==> OccursAt(s[1..], sub, k - 1) {
        OccursShift(s, sub, k);
      }
      if r then
        var k :| OccursAt(s[1..], sub, k);
        assert OccursAt(s, sub, k + 1);
        true
      else
        assert !OccursAt(s, sub, 0);
        false
  }

  /** Parts joined with `sep` between consecutive parts (JavaScript `parts.join(sep)`, Python `sep.join(parts)`). */
  function Join(parts: seq<string>, sep: string): string {
    if |parts| == 0 then ""
    else if |parts| == 1 then parts[0]
    else parts[0] + sep + Join(parts[1..], sep)
  }

  /** Python `s.split(sep)` for a one-character separator: every separator splits, empty parts are kept. */
  function Split(s: string, sep: char): (parts: seq<string>)
    ensures |parts| >= 1
    ensures forall i :: 0 <= i < |parts| ==> sep !in parts[i]
    ensures Join(parts, [sep]) == s
  {
    if s == [] then [[]]
    else
      var rest := Split(s[1..], sep);
      if s[0] == sep then [[]] + rest
      else [[s[0]] + rest[0]] + rest[1..]
  }

  /** Splitting a join of separator-free parts gives the parts back. */
  lemma {:induction false} SplitJoin(parts: seq<string>, sep: char)
    requires |parts| >= 1
    requires forall i :: 0 <= i < |parts| ==> sep !in parts[i]
    ensures Split(Join(parts, [sep]), sep) == parts
  {
    if |parts| == 1 {
      SplitNoSep(parts[0], sep);
    } else {
      var tail := Join(parts[1..], [sep]);
      SplitJoin(parts[1..], sep);
      assert Join(parts, [sep]) == parts[0] + ([sep] + tail);
      SplitAtSep(parts[0], tail, sep);
      assert [parts[0]] + parts[1..] == parts;
    }
  }

  /** A separator-free part, the separator, then the rest: the part comes first, then the rest's parts. */
  lemma SplitAtSep(p: string, tail: string, sep: char)
    requires sep !in p
    ensures Split(p + ([sep] + tail), sep) == [p] + Split(tail, sep)
  {
    var t := [sep] + tail;
    SplitPrefix(p, t, sep);
    assert t[0] == sep && t[1..] == tail;
    assert Split(t, sep) == [[]] + Split(tail, sep);
    assert p + [] == p;
  }

  /** A string without the separator splits into itself. */
  lemma {:induction false} SplitNoSep(s: string, sep: char)
    requires sep !in s
    ensures Split(s, sep) == [s]
  {
    if s != [] {
      SplitNoSep(s[1..], sep);
    }
  }

  /** A separator-free prefix is glued onto the first part of what follows it. */
  lemma {:induction false} SplitPrefix(p: string, t: string, sep: char)
    requires sep !in p
    ensures Split(p + t, sep) == [p + Split(t, sep)[0]] + Split(t, sep)[1..]
  {
    if p != [] {
      SplitPrefix(p[1..], t, sep);
      var st := Split(t, sep);
      assert (p + t)[0] == p[0] && (p + t)[1..] == p[1..] + t;
      assert p[0] != sep;
      var rest := Split(p[1..] + t, sep);
      assert rest == [p[1..] + st[0]] + st[1..];
      assert Split(p + t, sep) == [[p[0]] + rest[0]] + rest[1..];
      assert [p[0]] + (p[1..] + st[0]) == p + st[0];
    } else {
      var st := Split(t, sep);
      assert p + t == t && p + st[0] == st[0];
      assert [st[0]] + st[1..] == st;
    }
  }

  function DigitChar(d: nat): char
    requires d < 10
  {
    '0' + d as char
  }

  /** Decimal notation of a natural number, without leading zeros. */
  function NatToString(n: nat): (r: string)
    ensures |r| >= 1 && All(r, IsDigit)
    ensures r[0] != '0' || n == 0
  {
    if n < 10 then [DigitChar(n)] else NatToString(n / 10) + [DigitChar(n % 10)]
  }

  /** Decimal notation of an integer, with a leading `-` when negative (JavaScript `String(n)` on an integer). */
  function IntToString(n: int): string {
    if n < 0 then "-" + NatToString(-n) else NatToString(n)
  }

  /** Value of a non-empty run of decimal digits. */
  function DigitsValue(s: string): nat
    requires All(s, IsDigit)
  {
    if s == [] then 0 else DigitsValue(s[..|s| - 1]) * 10 + (s[|s| - 1] - '0') as nat
  }

  /** Reading back the decimal notation gives the number. */
  lemma {:induction false} DigitsValueOfNat(n: nat)
    ensures DigitsValue(NatToString(n)) == n
  {
    if n >= 10 {
      var s := NatToString(n);
      assert s[..|s| - 1] == NatToString(n / 10);
      DigitsValueOfNat(n / 10);
    }
  }

  /** Index of the last occurrence of `c` in `s`, or -1 (Python `str.rfind`). */
  function LastIndex(s: string, c: char): (r: int)
    ensures -1 <= r < |s|
    ensures r >= 0 ==> s[r] == c
    ensures forall i :: r < i < |s| ==> s[i] != c
  {
    if s == [] then -1
    else if s[|s| - 1] == c then |s| - 1
    else LastIndex(s[..|s| - 1], c)
  }

  /** Python `os.path.basename` on a POSIX path: everything after the last `/`. */
  function Basename(path: string): (r: string)
    ensures '/' !in r
    ensures |r| <= |path| && r == path[|path| - |r|..]
    ensures '/' !in path ==> r == path
    ensures |r| < |path| ==> path[|path| - |r| - 1] == '/'
  {
    var k := LastIndex(path, '/') + 1;
    assert forall i :: 0 <= i < |path[k..]| ==> path[k..][i] == path[k + i];
    path[k..]
  }

  predicate OnlyDots(s: string) {
    forall i :: 0 <= i < |s| ==> s[i] == '.'
  }

  /**
   * The extension part of Python `os.path.splitext(path)`: from the last `.` of the last path
   * component, provided something other than dots precedes it in that component; otherwise empty.
   */
  function Extension(path: string): (r: string)
    ensures r == [] || (r[0] == '.' && '.' !in r[1..] && '/' !in r)
    ensures var b := Basename(path); |r| <= |b| && r == b[|b| - |r|..]
    ensures r != [] <==> DotAfterOther(Basename(path))
  {
    var b := Basename(path);
    var d := LastIndex(b, '.');
    ExtensionRule(b);
    if d > 0 && !OnlyDots(b[..d]) then
      assert b[d..] == b[|b| - |b[d..]|..];
      b[d..]
    else ""
  }

  /** Some character other than a dot comes before a dot. */
  predicate DotAfterOther(b: string) {
    exists i, j :: 0 <= i < j < |b| && b[i] != '.' && b[j] == '.'
  }

  /** `splitext` finds an extension exactly when some character other than a dot comes before a dot. */
  lemma ExtensionRule(b: string)
    ensures var d := LastIndex(b, '.'); d > 0 && !OnlyDots(b[..d]) <==> DotAfterOther(b)
  {
    var d := LastIndex(b, '.');
    if d > 0 && !OnlyDots(b[..d]) {
      var i :| 0 <= i < d && b[..d][i] != '.';
      assert b[i] != '.' && b[d] == '.';
    }
    if exists i, j :: 0 <= i < j < |b| && b[i] != '.' && b[j] == '.' {
      var i, j :| 0 <= i < j < |b| && b[i] != '.' && b[j] == '.';
      assert j <= d;
      assert b[..d][i] != '.';
    }
  }
}
