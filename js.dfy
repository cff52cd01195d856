/**
 * The JavaScript built-ins that the dashboard's logic relies on, on `string` = `seq<char>`:
 * truthiness of an optional string (`a || b`), `String.prototype.indexOf`, `includes`,
 * `replace` with a string pattern, `substring`, `parseInt`, and `Number.prototype.toString`
 * for integers.
 */
module Js {
  import opened Outcomes

  /** JavaScript truthiness of an optional string: `undefined` and `""` are falsy. */
  predicate Truthy(s: Option<string>) {
    s.Some? && s.value != ""
  }

  /** `s || fallback` for an optional string. */
  function OrElse(s: Option<string>, fallback: string): string {
    if Truthy(s) then s.value else fallback
  }

  /** Truthiness of an optional boolean: `undefined` and `false` are falsy. */
  predicate IsTrue(b: Option<bool>) {
    b == Some(true)
  }

  /** The names an object literal `{}` inherits from `Object.prototype`. */
  const ObjectPrototypeMembers: set<string> := {
    "constructor", "__proto__", "__defineGetter__", "__defineSetter__", "__lookupGetter__",
    "__lookupSetter__", "hasOwnProperty", "isPrototypeOf", "propertyIsEnumerable",
    "toLocaleString", "toString", "valueOf"
  }

  // ---------------------------------------------------------------------------------------
  // Searching and replacing

  /** `pat` occurs in `s` starting at index `i`. */
  predicate OccursAt(s: string, pat: string, i: int) {
    0 <= i && i + |pat| <= |s| && s[i..i + |pat|] == pat
  }

  /** `s.indexOf(pat)`: the first index at which `pat` occurs, `None` for -1. */
  function IndexOf(s: string, pat: string): (r: Option<nat>)
    ensures r.Some? ==> OccursAt(s, pat, r.value)
    ensures r.Some? ==> forall i :: 0 <= i < r.value ==> !OccursAt(s, pat, i)
    ensures r.None? ==> forall i :: !OccursAt(s, pat, i)
    decreases |s|
  {
    if |s| < |pat| then None
    else if s[..|pat|] == pat then Some(0)
    else
      var rest := IndexOf(s[1..], pat);
      ShiftOccurrence(s, pat);
      match rest
      case None => None
      case Some(i) => Some(i + 1)
  }

  /** Occurrences in `s` after index 0 are the occurrences in `s[1..]` one position back. */
  lemma ShiftOccurrence(s: string, pat: string)
    requires s != []
    ensures forall j :: 1 <= j ==> (OccursAt(s, pat, j) <==> OccursAt(s[1..], pat, j - 1))
  {
    forall j | 1 <= j
      ensures OccursAt(s, pat, j) <==> OccursAt(s[1..], pat, j - 1)
    {
      if j + |pat| <= |s| {
        assert s[1..][j - 1..j - 1 + |pat|] == s[j..j + |pat|];
      }
    }
  }

  /** `s.includes(pat)`. */
  predicate Includes(s: string, pat: string) {
    IndexOf(s, pat).Some?
  }

  /** `includes` holds exactly when `pat` occurs somewhere in `s`. */
  lemma IncludesIff(s: string, pat: string)
    ensures Includes(s, pat) <==> exists i :: OccursAt(s, pat, i)
  {
    if Includes(s, pat) {
      assert OccursAt(s, pat, IndexOf(s, pat).value);
    }
  }

  predicate StartsWith(s: string, prefix: string) {
    |prefix| <= |s| && s[..|prefix|] == prefix
  }

  predicate EndsWith(s: string, suffix: string) {
    |suffix| <= |s| && s[|s| - |suffix|..] == suffix
  }

  lemma SuffixEndsWith(a: string, b: string)
    ensures EndsWith(a + b, b) && StartsWith(a + b, a)
  {
    assert (a + b)[|a|..] == b;
    assert (a + b)[..|a|] == a;
  }

  /**
   * `s.replace(pat, rep)` with a string pattern: only the first occurrence is replaced. The
   * replacement is taken literally, as JavaScript does for a replacement without `$` patterns.
   */
  function ReplaceFirst(s: string, pat: string, rep: string): (r: string)
    ensures |r| == if Includes(s, pat) then |s| - |pat| + |rep| else |s|
  {
    match IndexOf(s, pat)
    case None => s
    case Some(i) => s[..i] + rep + s[i + |pat|..]
  }

  /** `s.substring(start, end)`: both ends clamped to `[0, |s|]`, swapped when reversed. */
  function Substring(s: string, start: int, end: int): (r: string)
    ensures |r| <= |s|
  {
    var a := Clamp(start, 0, |s|);
    var b := Clamp(end, 0, |s|);
    if a <= b then s[a..b] else s[b..a]
  }

  function Clamp(x: int, lo: int, hi: int): int
    requires lo <= hi
  {
    if x < lo then lo else if x > hi then hi else x
  }

  // ---------------------------------------------------------------------------------------
  // Numbers and their text

  /** A JavaScript number restricted to the integers, plus `NaN`. */
  datatype Number = NaN | Int(value: int)

  /** `n < m` on JavaScript numbers: every comparison with `NaN` is false. */
  predicate Less(n: int, m: Number) {
    m.Int? && n < m.value
  }

  /** The characters `parseInt` skips before the number (ECMAScript StrWhiteSpaceChar). */
  predicate IsWhitespace(c: char) {
    var u := c as int;
    u == 0x09 || u == 0x0A || u == 0x0B || u == 0x0C || u == 0x0D || u == 0x20 || u == 0xA0
    || u == 0x1680 || (0x2000 <= u <= 0x200A) || u == 0x2028 || u == 0x2029 || u == 0x202F
    || u == 0x205F || u == 0x3000 || u == 0xFEFF
  }

  function TrimStart(s: string): (r: string)
    ensures |r| <= |s| && r == s[|s| - |r|..]
    ensures r != [] ==> !IsWhitespace(r[0])
  {
    if s != [] && IsWhitespace(s[0]) then TrimStart(s[1..]) else s
  }

  /** The value of `c` as a digit in base 10 or 16, or -1 when it is not one. */
  function DigitValue(c: char, radix: int): (d: int)
    ensures -1 <= d < radix || (d < 16 && radix < 16)
  {
    if '0' <= c <= '9' then (c as int) - ('0' as int)
    else if radix == 16 && 'a' <= c <= 'f' then (c as int) - ('a' as int) + 10
    else if radix == 16 && 'A' <= c <= 'F' then (c as int) - ('A' as int) + 10
    else -1
  }

  predicate IsDigit(c: char, radix: int) {
    0 <= DigitValue(c, radix) < radix
  }

  /** The length of the longest prefix of `s` made of digits in `radix`. */
  function DigitRun(s: string, radix: int): (n: nat)
    ensures n <= |s|
    ensures forall i :: 0 <= i < n ==> IsDigit(s[i], radix)
    ensures n < |s| ==> !IsDigit(s[n], radix)
  {
    if s != [] && IsDigit(s[0], radix) then 1 + DigitRun(s[1..], radix) else 0
  }

  /** The value of a string of digits in `radix`, most significant first. */
  function DigitsValue(ds: string, radix: int): int
  {
    if ds == [] then 0
    else DigitsValue(ds[..|ds| - 1], radix) * radix + DigitValue(ds[|ds| - 1], radix)
  }

  /**
   * `parseInt(s)` with no radix argument: skip leading white space, read an optional sign,
   * read base 16 after a `0x`/`0X` prefix and base 10 otherwise, and stop at the first
   * character that is not a digit; no digit at all gives `NaN`.
   */
  function ParseInt(s: string): Number {
    ParseSigned(TrimStart(s))
  }

  function ParseSigned(t: string): Number {
    if t != [] && t[0] == '-' then Negate(ParseUnsigned(t[1..]))
    else if t != [] && t[0] == '+' then ParseUnsigned(t[1..])
    else ParseUnsigned(t)
  }

  function Negate(x: Number): Number {
    match x
    case NaN => NaN
    case Int(v) => Int(-v)
  }

  function ParseUnsigned(u: string): Number {
    if |u| >= 2 && u[0] == '0' && (u[1] == 'x' || u[1] == 'X') then ParseDigits(u[2..], 16)
    else ParseDigits(u, 10)
  }

  function ParseDigits(v: string, radix: int): Number {
    var n := DigitRun(v, radix);
    if n == 0 then NaN else Int(DigitsValue(v[..n], radix))
  }

  /** The decimal digits of a natural number, without leading zeros. */
  function DecimalString(n: nat): (s: string)
    ensures s != [] && forall i :: 0 <= i < |s| ==> '0' <= s[i] <= '9'
  {
    if n < 10 then [('0' as int + n) as char]
    else DecimalString(n / 10) + [('0' as int + n % 10) as char]
  }

  /** `String(n)` for an integer `n`. */
  function NumberToString(n: int): string {
    if n < 0 then "-" + DecimalString(-n) else DecimalString(n)
  }

  lemma {:induction false} DecimalStringValue(n: nat)
    ensures DigitsValue(DecimalString(n), 10) == n
  {
    var s := DecimalString(n);
    if n >= 10 {
      DecimalStringValue(n / 10);
      assert s[..|s| - 1] == DecimalString(n / 10);
    }
  }

  /** A run of decimal digits followed by `rest` is read up to the end of the run. */
  lemma {:induction false} DigitsRun(d: string, rest: string)
    requires forall i :: 0 <= i < |d| ==> '0' <= d[i] <= '9'
    ensures DigitRun(d + rest, 10) == |d| + DigitRun(rest, 10)
  {
    if d != [] {
      DigitsRun(d[1..], rest);
      assert (d + rest)[1..] == d[1..] + rest;
    } else {
      assert d + rest == rest;
    }
  }

  /** The decimal digits of `m`, followed by nothing or by a space, are read back as `m`. */
  lemma ParseDecimalString(m: nat, rest: string)
    requires rest == [] || rest[0] == ' '
    ensures ParseUnsigned(DecimalString(m) + rest) == Int(m)
  {
    var d := DecimalString(m);
    var u := d + rest;
    DecimalStringValue(m);
    DigitsRun(d, rest);
    assert DigitRun(u, 10) == |d|;
    assert u[..|d|] == d;
    if |u| >= 2 {
      assert u[1] == (if |d| >= 2 then d[1] else rest[0]);
    }
  }

  /** `parseInt(String(n) + rest) == n` when `rest` is empty or starts with a space. */
  lemma ParseNumberPrefix(n: int, rest: string)
    requires rest == [] || rest[0] == ' '
    ensures ParseInt(NumberToString(n) + rest) == Int(n)
  {
    var s := NumberToString(n) + rest;
    var u := DecimalString(if n < 0 then -n else n) + rest;
    ParseDecimalString(if n < 0 then -n else n, rest);
    NotWhitespace(s[0]);
    TrimStartNoop(s);
    if n < 0 {
      assert s == ['-'] + u;
      ParseSignedMinus(u);
    } else {
      assert s == u;
      assert u[0] != '-' && u[0] != '+';
    }
  }

  lemma TrimStartNoop(s: string)
    requires s != [] && !IsWhitespace(s[0])
    ensures TrimStart(s) == s
  {
  }

  lemma ParseSignedMinus(u: string)
    ensures ParseSigned(['-'] + u) == Negate(ParseUnsigned(u))
  {
    assert (['-'] + u)[1..] == u;
  }

  lemma NotWhitespace(c: char)
    requires c == '-' || '0' <= c <= '9'
    ensures !IsWhitespace(c)
  {
  }

  /** `parseInt(String(n)) == n` for every integer `n`. */
  lemma ParseNumberToString(n: int)
    ensures ParseInt(NumberToString(n)) == Int(n)
  {
    ParseNumberPrefix(n, []);
    assert NumberToString(n) + [] == NumberToString(n);
  }
}
